/**
 * `ScriptsFinder`: collects the Python scripts of a page through the parser
 * callbacks, then resolves their imports recursively, filling `imported` and
 * `not_found` in place. Every resolving method is proved to leave exactly the
 * state that the functions of module Resolution describe.
 */
module Finder {
  import opened Options
  import opened Paths
  import opened Dicts
  import opened Imports
  import opened Files
  import opened Lookup
  import opened Resolution
  import opened ScriptTags

  /** A collected script: the path its imports are resolved from, and its import statements. */
  type Script = (Path, seq<ImportStmt>)

  /** `if not src`: no `src` attribute, one without a value, or an empty one. */
  predicate NoSrc(src: Option<string>)
  {
    src == None || src == Some("")
  }

  class ScriptsFinder {
    const env: Env
    const scriptPath: Path
    const folder: Path

    var scripts: Dict<string, Script>
    var python: bool
    var counter: Option<nat>
    var id: string

    var imported: map<string, Entry>
    var notFound: set<string>
    var truncated: bool

    ghost predicate Valid()
      reads this
    {
      scripts.Valid() && counter != Some(0)
    }

    /** The resolution results as one value. */
    function Results(): State
      reads this
    {
      State(imported, notFound, truncated)
    }

    /** `ScriptsFinder(script_path)` before the page is fed. */
    constructor(env: Env, scriptPath: Path)
      ensures Valid()
      ensures this.env == env && this.scriptPath == scriptPath && folder == Dirname(scriptPath)
      ensures scripts == Empty() && !python && counter == None
      ensures Results() == START
    {
      this.env := env;
      this.scriptPath := scriptPath;
      folder := Dirname(scriptPath);
      scripts := Empty();
      python := false;
      counter := None;
      id := "";
      imported := map[];
      notFound := {};
      truncated := false;
    }

    /**
     * `handle_starttag`: a Python `<script>` gets its id; an inline one makes
     * the next text its source, one with `src` is read from the page's folder.
     * `ok` is false when the attribute loop raises; nothing has changed then.
     * That `AttributeError` ends the whole construction of the finder, so a
     * caller that gets `ok == false` must stop: no further callback and no
     * `FindAllScripts`.
     */
    method HandleStartTag(tag: string, attrs: seq<Attr>) returns (ok: bool)
      requires Valid()
      modifies this`scripts, this`python, this`counter, this`id
      ensures Valid()
      ensures ok <==> tag != "script" || ReadAttrs(attrs).Some?
      ensures !ok || tag != "script" || !ReadAttrs(attrs).value.python ==>
        scripts == old(scripts) && python == old(python) && counter == old(counter) && id == old(id)
      ensures ok && tag == "script" && ReadAttrs(attrs).value.python ==>
        var info := ReadAttrs(attrs).value;
        var given := AssignId(info.id, old(counter));
        && id == given.0 && counter == given.1
        && (NoSrc(info.src) ==> python && scripts == old(scripts))
        && (!NoSrc(info.src) ==>
              var path := folder + Split(info.src.value, '/');
              python == old(python) && scripts == old(scripts).Put(id, (path, env.fs.Read(path))))
    {
      ok := true;
      if tag == "script" {
        var info := ScanAttrs(attrs);
        if info.None? {
          return false;
        }
        var tagInfo := info.value;
        if tagInfo.python {
          var given := AssignId(tagInfo.id, counter);
          id, counter := given.0, given.1;
          if NoSrc(tagInfo.src) {
            python := true;
          } else {
            var path := folder + Split(tagInfo.src.value, '/');
            scripts := scripts.Put(id, (path, env.fs.Read(path)));
          }
        }
      }
    }

    /** `handle_data`: text that follows an inline Python tag becomes that script; any text clears the flag. */
    method HandleData(data: seq<ImportStmt>)
      requires Valid()
      modifies this`scripts, this`python
      ensures Valid()
      ensures !python
      ensures scripts == if old(python) then old(scripts).Put(id, (scriptPath, data)) else old(scripts)
    {
      if python {
        scripts := scripts.Put(id, (scriptPath, data));
      }
      python := false;
    }

    /** The constructor's last loop: resolve the imports of every collected script, in order. */
    method FindAllScripts(fuel: nat)
      requires Valid()
      modifies this`imported, this`notFound, this`truncated
      ensures Results() == FindScripts(env, old(Results()), scripts.Items(), fuel)
    {
      var items := scripts.Items();
      for i := 0 to |items|
        invariant FindScripts(env, old(Results()), items, fuel) == FindScripts(env, Results(), items[i..], fuel)
      {
        assert items[i..][1..] == items[i + 1..];
        var (path, src) := items[i].1;
        FindModules(path, src, fuel);
      }
    }

    /** `find_modules(origin, src)`: list the imports, then resolve each in dictionary order. */
    method FindModules(origin: Path, src: seq<ImportStmt>, fuel: nat)
      modifies this`imported, this`notFound, this`truncated
      ensures Results() == Resolution.FindModules(env, old(Results()), origin, src, fuel)
      decreases fuel, 3, 0
    {
      var lister := new ImportLister();
      lister.Visit(src);
      var items := lister.imports.Items();
      for i := 0 to |items|
        invariant FindAll(env, old(Results()), origin, items, fuel) == FindAll(env, Results(), origin, items[i..], fuel)
      {
        assert items[i..][1..] == items[i + 1..];
        var (name, fromModule) := items[i];
        match fromModule {
          case None => ResolveImport(origin, name, fuel);
          case Some(m) => ResolveImportFrom(origin, name, m, fuel);
        }
      }
    }

    /** `resolve_import(origin, name)` */
    method ResolveImport(origin: Path, name: string, fuel: nat)
      modifies this`imported, this`notFound, this`truncated
      ensures Results() == Resolve(env, old(Results()), origin, name, fuel)
      decreases fuel, 1, 0
    {
      if name in imported || name in notFound {
        return;
      }
      var hit := LocateModule(env.fs, Roots(env, origin), name);
      match hit {
        case None =>
          notFound := notFound + {name};
        case Some(h) =>
          imported := imported[name := h.entry];
          if h.scanFrom.Some? {
            ScanFile(h.entry.file, h.scanFrom.value, fuel);
          }
      }
    }

    /** `resolve_import_from(origin, name, fromModule)` */
    method ResolveImportFrom(origin: Path, name: string, fromModule: string, fuel: nat)
      modifies this`imported, this`notFound, this`truncated
      ensures Results() == ResolveFrom(env, old(Results()), origin, name, fromModule, fuel)
      decreases fuel, 2, 0
    {
      ResolveImport(origin, fromModule, fuel);
      if fromModule !in imported {
        notFound := notFound + {fromModule};
        return;
      }
      var entry := imported[fromModule];
      if entry.kind == Package {
        var packagePath := Dirname(entry.file);
        var moduleFile := packagePath + [name + ".py"];
        var packageFile := packagePath + [name, INIT_FILE];
        if moduleFile in env.fs.present {
          imported := imported[name := Entry(Module, moduleFile)];
          ScanFile(moduleFile, packagePath, fuel);
        } else if packageFile in env.fs.present {
          imported := imported[name := Entry(Package, packageFile)];
          ScanFile(packageFile, packagePath + [name], fuel);
        }
      }
    }

    /** Read a found file and resolve its imports from `dir`, fuel permitting. */
    method ScanFile(file: Path, dir: Path, fuel: nat)
      modifies this`imported, this`notFound, this`truncated
      ensures Results() == Resolution.ScanFile(env, old(Results()), file, dir, fuel)
      decreases fuel, 0, 0
    {
      if fuel == 0 {
        truncated := true;
      } else {
        FindModules(dir, env.fs.Read(file), fuel - 1);
      }
    }
  }
}
