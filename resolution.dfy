/**
 * What `resolve_import`, `resolve_import_from` and `find_modules` do to the
 * finder's `imported` dictionary and `not_found` set, as functions of the
 * state before the call. The recursion into every file found is cut off by
 * `fuel`: a scan that would go deeper sets `truncated` instead.
 */
module Resolution {
  import opened Options
  import opened Paths
  import opened Dicts
  import opened Imports
  import opened Files
  import opened Lookup

  /** The filesystem, and the two fixed roots `www/src/Lib` and `www/src/libs`. */
  datatype Env = Env(fs: Fs, lib: Path, js: Path)

  /**
   * The finder's results: `imported` (name -> kind and file), `not_found`,
   * and whether some scan ran out of fuel.
   */
  datatype State = State(imported: map<string, Entry>, notFound: set<string>, truncated: bool)

  /** An empty finder state. */
  const START := State(map[], {}, false)

  /**
   * How the state may change: nothing is ever removed, and a name newly put in
   * `notFound` was not imported at the start. (A name may still be imported
   * AFTER being put in `notFound`, so the two are not kept disjoint.)
   */
  ghost predicate Grows(st: State, r: State)
  {
    && st.imported.Keys <= r.imported.Keys
    && st.notFound <= r.notFound
    && (forall n :: n in r.notFound && n !in st.notFound ==> n !in st.imported)
    && (st.truncated ==> r.truncated)
  }

  /** `n` has been looked up: it is imported, or known to be missing. */
  predicate Accounted(st: State, n: string)
  {
    n in st.imported || n in st.notFound
  }

  /**
   * The name `find_modules` looks up for one listed import: the name itself
   * for `import n`, the module `M` for `from M import n`.
   */
  function Target(item: (string, Option<string>)): string
  {
    match item.1
    case None => item.0
    case Some(m) => m
  }

  /** Every listed import has been looked up in `st`. */
  predicate Covers(items: seq<(string, Option<string>)>, st: State)
  {
    forall k :: 0 <= k < |items| ==> Accounted(st, Target(items[k]))
  }

  /** The roots `resolve_import` tries for a script found at `origin`. */
  function Roots(env: Env, origin: Path): seq<Root>
  {
    SearchRoots(env.lib, env.js, origin)
  }

  /**
   * `with open(file) as fobj: self.find_modules(dir, fobj.read())` after a
   * hit; with no fuel left the scan is cut off and `truncated` is set.
   */
  function ScanFile(env: Env, st: State, file: Path, dir: Path, fuel: nat): (r: State)
    ensures Grows(st, r)
    ensures fuel == 0 ==> r == st.(truncated := true)
    ensures fuel > 0 ==> Covers(Listed(env.fs.Read(file)).Items(), r)
    decreases fuel, 0, 0
  {
    if fuel == 0 then st.(truncated := true)
    else FindAll(env, st, dir, Listed(env.fs.Read(file)).Items(), fuel - 1)
  }

  /** `resolve_import(origin, name)` */
  function Resolve(env: Env, st: State, origin: Path, name: string, fuel: nat): (r: State)
    ensures Grows(st, r)
    ensures name in r.imported || name in r.notFound
    ensures name in st.imported || name in st.notFound ==> r == st
    ensures name !in st.imported && name !in st.notFound ==> (name in r.imported <==> name !in r.notFound)
    decreases fuel, 1, 0
  {
    if name in st.imported || name in st.notFound then st
    else
      match Locate(env.fs, Roots(env, origin), name)
      case None => st.(notFound := st.notFound + {name})
      case Some(h) =>
        var recorded := st.(imported := st.imported[name := h.entry]);
        match h.scanFrom
        case None => recorded
        case Some(dir) => ScanFile(env, recorded, h.entry.file, dir, fuel)
  }

  /** `resolve_import_from(origin, name, fromModule)` */
  function ResolveFrom(env: Env, st: State, origin: Path, name: string, fromModule: string, fuel: nat): (r: State)
    ensures Grows(st, r)
    ensures fromModule in r.imported || fromModule in r.notFound
    decreases fuel, 2, 0
  {
    var s1 := Resolve(env, st, origin, fromModule, fuel);
    if fromModule !in s1.imported then s1.(notFound := s1.notFound + {fromModule})
    else if s1.imported[fromModule].kind == Package then
      match Leaf(env.fs, Dirname(s1.imported[fromModule].file), name)
      case None => s1
      case Some(h) => ScanFile(env, s1.(imported := s1.imported[name := h.entry]), h.entry.file, h.scanFrom.value, fuel)
    else s1
  }

  /** The loop of `find_modules` over the listed imports, in dictionary order. */
  function FindAll(env: Env, st: State, origin: Path, items: seq<(string, Option<string>)>, fuel: nat): (r: State)
    ensures Grows(st, r)
    ensures Covers(items, r)
    decreases fuel, 3, |items|
  {
    if items == [] then st
    else
      var s1 := match items[0].1
        case None => Resolve(env, st, origin, items[0].0, fuel)
        case Some(m) => ResolveFrom(env, st, origin, items[0].0, m, fuel);
      FindAll(env, s1, origin, items[1..], fuel)
  }

  /** `find_modules(origin, src)` */
  function FindModules(env: Env, st: State, origin: Path, src: seq<ImportStmt>, fuel: nat): (r: State)
    ensures Grows(st, r)
    ensures Covers(Listed(src).Items(), r)
  {
    FindAll(env, st, origin, Listed(src).Items(), fuel)
  }

  /** The constructor's loop: `find_modules(path, src)` for every collected script, in order. */
  function FindScripts(env: Env, st: State, scripts: seq<(string, (Path, seq<ImportStmt>))>, fuel: nat): (r: State)
    ensures Grows(st, r)
    ensures forall j :: 0 <= j < |scripts| ==> Covers(Listed(scripts[j].1.1).Items(), r)
    decreases |scripts|
  {
    if scripts == [] then st
    else FindScripts(env, FindModules(env, st, scripts[0].1.0, scripts[0].1.1, fuel), scripts[1..], fuel)
  }

  /**
   * `find_modules(origin, src)` looks up every import of `src`: for a name
   * whose last import is `import n`, the name itself; for `from M import n`,
   * the module `M`. Afterwards each is imported or known to be missing.
   */
  lemma FindModulesLooksUpEveryImport(env: Env, st: State, origin: Path, src: seq<ImportStmt>, fuel: nat, n: string)
    requires LastBinding(src, n).Some?
    ensures var r := FindModules(env, st, origin, src, fuel);
      match LastBinding(src, n).value
      case None => Accounted(r, n)
      case Some(m) => Accounted(r, m)
  {
    ListedBinding(src, n);
    var d := Listed(src);
    var k :| 0 <= k < |d.keys| && d.keys[k] == n;
    assert d.Items()[k] == (n, d.values[n]);
  }

  /**
   * The three outcomes of a lookup for a name not seen before: a miss adds it
   * to `notFound` and nothing else; a `.js` hit records `('module', js/name.js)`
   * and scans nothing; a Python hit is recorded BEFORE its file is scanned, so
   * inside that scan a plain import of the same name changes nothing.
   */
  lemma ResolveOutcome(env: Env, st: State, origin: Path, name: string, fuel: nat)
    requires name !in st.imported && name !in st.notFound
    ensures Locate(env.fs, Roots(env, origin), name).None? ==>
      Resolve(env, st, origin, name, fuel) == st.(notFound := st.notFound + {name})
    ensures Locate(env.fs, Roots(env, origin), name).Some? &&
            Locate(env.fs, Roots(env, origin), name).value.scanFrom.None? ==>
      Resolve(env, st, origin, name, fuel)
        == st.(imported := st.imported[name := Entry(Module, env.js + [name + ".js"])])
    ensures Locate(env.fs, Roots(env, origin), name).Some? ==>
      var h := Locate(env.fs, Roots(env, origin), name).value;
      var recorded := st.(imported := st.imported[name := h.entry]);
      && (h.scanFrom.Some? ==> Resolve(env, st, origin, name, fuel) == ScanFile(env, recorded, h.entry.file, h.scanFrom.value, fuel))
      && forall o: Path, f: nat :: Resolve(env, recorded, o, name, f) == recorded
  {
    if Locate(env.fs, Roots(env, origin), name).Some? {
      HitShape(env.fs, env.lib, env.js, origin, name);
    }
  }

  /** Resolving a name a second time changes nothing (the memo and the negative cache). */
  lemma ResolveIdempotent(env: Env, st: State, origin: Path, origin2: Path, name: string, fuel: nat, fuel2: nat)
    ensures var r := Resolve(env, st, origin, name, fuel);
      Resolve(env, r, origin2, name, fuel2) == r
  {
  }

  /**
   * `from M import name` when `M` was not found: `M` is in `notFound`, and the
   * state is the old one with `M` added there; `name` is neither imported nor
   * marked as not found by this call.
   */
  lemma {:induction false} ResolveFromUnresolved(env: Env, st: State, origin: Path, name: string, fromModule: string, fuel: nat)
    requires fromModule !in ResolveFrom(env, st, origin, name, fromModule, fuel).imported
    ensures ResolveFrom(env, st, origin, name, fromModule, fuel) == st.(notFound := st.notFound + {fromModule})
  {
    var s1 := Resolve(env, st, origin, fromModule, fuel);
    assert fromModule !in s1.imported;
  }

  /**
   * `from M import name` when `M` was found: a module `M` (a `.js` one
   * included) leaves the state as resolving `M` left it; a package `M` is
   * searched in the folder of its `__init__.py`, `name.py` before
   * `name/__init__.py`; a hit is recorded under the bare key `name`, whatever
   * the memo says of `name`; a miss changes nothing more.
   */
  lemma ResolveFromFound(env: Env, st: State, origin: Path, name: string, fromModule: string, fuel: nat)
    requires fromModule in Resolve(env, st, origin, fromModule, fuel).imported
    ensures var s1 := Resolve(env, st, origin, fromModule, fuel);
      var e := s1.imported[fromModule];
      var dir := Dirname(e.file);
      var r := ResolveFrom(env, st, origin, name, fromModule, fuel);
      && (e.kind == Module ==> r == s1)
      && (e.kind == Package && dir + [name + ".py"] in env.fs.present ==>
            r == ScanFile(env, s1.(imported := s1.imported[name := Entry(Module, dir + [name + ".py"])]),
                          dir + [name + ".py"], dir, fuel)
            && name in r.imported)
      && (e.kind == Package && dir + [name + ".py"] !in env.fs.present && dir + [name, INIT_FILE] in env.fs.present ==>
            r == ScanFile(env, s1.(imported := s1.imported[name := Entry(Package, dir + [name, INIT_FILE])]),
                          dir + [name, INIT_FILE], dir + [name], fuel)
            && name in r.imported)
      && (e.kind == Package && dir + [name + ".py"] !in env.fs.present && dir + [name, INIT_FILE] !in env.fs.present ==>
            r == s1)
  {
  }

  /**
   * Fuel only bounds the depth of the walk: when a run did not run out, any
   * larger amount of fuel gives exactly the same result.
   */
  lemma {:induction false} ResolveFuel(env: Env, st: State, origin: Path, name: string, fuel: nat, fuel2: nat)
    requires fuel <= fuel2
    requires !Resolve(env, st, origin, name, fuel).truncated
    ensures Resolve(env, st, origin, name, fuel2) == Resolve(env, st, origin, name, fuel)
    decreases fuel, 1, 0
  {
    if name !in st.imported && name !in st.notFound {
      match Locate(env.fs, Roots(env, origin), name)
      case None =>
      case Some(h) =>
        if h.scanFrom.Some? {
          ScanFileFuel(env, st.(imported := st.imported[name := h.entry]), h.entry.file, h.scanFrom.value, fuel, fuel2);
        }
    }
  }

  lemma {:induction false} ScanFileFuel(env: Env, st: State, file: Path, dir: Path, fuel: nat, fuel2: nat)
    requires fuel <= fuel2
    requires !ScanFile(env, st, file, dir, fuel).truncated
    ensures ScanFile(env, st, file, dir, fuel2) == ScanFile(env, st, file, dir, fuel)
    decreases fuel, 0, 0
  {
    FindAllFuel(env, st, dir, Listed(env.fs.Read(file)).Items(), fuel - 1, fuel2 - 1);
  }

  lemma {:induction false} ResolveFromFuel(env: Env, st: State, origin: Path, name: string, fromModule: string, fuel: nat, fuel2: nat)
    requires fuel <= fuel2
    requires !ResolveFrom(env, st, origin, name, fromModule, fuel).truncated
    ensures ResolveFrom(env, st, origin, name, fromModule, fuel2) == ResolveFrom(env, st, origin, name, fromModule, fuel)
    decreases fuel, 2, 0
  {
    var s1 := Resolve(env, st, origin, fromModule, fuel);
    ResolveFuel(env, st, origin, fromModule, fuel, fuel2);
    if fromModule in s1.imported && s1.imported[fromModule].kind == Package {
      match Leaf(env.fs, Dirname(s1.imported[fromModule].file), name)
      case None =>
      case Some(h) => ScanFileFuel(env, s1.(imported := s1.imported[name := h.entry]), h.entry.file, h.scanFrom.value, fuel, fuel2);
    }
  }

  lemma {:induction false} FindAllFuel(env: Env, st: State, origin: Path, items: seq<(string, Option<string>)>, fuel: nat, fuel2: nat)
    requires fuel <= fuel2
    requires !FindAll(env, st, origin, items, fuel).truncated
    ensures FindAll(env, st, origin, items, fuel2) == FindAll(env, st, origin, items, fuel)
    decreases fuel, 3, |items|
  {
    if items != [] {
      var s1 := match items[0].1
        case None => Resolve(env, st, origin, items[0].0, fuel)
        case Some(m) => ResolveFrom(env, st, origin, items[0].0, m, fuel);
      match items[0].1 {
        case None => ResolveFuel(env, st, origin, items[0].0, fuel, fuel2);
        case Some(m) => ResolveFromFuel(env, st, origin, items[0].0, m, fuel, fuel2);
      }
      FindAllFuel(env, s1, origin, items[1..], fuel, fuel2);
    }
  }
}
