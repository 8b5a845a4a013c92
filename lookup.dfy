/**
 * The lookup half of `ScriptsFinder.resolve_import`: the search roots tried
 * in order, the `.js` check on the Brython library folder, and the descent
 * through package folders in the Python roots. Nothing here changes state.
 */
module Lookup {
  import opened Options
  import opened Paths
  import opened Files

  /** `'module'` or `'package'`: a `.js` library file is recorded as a module. */
  datatype Kind = Module | Package

  /** What `imported[name]` holds: the kind and the file found. */
  datatype Entry = Entry(kind: Kind, file: Path)

  /**
   * A successful lookup: the entry to record and the folder the found file's
   * own imports are resolved from (None for a `.js` file, which is not scanned).
   */
  datatype Hit = Hit(entry: Entry, scanFrom: Option<Path>)

  /**
   * A search root. `Flat` is the root whose identity is `js_path`: only
   * `name + '.js'` is tried there. `Hierarchical` roots are descended package
   * by package.
   */
  datatype Root = Hierarchical(base: Path) | Flat(base: Path)

  /**
   * `[paths[0], js_path, script_path, paths[1]]`, where `paths[1]` is
   * `js_path` itself: the library folder `Lib`, the `.js` folder `libs`, the
   * origin passed to `find_modules` (a found file's folder, or a top-level
   * script's own file path), and `libs` again.
   */
  function SearchRoots(lib: Path, js: Path, origin: Path): seq<Root>
  {
    [Hierarchical(lib), Flat(js), Hierarchical(origin), Flat(js)]
  }

  /**
   * The `for elt in elts[:-1]` loop: walk down one folder per segment while
   * each has an `__init__.py`; None when the loop breaks.
   */
  function Descend(fs: Fs, dir: Path, segs: seq<string>): Option<Path>
    decreases |segs|
  {
    if segs == [] then Some(dir)
    else if dir + [segs[0], INIT_FILE] in fs.present then Descend(fs, dir + [segs[0]], segs[1..])
    else None
  }

  /** Every folder on the way from `dir` down through `segs` is a package. */
  ghost predicate PackagesAlong(fs: Fs, dir: Path, segs: seq<string>)
  {
    forall k :: 1 <= k <= |segs| ==> dir + segs[..k] + [INIT_FILE] in fs.present
  }

  /**
   * The last segment in folder `dir`: `last.py` wins over `last/__init__.py`
   * and is a module scanned from `dir`; otherwise `last/__init__.py` is a
   * package scanned from `dir/last`; with neither there is no hit.
   */
  function Leaf(fs: Fs, dir: Path, last: string): (r: Option<Hit>)
    ensures dir + [last + ".py"] in fs.present ==> r == Some(Hit(Entry(Module, dir + [last + ".py"]), Some(dir)))
    ensures dir + [last + ".py"] !in fs.present && dir + [last, INIT_FILE] in fs.present ==>
      r == Some(Hit(Entry(Package, dir + [last, INIT_FILE]), Some(dir + [last])))
    ensures r.None? <==> dir + [last + ".py"] !in fs.present && dir + [last, INIT_FILE] !in fs.present
    ensures r.Some? ==> r.value.entry.file in fs.present && r.value.scanFrom == Some(Dirname(r.value.entry.file))
  {
    if dir + [last + ".py"] in fs.present then
      Some(Hit(Entry(Module, dir + [last + ".py"]), Some(dir)))
    else if dir + [last, INIT_FILE] in fs.present then
      assert Dirname(dir + [last, INIT_FILE]) == dir + [last];
      Some(Hit(Entry(Package, dir + [last, INIT_FILE]), Some(dir + [last])))
    else None
  }

  /** One iteration of the loop over the roots. */
  function RootHit(fs: Fs, root: Root, name: string): Option<Hit>
  {
    match root
    case Flat(base) =>
      if base + [name + ".js"] in fs.present then Some(Hit(Entry(Module, base + [name + ".js"]), None)) else None
    case Hierarchical(base) =>
      var elts := Split(name, '.');
      match Descend(fs, base, elts[..|elts| - 1])
      case None => None
      case Some(dir) => Leaf(fs, dir, elts[|elts| - 1])
  }

  /** The first root that yields a hit, in order. */
  function Locate(fs: Fs, roots: seq<Root>, name: string): Option<Hit>
    decreases |roots|
  {
    if roots == [] then None
    else if RootHit(fs, roots[0], name).Some? then RootHit(fs, roots[0], name)
    else Locate(fs, roots[1..], name)
  }

  /** The descent succeeds exactly when every folder on the way is a package, and then ends below all segments. */
  lemma {:induction false} DescendSpec(fs: Fs, dir: Path, segs: seq<string>)
    ensures Descend(fs, dir, segs) == if PackagesAlong(fs, dir, segs) then Some(dir + segs) else None
    decreases |segs|
  {
    if segs == [] {
      assert dir + segs == dir;
    } else {
      var sub := dir + [segs[0]];
      DescendSpec(fs, sub, segs[1..]);
      assert sub + segs[1..] == dir + segs;
      assert dir + segs[..1] + [INIT_FILE] == dir + [segs[0], INIT_FILE];
      forall k | 1 <= k <= |segs[1..]|
        ensures sub + segs[1..][..k] + [INIT_FILE] == dir + segs[..k + 1] + [INIT_FILE]
      {
        assert segs[..k + 1] == [segs[0]] + segs[1..][..k];
      }
      if PackagesAlong(fs, dir, segs) {
        assert dir + segs[..1] + [INIT_FILE] in fs.present;
        forall k | 1 <= k <= |segs[1..]| ensures sub + segs[1..][..k] + [INIT_FILE] in fs.present {
          assert dir + segs[..k + 1] + [INIT_FILE] in fs.present;
        }
      } else if dir + [segs[0], INIT_FILE] in fs.present {
        var k :| 1 <= k <= |segs| && dir + segs[..k] + [INIT_FILE] !in fs.present;
        assert k != 1;
        assert sub + segs[1..][..k - 1] + [INIT_FILE] !in fs.present;
      }
    }
  }

  /**
   * Root precedence: the lookup yields the hit of root `i` exactly when root
   * `i` hits and every root before it misses; it yields nothing exactly when
   * every root misses.
   */
  lemma {:induction false} LocateFirstHit(fs: Fs, roots: seq<Root>, name: string, i: nat)
    requires i < |roots|
    ensures (RootHit(fs, roots[i], name).Some? && forall j :: 0 <= j < i ==> RootHit(fs, roots[j], name).None?)
        ==> Locate(fs, roots, name) == RootHit(fs, roots[i], name)
    ensures Locate(fs, roots, name).None? <==> forall j :: 0 <= j < |roots| ==> RootHit(fs, roots[j], name).None?
    decreases |roots|
  {
    if i > 0 {
      LocateFirstHit(fs, roots[1..], name, i - 1);
      assert forall j :: 0 <= j < i - 1 ==> roots[1..][j] == roots[j + 1];
    } else if |roots| > 1 {
      LocateFirstHit(fs, roots[1..], name, 0);
    }
    if |roots| > 1 {
      assert forall j :: 1 <= j < |roots| ==> roots[j] == roots[1..][j - 1];
    }
  }

  /** Whatever the lookup yields comes from some root all of whose predecessors missed. */
  lemma {:induction false} LocateFound(fs: Fs, roots: seq<Root>, name: string)
    requires Locate(fs, roots, name).Some?
    ensures exists i :: (0 <= i < |roots| && Locate(fs, roots, name) == RootHit(fs, roots[i], name)
      && forall j :: 0 <= j < i ==> RootHit(fs, roots[j], name).None?)
    decreases |roots|
  {
    if RootHit(fs, roots[0], name).None? {
      LocateFound(fs, roots[1..], name);
      var i :| 0 <= i < |roots[1..]| && Locate(fs, roots[1..], name) == RootHit(fs, roots[1..][i], name)
        && forall j :: 0 <= j < i ==> RootHit(fs, roots[1..][j], name).None?;
      assert forall j :: 1 <= j < i + 1 ==> roots[j] == roots[1..][j - 1];
      assert RootHit(fs, roots[i + 1], name) == Locate(fs, roots, name);
    } else {
      assert Locate(fs, roots, name) == RootHit(fs, roots[0], name);
    }
  }

  /**
   * The fourth root repeats the `.js` check of the second, so it never finds
   * anything the second did not: the `site-packages` folder is never searched.
   */
  lemma FourthRootRedundant(fs: Fs, lib: Path, js: Path, origin: Path, name: string)
    ensures Locate(fs, SearchRoots(lib, js, origin), name)
         == Locate(fs, [Hierarchical(lib), Flat(js), Hierarchical(origin)], name)
  {
    var roots := SearchRoots(lib, js, origin);
    var three := [Hierarchical(lib), Flat(js), Hierarchical(origin)];
    assert roots[1..] == [Flat(js), Hierarchical(origin), Flat(js)];
    assert roots[1..][1..] == [Hierarchical(origin), Flat(js)];
    assert roots[1..][1..][1..] == [Flat(js)];
    assert three[1..] == [Flat(js), Hierarchical(origin)];
    assert three[1..][1..] == [Hierarchical(origin)];
    assert three[1..][1..][1..] == [];
    assert [Flat(js)][1..] == [];
    if RootHit(fs, Flat(js), name).None? {
      assert Locate(fs, roots[1..][1..][1..], name) == None;
      assert Locate(fs, roots[1..][1..], name) == Locate(fs, three[1..][1..], name);
    }
  }

  /**
   * A dotted name `s0. ... .sk` (its segments are `Split(name, '.')`, see
   * SplitJoin) in a Python root: the root is usable only when `s0`, ...,
   * `s(k-1)` are packages under it, and then the last segment is looked up in
   * the folder reached (see Leaf); otherwise the root misses.
   */
  lemma HierarchicalLookup(fs: Fs, base: Path, name: string)
    ensures var elts := Split(name, '.');
      RootHit(fs, Hierarchical(base), name)
        == if PackagesAlong(fs, base, elts[..|elts| - 1]) then Leaf(fs, base + elts[..|elts| - 1], elts[|elts| - 1]) else None
  {
    var elts := Split(name, '.');
    DescendSpec(fs, base, elts[..|elts| - 1]);
  }

  /**
   * The shape of every hit: a `.js` hit is `('module', js/name.js)` and is
   * never scanned; a Python hit exists and is scanned from the folder that
   * holds it. A Python module is the file `last.py`, `last` being the final
   * dotted segment; a package is `last/__init__.py`, scanned from `last`.
   */
  lemma HitShape(fs: Fs, lib: Path, js: Path, origin: Path, name: string)
    requires Locate(fs, SearchRoots(lib, js, origin), name).Some?
    ensures var h := Locate(fs, SearchRoots(lib, js, origin), name).value;
      var file := h.entry.file;
      var last := Split(name, '.')[|Split(name, '.')| - 1];
      && file in fs.present
      && (h.scanFrom == None ==> h.entry == Entry(Module, js + [name + ".js"]))
      && (h.scanFrom.Some? ==> h.scanFrom.value == Dirname(file))
      && (h.scanFrom.Some? && h.entry.kind == Module ==> |file| >= 1 && file[|file| - 1] == last + ".py")
      && (h.entry.kind == Package ==>
            |file| >= 2 && file[|file| - 2..] == [last, INIT_FILE] && h.scanFrom == Some(file[..|file| - 1]))
  {
    var roots := SearchRoots(lib, js, origin);
    forall k | 0 <= k < |roots| ensures roots[k].Hierarchical? || roots[k] == Flat(js) {
      assert k == 0 || k == 1 || k == 2 || k == 3;
    }
    LocateShape(fs, roots, js, name);
  }

  /** A hit of the right shape, for Python roots and the `.js` root `js`. */
  ghost predicate Shaped(fs: Fs, h: Hit, js: Path, name: string)
  {
    var file := h.entry.file;
    var last := Split(name, '.')[|Split(name, '.')| - 1];
    && file in fs.present
    && (h.scanFrom == None ==> h.entry == Entry(Module, js + [name + ".js"]))
    && (h.scanFrom.Some? ==> h.scanFrom.value == Dirname(file))
    && (h.scanFrom.Some? && h.entry.kind == Module ==> |file| >= 1 && file[|file| - 1] == last + ".py")
    && (h.entry.kind == Package ==>
          |file| >= 2 && file[|file| - 2..] == [last, INIT_FILE] && h.scanFrom == Some(file[..|file| - 1]))
  }

  /** Every hit over roots that are Python roots or `Flat(js)` is shaped. */
  lemma {:induction false} LocateShape(fs: Fs, roots: seq<Root>, js: Path, name: string)
    requires forall k :: 0 <= k < |roots| ==> roots[k].Hierarchical? || roots[k] == Flat(js)
    requires Locate(fs, roots, name).Some?
    ensures Shaped(fs, Locate(fs, roots, name).value, js, name)
    decreases |roots|
  {
    if RootHit(fs, roots[0], name).Some? {
      RootHitShape(fs, roots[0], js, name);
    } else {
      LocateShape(fs, roots[1..], js, name);
    }
  }

  /** The shape of one root's hit, for a Python root or the `.js` root `js`. */
  lemma RootHitShape(fs: Fs, root: Root, js: Path, name: string)
    requires root.Hierarchical? || root == Flat(js)
    requires RootHit(fs, root, name).Some?
    ensures Shaped(fs, RootHit(fs, root, name).value, js, name)
  {
    if root.Hierarchical? {
      var elts := Split(name, '.');
      LeafShape(fs, Descend(fs, root.base, elts[..|elts| - 1]).value, elts[|elts| - 1]);
    }
  }

  /** The file a leaf hit records: `last.py` for a module, `last/__init__.py` for a package. */
  lemma LeafShape(fs: Fs, dir: Path, last: string)
    requires Leaf(fs, dir, last).Some?
    ensures var h := Leaf(fs, dir, last).value;
      var file := h.entry.file;
      && (h.entry.kind == Module ==> |file| >= 1 && file[|file| - 1] == last + ".py")
      && (h.entry.kind == Package ==>
            |file| >= 2 && file[|file| - 2..] == [last, INIT_FILE] && h.scanFrom == Some(file[..|file| - 1]))
  {
    if dir + [last + ".py"] !in fs.present {
      var file := dir + [last, INIT_FILE];
      assert file[|file| - 2..] == [last, INIT_FILE];
      assert file[..|file| - 1] == dir + [last];
    }
  }

  /**
   * A Python root with nothing stored below it never hits. This is the case
   * of the third root for a top-level script, whose origin is the page's (or
   * the external script's) own file path rather than its folder.
   */
  lemma NothingBelowNeverHits(fs: Fs, base: Path, name: string)
    requires forall p :: p in fs.present ==> |p| <= |base| || p[..|base|] != base
    ensures RootHit(fs, Hierarchical(base), name) == None
  {
    var elts := Split(name, '.');
    var pre, last := elts[..|elts| - 1], elts[|elts| - 1];
    if pre != [] {
      assert (base + [pre[0], INIT_FILE])[..|base|] == base;
    } else {
      assert (base + [last + ".py"])[..|base|] == base;
      assert (base + [last, INIT_FILE])[..|base|] == base;
    }
  }

  /** The loop of `resolve_import` over the roots, up to the first hit. */
  method LocateModule(fs: Fs, roots: seq<Root>, name: string) returns (hit: Option<Hit>)
    ensures hit == Locate(fs, roots, name)
  {
    var elts := Split(name, '.');
    var i := 0;
    while i < |roots|
      invariant 0 <= i <= |roots|
      invariant Locate(fs, roots, name) == Locate(fs, roots[i..], name)
    {
      assert roots[i..][1..] == roots[i + 1..];
      match roots[i] {
      case Flat(base) =>
        var moduleFile := base + [name + ".js"];
        if moduleFile in fs.present {
          return Some(Hit(Entry(Module, moduleFile), None));
        }
      case Hierarchical(base) =>
        var pre := elts[..|elts| - 1];
        var modPath := base;
        var complete := true;
        var j := 0;
        while j < |pre|
          invariant 0 <= j <= |pre|
          invariant complete
          invariant Descend(fs, base, pre) == Descend(fs, modPath, pre[j..])
        {
          assert pre[j..][1..] == pre[j + 1..];
          var subPath := modPath + [pre[j]];
          if subPath + [INIT_FILE] in fs.present {
            assert subPath + [INIT_FILE] == modPath + [pre[j..][0], INIT_FILE];
            modPath := subPath;
          } else {
            assert subPath + [INIT_FILE] == modPath + [pre[j..][0], INIT_FILE];
            assert Descend(fs, modPath, pre[j..]) == None;
            complete := false;
            break;
          }
          j := j + 1;
        }
        assert complete ==> Descend(fs, base, pre) == Some(modPath);
        assert !complete ==> Descend(fs, base, pre) == None;
        assert RootHit(fs, roots[i], name) == if complete then Leaf(fs, modPath, elts[|elts| - 1]) else None;
        if complete {
          var last := elts[|elts| - 1];
          var moduleFile := modPath + [last + ".py"];
          if moduleFile in fs.present {
            return Some(Hit(Entry(Module, moduleFile), Some(modPath)));
          }
          var packageFolder := modPath + [last];
          var packageFile := packageFolder + [INIT_FILE];
          assert packageFile == modPath + [last, INIT_FILE];
          if packageFile in fs.present {
            return Some(Hit(Entry(Package, packageFile), Some(packageFolder)));
          }
        }
      }
      i := i + 1;
    }
    return None;
  }
}
