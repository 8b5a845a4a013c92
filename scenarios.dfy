/**
 * Concrete filesystems on which the resolver's behaviour is worked out in
 * full: what the code records for a dotted name, for a symbol imported from
 * a package, for a name found in both `Lib` and `libs`, for a name that is
 * first missed and then found through a from-import, and for a from-import
 * cycle.
 */
module Scenarios {
  import opened Options
  import opened Paths
  import opened Dicts
  import opened Imports
  import opened Files
  import opened Lookup
  import opened Resolution

  const LIB: Path := ["www", "src", "Lib"]
  const JS: Path := ["www", "src", "libs"]
  const PAGE_DIR: Path := ["www", "gallery"]

  function Site(present: set<Path>, sources: map<Path, seq<ImportStmt>>): Env
  {
    Env(Fs(present, sources), LIB, JS)
  }

  lemma SplitDotted(a: string, b: string)
    requires '.' !in a && '.' !in b
    ensures Split(a + "." + b, '.') == [a, b]
  {
    SplitJoin([a, b], '.');
    assert Join([a, b], '.') == a + "." + b;
  }

  lemma SplitPlain(a: string)
    requires '.' !in a
    ensures Split(a, '.') == [a]
  {
    SplitJoin([a], '.');
  }

  /**
   * `import foo.bar` with `Lib/foo/__init__.py` and `Lib/foo/bar.py`: only
   * `foo.bar` is recorded; the package `foo` it passes through is not.
   */
  lemma DottedImportRecordsOnlyTheLeaf()
    ensures var env := Site({LIB + ["foo", INIT_FILE], LIB + ["foo", "bar.py"]}, map[]);
      Resolve(env, START, PAGE_DIR, "foo.bar", 1)
        == State(map["foo.bar" := Entry(Module, LIB + ["foo", "bar.py"])], {}, false)
  {
    var env := Site({LIB + ["foo", INIT_FILE], LIB + ["foo", "bar.py"]}, map[]);
    SplitDotted("foo", "bar");
    assert "foo" + "." + "bar" == "foo.bar";
    assert LIB + ["foo"] + [INIT_FILE] == LIB + ["foo", INIT_FILE];
    assert Descend(env.fs, LIB, ["foo"]) == Some(LIB + ["foo"]);
    assert "bar" + ".py" == "bar.py";
    assert LIB + ["foo"] + ["bar" + ".py"] == LIB + ["foo", "bar.py"];
    var h := Hit(Entry(Module, LIB + ["foo", "bar.py"]), Some(LIB + ["foo"]));
    assert RootHit(env.fs, Hierarchical(LIB), "foo.bar") == Some(h);
    assert Locate(env.fs, Roots(env, PAGE_DIR), "foo.bar") == Some(h);
    assert Listed([]) == Empty();
  }

  /**
   * `from pkg import helper` where `helper` is defined in `pkg/__init__.py`
   * and is no file: `pkg` is recorded, `helper` is neither imported nor
   * marked as not found.
   */
  lemma SymbolFromPackageIgnored()
    ensures var env := Site({LIB + ["pkg", INIT_FILE]}, map[]);
      ResolveFrom(env, START, PAGE_DIR, "helper", "pkg", 1)
        == State(map["pkg" := Entry(Package, LIB + ["pkg", INIT_FILE])], {}, false)
  {
    var env := Site({LIB + ["pkg", INIT_FILE]}, map[]);
    SplitPlain("pkg");
    assert "pkg" + ".py" == "pkg.py";
    assert LIB + ["pkg" + ".py"] !in env.fs.present;
    var h := Hit(Entry(Package, LIB + ["pkg", INIT_FILE]), Some(LIB + ["pkg"]));
    assert RootHit(env.fs, Hierarchical(LIB), "pkg") == Some(h);
    assert Locate(env.fs, Roots(env, PAGE_DIR), "pkg") == Some(h);
    assert Listed([]) == Empty();
    assert Dirname(LIB + ["pkg", INIT_FILE]) == LIB + ["pkg"];
    assert Leaf(env.fs, LIB + ["pkg"], "helper") == None;
  }

  /** `widget` both as a package in `Lib` and as `libs/widget.js`: `Lib` comes first, so the package wins. */
  lemma LibShadowsJs()
    ensures var env := Site({LIB + ["widget", INIT_FILE], JS + ["widget.js"]}, map[]);
      var r := Resolve(env, START, PAGE_DIR, "widget", 1);
      "widget" in r.imported && r.imported["widget"] == Entry(Package, LIB + ["widget", INIT_FILE])
  {
    var env := Site({LIB + ["widget", INIT_FILE], JS + ["widget.js"]}, map[]);
    SplitPlain("widget");
    assert "widget" + ".py" == "widget.py";
    assert (LIB + ["widget.py"])[3] != (LIB + ["widget", INIT_FILE])[3];
    assert LIB + ["widget" + ".py"] !in env.fs.present;
    var h := Hit(Entry(Package, LIB + ["widget", INIT_FILE]), Some(LIB + ["widget"]));
    assert RootHit(env.fs, Hierarchical(LIB), "widget") == Some(h);
    assert Locate(env.fs, Roots(env, PAGE_DIR), "widget") == Some(h);
    assert Listed([]) == Empty();
  }

  /**
   * `import x` misses, then `from p import x` finds `Lib/p/x.py`: `x` ends up
   * both imported and not found, so the two results are not kept disjoint.
   */
  lemma NotFoundThenImported()
    ensures var env := Site({LIB + ["p", INIT_FILE], LIB + ["p", "x.py"]}, map[]);
      var r := ResolveFrom(env, Resolve(env, START, PAGE_DIR, "x", 1), PAGE_DIR, "x", "p", 1);
      "x" in r.imported && "x" in r.notFound
  {
    var env := Site({LIB + ["p", INIT_FILE], LIB + ["p", "x.py"]}, map[]);
    SplitPlain("x");
    SplitPlain("p");
    assert "x" + ".py" == "x.py";
    assert (LIB + ["x.py"])[3] != (LIB + ["p", INIT_FILE])[3];
    assert LIB + ["x" + ".py"] !in env.fs.present;
    assert (LIB + ["x", INIT_FILE])[3] != (LIB + ["p", INIT_FILE])[3];
    assert LIB + ["x", INIT_FILE] !in env.fs.present;
    assert JS + ["x" + ".js"] !in env.fs.present;
    assert PAGE_DIR + ["x" + ".py"] !in env.fs.present;
    assert PAGE_DIR + ["x", INIT_FILE] !in env.fs.present;
    assert Locate(env.fs, Roots(env, PAGE_DIR), "x") == None;
    var s1 := Resolve(env, START, PAGE_DIR, "x", 1);
    assert s1 == State(map[], {"x"}, false);
    var h := Hit(Entry(Package, LIB + ["p", INIT_FILE]), Some(LIB + ["p"]));
    assert "p" + ".py" == "p.py";
    assert (LIB + ["p.py"])[3] != (LIB + ["p", INIT_FILE])[3];
    assert LIB + ["p" + ".py"] !in env.fs.present;
    assert RootHit(env.fs, Hierarchical(LIB), "p") == Some(h);
    assert Locate(env.fs, Roots(env, PAGE_DIR), "p") == Some(h);
    assert Listed([]) == Empty();
    assert Dirname(LIB + ["p", INIT_FILE]) == LIB + ["p"];
    assert LIB + ["p"] + ["x" + ".py"] == LIB + ["p", "x.py"];
  }

  /** The cycle `Lib/pkg/x.py` containing `from pkg import x`. */
  function Cycle(): Env
  {
    Site({LIB + ["pkg", INIT_FILE], LIB + ["pkg", "x.py"]},
         map[LIB + ["pkg", "x.py"] := [ImportFrom(Some("pkg"), ["x"])]])
  }

  /** One turn of the cycle: `x` is found in `pkg` and recorded, then `pkg/x.py` is scanned. */
  lemma CycleStep(st: State, origin: Path, fuel: nat)
    requires "pkg" in st.imported && st.imported["pkg"] == Entry(Package, LIB + ["pkg", INIT_FILE])
    ensures ResolveFrom(Cycle(), st, origin, "x", "pkg", fuel)
         == ScanFile(Cycle(), st.(imported := st.imported["x" := Entry(Module, LIB + ["pkg", "x.py"])]),
                     LIB + ["pkg", "x.py"], LIB + ["pkg"], fuel)
  {
    var env := Cycle();
    assert Resolve(env, st, origin, "pkg", fuel) == st;
    assert Dirname(LIB + ["pkg", INIT_FILE]) == LIB + ["pkg"];
    assert "x" + ".py" == "x.py";
    assert LIB + ["pkg"] + ["x" + ".py"] == LIB + ["pkg", "x.py"];
  }

  /** `pkg/x.py` lists the single import `from pkg import x`. */
  lemma CycleListing()
    ensures Listed(Cycle().fs.Read(LIB + ["pkg", "x.py"])).Items() == [("x", Some("pkg"))]
  {
    var src := [ImportFrom(Some("pkg"), ["x"])];
    assert Cycle().fs.Read(LIB + ["pkg", "x.py"]) == src;
    assert Listed(src) == Dict(["x"], map["x" := Some("pkg")]);
  }

  /**
   * `resolve_import_from` has no memo check, so the cycle above is scanned
   * again and again: whatever the fuel, the walk runs out of it.
   */
  lemma {:induction false} FromImportCycleNeverEnds(st: State, origin: Path, fuel: nat)
    requires "pkg" in st.imported && st.imported["pkg"] == Entry(Package, LIB + ["pkg", INIT_FILE])
    ensures ResolveFrom(Cycle(), st, origin, "x", "pkg", fuel).truncated
    decreases fuel
  {
    var env := Cycle();
    var dir := LIB + ["pkg"];
    var file := LIB + ["pkg", "x.py"];
    var st1 := st.(imported := st.imported["x" := Entry(Module, file)]);
    CycleStep(st, origin, fuel);
    if fuel > 0 {
      CycleListing();
      FromImportCycleNeverEnds(st1, dir, fuel - 1);
      var items := [("x", Some("pkg"))];
      assert FindAll(env, st1, dir, items, fuel - 1)
          == FindAll(env, ResolveFrom(env, st1, dir, "x", "pkg", fuel - 1), dir, [], fuel - 1);
    }
  }
}
