/**
 * The import statements of one Python source, and `ImportLister`, which turns
 * them into the dictionary `name -> module it is imported from` (None for a
 * plain `import`).
 */
module Imports {
  import opened Options
  import opened Dicts

  /**
   * One import statement as the syntax tree gives it; aliases (`as y`) are
   * dropped because the lister never reads them. `fromModule` is None for a
   * relative `from . import x`, whose tree node has no module name.
   */
  datatype ImportStmt =
    | Import(names: seq<string>)
    | ImportFrom(fromModule: Option<string>, names: seq<string>)

  /** What `ImportLister.imports` holds: imported name -> module it comes from. */
  type Listing = Dict<string, Option<string>>

  /** The value the lister stores for the names of `s`. */
  function Source(s: ImportStmt): Option<string>
  {
    match s
    case Import(_) => None
    case ImportFrom(m, _) => m
  }

  /** `for n in names: imports[n] = v` */
  function PutAll(d: Listing, names: seq<string>, v: Option<string>): (r: Listing)
    requires d.Valid()
    ensures r.Valid()
    decreases |names|
  {
    if names == [] then d else PutAll(d.Put(names[0], v), names[1..], v)
  }

  /** `visit_Import` / `visit_ImportFrom` on one statement. */
  function Visit(d: Listing, s: ImportStmt): (r: Listing)
    requires d.Valid()
    ensures r.Valid()
  {
    PutAll(d, s.names, Source(s))
  }

  /** Visiting the statements in the order the tree walk meets them. */
  function VisitAll(d: Listing, stmts: seq<ImportStmt>): (r: Listing)
    requires d.Valid()
    ensures r.Valid()
    decreases |stmts|
  {
    if stmts == [] then d else VisitAll(Visit(d, stmts[0]), stmts[1..])
  }

  /** `ImportLister().visit(tree).imports` for a tree holding `stmts`. */
  function Listed(stmts: seq<ImportStmt>): (r: Listing)
    ensures r.Valid()
  {
    VisitAll(Empty(), stmts)
  }

  /**
   * Reference definition: the value of `n` is decided by the LAST statement
   * that names it; None when no statement does.
   */
  function LastBinding(stmts: seq<ImportStmt>, n: string): Option<Option<string>>
    decreases |stmts|
  {
    if stmts == [] then None
    else
      var s := stmts[|stmts| - 1];
      if n in s.names then Some(Source(s)) else LastBinding(stmts[..|stmts| - 1], n)
  }

  /** Assigning the same value to several names: listed names get it, others keep theirs, old keys keep their places. */
  lemma {:induction false} PutAllLookup(d: Listing, names: seq<string>, v: Option<string>, n: string)
    requires d.Valid()
    ensures var r := PutAll(d, names, v);
      && (n in r.values <==> n in d.values || n in names)
      && (n in names ==> r.values[n] == v)
      && (n !in names && n in d.values ==> r.values[n] == d.values[n])
      && |d.keys| <= |r.keys| && r.keys[..|d.keys|] == d.keys
    decreases |names|
  {
    if names != [] {
      var d' := d.Put(names[0], v);
      PutAllLookup(d', names[1..], v, n);
      assert n in names <==> n == names[0] || n in names[1..];
      var r := PutAll(d', names[1..], v);
      assert r.keys[..|d.keys|] == r.keys[..|d'.keys|][..|d.keys|];
    }
  }

  lemma {:induction false} VisitAllSnoc(d: Listing, stmts: seq<ImportStmt>, s: ImportStmt)
    requires d.Valid()
    ensures VisitAll(d, stmts + [s]) == Visit(VisitAll(d, stmts), s)
    decreases |stmts|
  {
    if stmts == [] {
      assert [s][1..] == [];
    } else {
      assert (stmts + [s])[1..] == stmts[1..] + [s];
      VisitAllSnoc(Visit(d, stmts[0]), stmts[1..], s);
    }
  }

  /**
   * What the lister builds: a name is listed iff some statement names it (or
   * it was listed before), and its value comes from the last statement naming
   * it, so a later record overwrites an earlier one.
   */
  lemma {:induction false} VisitAllBinding(d: Listing, stmts: seq<ImportStmt>, n: string)
    requires d.Valid()
    ensures var r := VisitAll(d, stmts);
      && (n in r.values <==> n in d.values || LastBinding(stmts, n).Some?)
      && (LastBinding(stmts, n).Some? ==> r.values[n] == LastBinding(stmts, n).value)
      && (LastBinding(stmts, n).None? && n in d.values ==> r.values[n] == d.values[n])
    decreases |stmts|
  {
    if stmts != [] {
      var init, s := stmts[..|stmts| - 1], stmts[|stmts| - 1];
      assert stmts == init + [s];
      VisitAllSnoc(d, init, s);
      VisitAllBinding(d, init, n);
      PutAllLookup(VisitAll(d, init), s.names, Source(s), n);
    }
  }

  /** The listing of a whole source: name -> module of the last statement that imports it. */
  lemma ListedBinding(stmts: seq<ImportStmt>, n: string)
    ensures n in Listed(stmts).values <==> LastBinding(stmts, n).Some?
    ensures LastBinding(stmts, n).Some? ==> Listed(stmts).values[n] == LastBinding(stmts, n).value
  {
    VisitAllBinding(Empty(), stmts, n);
  }

  /** Keys listed earlier keep their places: iteration follows first insertion. */
  lemma {:induction false} VisitAllKeepsOrder(d: Listing, stmts: seq<ImportStmt>)
    requires d.Valid()
    ensures |d.keys| <= |VisitAll(d, stmts).keys|
    ensures VisitAll(d, stmts).keys[..|d.keys|] == d.keys
    decreases |stmts|
  {
    if stmts != [] {
      var d' := Visit(d, stmts[0]);
      PutAllLookup(d, stmts[0].names, Source(stmts[0]), "");
      VisitAllKeepsOrder(d', stmts[1..]);
      var r := VisitAll(d', stmts[1..]);
      assert r.keys[..|d.keys|] == r.keys[..|d'.keys|][..|d.keys|];
    }
  }

  /** `ImportLister`: fills its `imports` dictionary in place while the tree is walked. */
  class ImportLister {
    var imports: Listing

    ghost predicate Valid()
      reads this
    {
      imports.Valid()
    }

    constructor()
      ensures Valid() && imports == Empty()
    {
      imports := Empty();
    }

    /** `visit_Import`: every imported name maps to None. */
    method VisitImport(names: seq<string>)
      requires Valid()
      modifies this
      ensures Valid() && imports == PutAll(old(imports), names, None)
    {
      for i := 0 to |names|
        invariant Valid()
        invariant PutAll(old(imports), names, None) == PutAll(imports, names[i..], None)
      {
        assert names[i..][1..] == names[i + 1..];
        imports := imports.Put(names[i], None);
      }
    }

    /** `visit_ImportFrom`: every imported name maps to the statement's module. */
    method VisitImportFrom(fromModule: Option<string>, names: seq<string>)
      requires Valid()
      modifies this
      ensures Valid() && imports == PutAll(old(imports), names, fromModule)
    {
      for i := 0 to |names|
        invariant Valid()
        invariant PutAll(old(imports), names, fromModule) == PutAll(imports, names[i..], fromModule)
      {
        assert names[i..][1..] == names[i + 1..];
        imports := imports.Put(names[i], fromModule);
      }
    }

    /** `visit(tree)`: the statements in tree-walk order, each dispatched by kind. */
    method Visit(stmts: seq<ImportStmt>)
      requires Valid()
      modifies this
      ensures Valid() && imports == VisitAll(old(imports), stmts)
    {
      for i := 0 to |stmts|
        invariant Valid()
        invariant VisitAll(old(imports), stmts) == VisitAll(imports, stmts[i..])
      {
        assert stmts[i..][1..] == stmts[i + 1..];
        match stmts[i]
        case Import(names) => VisitImport(names);
        case ImportFrom(m, names) => VisitImportFrom(m, names);
      }
    }
  }
}
