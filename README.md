# Brython module finder: a verified model of the import resolver

`scripts/find_modules.py` lists the Python modules and packages that a Brython
page needs. It collects the page's `<script type="text/python">` sources. It
lists their imports. It looks each imported name up in an ordered list of
folders. It then does the same, recursively, for every Python file it finds.
The results are the dictionary `imported` (name -> `('module' | 'package', file)`)
and the set `not_found`.

This project models that resolver in Dafny and proves properties of it:

- `Lookup` is the lookup over the search roots. Roots are `www/src/Lib`,
  `www/src/libs` (for `.js` files), the origin passed to `find_modules` (a
  found file's folder, or a top-level script's own file path), and
  `libs` once more. It is a pure function `Locate` plus the looping method
  `LocateModule` proved equal to it.
- `Resolution` holds `resolve_import`, `resolve_import_from` and
  `find_modules` as functions from the finder's state before a call to its
  state after.
- `Finder.ScriptsFinder` is the class. Its methods update `imported`,
  `notFound`, the script-id `counter`, the `python` flag and `scripts` in
  place, and each is proved to end in the state the `Resolution` function
  describes.
- `Imports.ImportLister` is the class that fills the name -> from-module
  dictionary.
- `ScriptTags` is the attribute scan and the script-id numbering of
  `handle_starttag`.
- `Dicts` models a Python dictionary: iteration follows first insertion, and
  reassigning a key keeps its place. The order in which `find_modules` resolves
  names depends on this.
- `Scenarios` works out the results in full on small concrete file trees.

The filesystem is a set of existing paths plus, per Python file, the import
statements of its syntax tree (`Files.Fs`). Paths are sequences of segments.

Behaviour of the code that the model keeps, and that its lemmas show:

- The fourth root is `paths[1]`, which is `js_path` again, so `site-packages`
  is never searched (`Lookup.FourthRootRedundant`).
- A `.js` hit is recorded as `'module'` and is not scanned.
- For a dotted name only the full name is recorded. The packages passed
  through are not (`Scenarios.DottedImportRecordsOnlyTheLeaf`).
- `resolve_import_from` records a submodule under the bare name without
  consulting the memo. So a name can be both in `imported` and in `not_found`
  (`Scenarios.NotFoundThenImported`). What does hold is `Resolution.Grows`:
  nothing is ever removed, and a name newly put in `not_found` was not
  imported before.
- `resolve_import_from` has no memo check, so a module that imports itself
  through its package is scanned without end
  (`Scenarios.FromImportCycleNeverEnds`). The model bounds the recursion with
  `fuel`. A scan cut off by it sets `truncated`. `Resolution.ResolveFuel`
  shows that more fuel changes nothing when a run was not cut off.
- Top-level scripts are resolved with the page's own file path (or the
  external script's file path) as the third root, not with its folder.
  `Lookup.NothingBelowNeverHits` shows that such a root finds nothing when
  nothing is stored below that path.

## Model

| member | source | states |
|---|---|---|
| `Paths.Split` | scripts/find_modules.py:134 | `name.split('.')` has at least one part and no part holds a dot |
| `Paths.JoinSplit` | scripts/find_modules.py:134 | joining the parts of `name.split('.')` with dots gives back `name` |
| `Paths.SplitJoin` | scripts/find_modules.py:134 | segments without dots, joined by dots, split back into the same segments, so `elts` are the dotted segments |
| `Paths.LowerMatches` | scripts/find_modules.py:84-85 | comparing `value.lower()` with a lower-case string is the same as comparing the two up to ASCII letter case |
| `Paths.NatToString` | scripts/find_modules.py:100 | `'{}'.format(counter)` gives decimal digits with no leading zero that read back, most significant first, as the counter |
| `Paths.NatToStringInjective` | scripts/find_modules.py:100 | different counters format to different decimal strings |
| `Imports.PutAllLookup` | scripts/find_modules.py:42-43 | after `imports[n] = v` for all listed names, listed names map to `v`, other names keep their values, and earlier keys keep their places |
| `Imports.VisitAllBinding` | scripts/find_modules.py:41-49 | a name is listed iff some statement imports it (or it was listed before), and its value comes from the last statement that imports it: None for `import`, the module for `from M import` |
| `Imports.ListedBinding` | scripts/find_modules.py:41-49 | the lister's dictionary for a whole source maps each name to the module of the last statement importing it |
| `Imports.VisitAllKeepsOrder` | scripts/find_modules.py:41-49 | names listed earlier keep their position when later statements overwrite them |
| `Imports.ImportLister.constructor` | scripts/find_modules.py:37-39 | the lister starts with an empty dictionary |
| `Imports.ImportLister.VisitImport` | scripts/find_modules.py:41-44 | every name of an `import` statement is set to None in place |
| `Imports.ImportLister.VisitImportFrom` | scripts/find_modules.py:46-49 | every name of a `from M import` statement is set to `M` in place; aliases are ignored |
| `Imports.ImportLister.Visit` | scripts/find_modules.py:120-121 | visiting the statements in tree-walk order leaves the dictionary the reference fold gives |
| `Lookup.Leaf` | scripts/find_modules.py:149-167 | in the folder reached, `last.py` wins and is `('module', dir/last.py)` scanned from `dir`; otherwise `last/__init__.py` is `('package', dir/last/__init__.py)` scanned from `dir/last`; with neither there is no hit |
| `Lookup.LeafShape` | scripts/find_modules.py:152-166 | a leaf module hit records the file `last.py`; a leaf package hit records `last/__init__.py` and is scanned from the folder `last` |
| `Lookup.DescendSpec` | scripts/find_modules.py:142-147 | the package descent succeeds iff every folder on the way has an `__init__.py`, and then ends in `base/s0/.../s(k-1)` |
| `Lookup.HierarchicalLookup` | scripts/find_modules.py:142-167 | a Python root is usable for `s0.….sk` only when `s0` … `s(k-1)` are packages under it; then the leaf lookup decides, else the root misses |
| `Lookup.LocateFirstHit` | scripts/find_modules.py:135-167 | the lookup returns root `i`'s hit when every earlier root misses, and returns nothing iff every root misses |
| `Lookup.LocateFound` | scripts/find_modules.py:135-167 | any hit returned is the hit of some root whose predecessors all missed |
| `Lookup.FourthRootRedundant` | scripts/find_modules.py:135-141 | the root list `[Lib, libs, origin passed to find_modules, paths[1]]` finds exactly what its first three roots find, because `paths[1]` is `js_path` |
| `Lookup.HitShape` | scripts/find_modules.py:136-166 | a `.js` hit is `('module', libs/name.js)` and is not scanned; a Python hit exists and is scanned from the folder holding it; a Python module is the file `last.py` and a package is `last/__init__.py` scanned from `last`, `last` being the final dotted segment |
| `Lookup.NothingBelowNeverHits` | scripts/find_modules.py:142-167 | a Python root with nothing stored below it (a file path passed as origin) never hits |
| `Lookup.LocateModule` | scripts/find_modules.py:134-167 | the loop over the roots, with the `for … else` package descent, returns the first root's hit, or nothing |
| `Resolution.ScanFile` | scripts/find_modules.py:155-156 | scanning a found file looks up every import the file lists, never removes a result, and adds to `not_found` only names that were not imported; with no fuel left, only `truncated` is set |
| `Resolution.Resolve` | scripts/find_modules.py:128-168 | a name already imported or not found leaves the state unchanged; afterwards the name is imported or not found, and a fresh name is in exactly one of the two; nothing is removed |
| `Resolution.ResolveFrom` | scripts/find_modules.py:170-204 | afterwards the from-module is imported or not found; nothing is removed, and names newly marked not found were not imported |
| `Resolution.FindAll` | scripts/find_modules.py:122-126 | after the loop, every listed name (for `import n`) or from-module (for `from M import n`) is imported or not found; the results only grow |
| `Resolution.FindModules` | scripts/find_modules.py:118-126 | every entry of the lister's dictionary is looked up: its name or its from-module ends imported or not found; the results only grow |
| `Resolution.FindModulesLooksUpEveryImport` | scripts/find_modules.py:118-126 | for every name imported in the source, the name (when its last import is `import n`) or the module `M` (when it is `from M import n`) is imported or not found afterwards |
| `Resolution.FindScripts` | scripts/find_modules.py:70-71 | after the loop over the collected scripts, every import of every script is looked up; the results only grow |
| `Resolution.ResolveOutcome` | scripts/find_modules.py:131-168 | for a fresh name: a miss adds it to `not_found` only; a `.js` hit records `('module', libs/name.js)` and nothing else; a Python hit is recorded before its file is scanned, so a re-entrant `import` of that name inside the scan changes nothing |
| `Resolution.ResolveIdempotent` | scripts/find_modules.py:131-132 | resolving a name a second time, from any origin, changes nothing |
| `Resolution.ResolveFromUnresolved` | scripts/find_modules.py:174-179 | if the from-module is not imported afterwards, the only change is that module added to `not_found`; `name` is neither imported nor marked not found |
| `Resolution.ResolveFromFound` | scripts/find_modules.py:181-204 | a `'module'` source (a `.js` one included) changes nothing more; a `'package'` source is searched in the folder of its `__init__.py`, `name.py` before `name/__init__.py`, and a hit is recorded under the bare key `name` and scanned; a miss changes nothing more |
| `Resolution.ResolveFuel` | scripts/find_modules.py:154-167 | when `resolve_import` was not cut off, any larger fuel gives the same state |
| `Resolution.ScanFileFuel` | scripts/find_modules.py:155-156 | the same for the scan of one found file |
| `Resolution.ResolveFromFuel` | scripts/find_modules.py:187-197 | the same for `resolve_import_from` |
| `Resolution.FindAllFuel` | scripts/find_modules.py:122-126 | the same for the loop of `find_modules` |
| `ScriptTags.ScanAttrs` | scripts/find_modules.py:83-90 | the attribute loop raises iff some `type` attribute has no value; otherwise `python` says whether some `type` is `text/python(3)`, and `src` and `_id` hold the last such attribute's value |
| `ScriptTags.IsPythonTypeIgnoresCase` | scripts/find_modules.py:84-85 | the type test accepts exactly `text/python` and `text/python3` in any ASCII letter case |
| `ScriptTags.AssignId` | scripts/find_modules.py:92-101 | an explicit id is used as is and leaves the counter alone; otherwise the script gets the unnamed id numbered by the counter, and the counter advances by one |
| `ScriptTags.UnnamedIdInjective` | scripts/find_modules.py:96-101 | `__main__`, `__main__1`, `__main__2`, … are all different |
| `ScriptTags.AssignAllNumbering` | scripts/find_modules.py:92-101 | on a page, a tag with an id keeps it, and the k-th tag without one (from 0) gets `__main__` for k = 0 and `__main__k` after; explicit ids never advance the numbering |
| `ScriptTags.UnnamedIdsDistinct` | scripts/find_modules.py:92-101 | two different Python tags without an id never get the same id |
| `Finder.ScriptsFinder.constructor` | scripts/find_modules.py:54-64 | the finder starts with no scripts, the flag down, no counter, and empty results |
| `Finder.ScriptsFinder.HandleStartTag` | scripts/find_modules.py:73-110 | non-script and non-Python tags change nothing; a Python tag takes its id from `AssignId`; without a usable `src` it raises the data flag; with one, the file `folder/src` is stored under the id; a valueless `type` attribute raises, with nothing changed |
| `Finder.ScriptsFinder.HandleData` | scripts/find_modules.py:112-115 | text after a pending inline Python tag is stored under the current id with the page path; the flag is lowered by any text |
| `Finder.ScriptsFinder.FindAllScripts` | scripts/find_modules.py:70-71 | the collected scripts are resolved in dictionary order, ending in the `FindScripts` state |
| `Finder.ScriptsFinder.FindModules` | scripts/find_modules.py:118-126 | the lister is filled, then `resolve_import` or `resolve_import_from` runs for each listed name in dictionary order; the end state is `Resolution.FindModules` |
| `Finder.ScriptsFinder.ResolveImport` | scripts/find_modules.py:128-168 | the end state in place is `Resolution.Resolve` of the old one |
| `Finder.ScriptsFinder.ResolveImportFrom` | scripts/find_modules.py:170-204 | the end state in place is `Resolution.ResolveFrom` of the old one |
| `Finder.ScriptsFinder.ScanFile` | scripts/find_modules.py:155-156 | reading a found file and resolving its imports from its folder ends in `Resolution.ScanFile` |
| `Scenarios.DottedImportRecordsOnlyTheLeaf` | scripts/find_modules.py:142-157 | `import foo.bar` with `Lib/foo/__init__.py` and `Lib/foo/bar.py` records only `foo.bar`, as a module |
| `Scenarios.SymbolFromPackageIgnored` | scripts/find_modules.py:198-200 | `from pkg import helper` with no `helper` file records `pkg` only: `helper` is in neither result |
| `Scenarios.LibShadowsJs` | scripts/find_modules.py:135-141 | a package in `Lib` wins over a `.js` file of the same name in `libs` |
| `Scenarios.NotFoundThenImported` | scripts/find_modules.py:187-188 | a name missed by `import x` and then found by `from p import x` is in both `imported` and `not_found` |
| `Scenarios.FromImportCycleNeverEnds` | scripts/find_modules.py:170-197 | `pkg/x.py` containing `from pkg import x` is rescanned without end: any fuel runs out |

## Left out

- HTML tokenising (`feed` and the rest of `html.parser.HTMLParser`, lines 66-68): the model starts at the callbacks. The caller invokes `HandleStartTag` and `HandleData` in document order, then `FindAllScripts`.
- `ast.parse` and `ast.NodeVisitor.generic_visit`: a source is represented by its import statements in tree-walk order (`Imports.ImportStmt`). Alias names and the relative-import level are dropped, because the lister never reads them.
- File reading and its failures (`open`, `.read()`, UTF-8 decoding, a `SyntaxError` from `ast.parse`, a missing external script): in Python these raise and end the run. The model has no such failures. A file with no recorded statements reads as having no imports.
- `os.path.join`, `exists` and `dirname`: paths are segment sequences and existence is set membership. `os.path.join` drops empty components and restarts at absolute ones. Neither is modelled, so an `src` such as `/a.py` keeps its empty first segment.
- The roots computed from `os.getcwd()` (lines 22-28): `Lib` and `libs` are the parameters `Env.lib` and `Env.js`.
- `str.lower` is modelled on ASCII letters only. No other character lowers to one of the letters of `text/python3`, so the type test is unaffected.
- Resolution.ScanFile: the recursion into found files is bounded by `fuel`, and a scan cut off sets `truncated`. The Python code recurses without bound, and on a from-import cycle it recurses until Python's own recursion limit raises.
- The `print` at line 133 and the `__main__` block at lines 206-216: output only.
- Finder.ScriptsFinder.HandleStartTag: a valueless `type` attribute raises `AttributeError` in Python, which ends the constructor (no further parsing, no `find_modules`). The model reports it as `ok == false` and leaves stopping to the caller.
- The return values of `resolve_import` and `resolve_import_from` (a file name or None): no caller uses them.
