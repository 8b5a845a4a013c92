/**
 * The filesystem as the resolver sees it: the set of paths that exist, and
 * for each Python file the import statements its syntax tree holds. This
 * stands for `os.path.exists`, `open(...).read()` and `ast.parse`.
 */
module Files {
  import opened Paths
  import opened Imports

  datatype Fs = Fs(present: set<Path>, sources: map<Path, seq<ImportStmt>>)
  {
    /** The import statements of the file at `p` (none when nothing is recorded for it). */
    function Read(p: Path): seq<ImportStmt>
    {
      if p in sources then sources[p] else []
    }
  }

  /** The package marker file. */
  const INIT_FILE := "__init__.py"
}
