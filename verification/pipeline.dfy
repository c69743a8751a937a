/** The whole run over a snapshot of the repository tree: every category is
    scanned with `readMetadata` as the tool loader. */
module Pipeline {
  import opened Wrappers
  import opened Categories
  import opened Entries
  import opened Loader
  import opened Scanner
  import opened Manifest

  /** The tree the run observes: the listing of each existing category directory,
      and each tool directory keyed by category and directory name. A listed
      directory without a snapshot has no readable `metadata.json`. */
  datatype Snapshot = Snapshot(listings: map<Category, seq<DirEntry>>, tools: map<(Category, string), ToolDir>)

  function DirsOf(s: Snapshot): CategoryDirs {
    c => if c in s.listings then Listing(s.listings[c]) else Missing
  }

  function LoadersOf(s: Snapshot): Loaders {
    c => name => if (c, name) in s.tools then ReadMetadata(s.tools[(c, name)]) else Err(Unreadable)
  }

  function Run(s: Snapshot, generatedAt: string): Result<Manifest, ScanError> {
    GenerateManifest(DirsOf(s), LoadersOf(s), generatedAt)
  }

  /** An entry produced by a successful scan was loaded from a visible tool
      directory of that category. */
  lemma ScannedEntryLoaded(s: Snapshot, c: Category, e: Entry)
    ensures Scan(c, DirsOf(s)(c), LoadersOf(s)(c)).Ok? && e in Scan(c, DirsOf(s)(c), LoadersOf(s)(c)).value ==>
              exists name :: c in s.listings && name in Candidates(s.listings[c])
                && (c, name) in s.tools && ReadMetadata(s.tools[(c, name)]) == Ok(e)
  {
    var load := LoadersOf(s)(c);
    var r := Scan(c, DirsOf(s)(c), load);
    if r.Ok? && e in r.value {
      assert c in s.listings;
      var names := Candidates(s.listings[c]);
      assert r == LoadAll(c, names, load);
      LoadAllSucceeds(c, names, load);
      var i :| 0 <= i < |r.value| && r.value[i] == e;
      var name := names[i];
      assert name in names;
      assert load(name) == Ok(e);
      assert (c, name) in s.tools;
    }
  }

  /** No partial or unchecked output: every tool in a generated manifest comes
      from a visible tool directory whose descriptor validated and whose
      declared files exist. */
  lemma ManifestToolsValid(s: Snapshot, generatedAt: string, e: Entry)
    ensures Run(s, generatedAt).Ok? && e in Run(s, generatedAt).value.tools ==>
              exists c, name :: c in s.listings && name in Candidates(s.listings[c])
                && (c, name) in s.tools && ReadMetadata(s.tools[(c, name)]) == Ok(e)
  {
    if Run(s, generatedAt).Ok? && e in Run(s, generatedAt).value.tools {
      var c, name := ToolSource(s, generatedAt, e);
    }
  }

  lemma ToolSource(s: Snapshot, generatedAt: string, e: Entry) returns (c: Category, name: string)
    requires Run(s, generatedAt).Ok? && e in Run(s, generatedAt).value.tools
    ensures c in s.listings && name in Candidates(s.listings[c])
    ensures (c, name) in s.tools && ReadMetadata(s.tools[(c, name)]) == Ok(e)
  {
    c := ManifestEntryScanned(DirsOf(s), LoadersOf(s), generatedAt, e);
    ScannedEntryLoaded(s, c, e);
    name :| c in s.listings && name in Candidates(s.listings[c])
           && (c, name) in s.tools && ReadMetadata(s.tools[(c, name)]) == Ok(e);
  }
}
