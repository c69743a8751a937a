/** `generateManifest`: scan the four categories in declared order, concatenate
    their entries, record per-category counts and sort the combined list. The
    clock and the final write are left to the caller. */
module Manifest {
  import opened Wrappers
  import opened Categories
  import opened Entries
  import opened Ordering
  import opened Scanner

  /** The document-format version, independent of any tool's version. */
  const FormatVersion: string := "1.0.0"

  datatype Counts = Counts(hooks: nat, skills: nat, agents: nat, slashCommands: nat) {
    function Get(c: Category): nat {
      match c
      case Hooks => hooks
      case Skills => skills
      case Agents => agents
      case SlashCommands => slashCommands
    }

    function Total(): nat {
      hooks + skills + agents + slashCommands
    }
  }

  datatype Manifest = Manifest(version: string, generatedAt: string, totalTools: nat, tools: seq<Entry>, categories: Counts)

  /** The document invariant: the total, the tool list and the counts agree,
      and the tools are in manifest order. */
  predicate Consistent(m: Manifest) {
    && m.version == FormatVersion
    && m.totalTools == |m.tools|
    && m.categories.Total() == m.totalTools
    && Sorted(m.tools)
  }

  /** Where each category's directory stands and how its tools load. */
  type CategoryDirs = Category -> CategoryDir
  type Loaders = Category -> ToolLoader

  function Flatten(parts: seq<seq<Entry>>): seq<Entry> {
    if |parts| == 0 then [] else Flatten(parts[..|parts| - 1]) + parts[|parts| - 1]
  }

  lemma FlattenFour(parts: seq<seq<Entry>>)
    requires |parts| == 4
    ensures Flatten(parts) == parts[0] + parts[1] + parts[2] + parts[3]
  {
    assert parts[..3][..2] == parts[..2];
    assert parts[..2][..1] == parts[..1];
    assert parts[..1][..0] == [];
    assert Flatten(parts[..1]) == parts[0];
    assert Flatten(parts[..2]) == parts[0] + parts[1];
    assert Flatten(parts[..3]) == parts[0] + parts[1] + parts[2];
  }

  /** Every category's scan succeeds exactly when the four scans in declared order do. */
  lemma EveryScanOk(dirs: CategoryDirs, load: Loaders)
    ensures (forall c :: Scan(c, dirs(c), load(c)).Ok?) <==>
              && Scan(Hooks, dirs(Hooks), load(Hooks)).Ok?
              && Scan(Skills, dirs(Skills), load(Skills)).Ok?
              && Scan(Agents, dirs(Agents), load(Agents)).Ok?
              && Scan(SlashCommands, dirs(SlashCommands), load(SlashCommands)).Ok?
  {
    if && Scan(Hooks, dirs(Hooks), load(Hooks)).Ok?
       && Scan(Skills, dirs(Skills), load(Skills)).Ok?
       && Scan(Agents, dirs(Agents), load(Agents)).Ok?
       && Scan(SlashCommands, dirs(SlashCommands), load(SlashCommands)).Ok?
    {
      forall c
        ensures Scan(c, dirs(c), load(c)).Ok?
      {
        match c
        case Hooks =>
        case Skills =>
        case Agents =>
        case SlashCommands =>
      }
    }
  }

  /** The four scan results, in declared order. */
  function Results(dirs: CategoryDirs, load: Loaders): (parts: seq<seq<Entry>>)
    requires forall c :: Scan(c, dirs(c), load(c)).Ok?
    ensures |parts| == 4
  {
    [Scan(Hooks, dirs(Hooks), load(Hooks)).value,
     Scan(Skills, dirs(Skills), load(Skills)).value,
     Scan(Agents, dirs(Agents), load(Agents)).value,
     Scan(SlashCommands, dirs(SlashCommands), load(SlashCommands)).value]
  }

  lemma ResultsByIndex(dirs: CategoryDirs, load: Loaders)
    requires forall c :: Scan(c, dirs(c), load(c)).Ok?
    ensures forall c :: Results(dirs, load)[Index(c)] == Scan(c, dirs(c), load(c)).value
  {
    forall c
      ensures Results(dirs, load)[Index(c)] == Scan(c, dirs(c), load(c)).value
    {
      match c
      case Hooks =>
      case Skills =>
      case Agents =>
      case SlashCommands =>
    }
  }

  /** All tools in scan order (`allTools` before sorting). */
  function Combined(dirs: CategoryDirs, load: Loaders): seq<Entry>
    requires forall c :: Scan(c, dirs(c), load(c)).Ok?
  {
    var parts := Results(dirs, load);
    parts[0] + parts[1] + parts[2] + parts[3]
  }

  /** Sorting, counting and assembling the document from the four category results. */
  function Assemble(parts: seq<seq<Entry>>, generatedAt: string): (m: Manifest)
    requires |parts| == 4
    ensures Consistent(m) && m.generatedAt == generatedAt
    ensures forall c :: m.categories.Get(c) == |parts[Index(c)]|
    ensures multiset(m.tools) == multiset(parts[0] + parts[1] + parts[2] + parts[3])
    ensures forall k :: Tied(m.tools, k) == Tied(parts[0] + parts[1] + parts[2] + parts[3], k)
  {
    FlattenFour(parts);
    var tools := Sort(Flatten(parts));
    forall k
      ensures Tied(tools, k) == Tied(Flatten(parts), k)
    {
      SortStable(Flatten(parts), k);
    }
    Manifest(FormatVersion, generatedAt, |tools|, tools, Counts(|parts[0]|, |parts[1]|, |parts[2]|, |parts[3]|))
  }

  /** The scan loop (stopping at the first category whose scan fails), then
      sorting, counting and assembling. */
  function GenerateManifest(dirs: CategoryDirs, load: Loaders, generatedAt: string): (r: Result<Manifest, ScanError>)
    ensures r.Ok? <==> forall c :: Scan(c, dirs(c), load(c)).Ok?
    ensures r.Ok? ==> Consistent(r.value) && r.value.generatedAt == generatedAt
    ensures r.Ok? ==> forall c :: r.value.categories.Get(c) == |Scan(c, dirs(c), load(c)).value|
    ensures r.Ok? ==> multiset(r.value.tools) == multiset(Combined(dirs, load))
    ensures r.Err? ==>
              exists c :: Scan(c, dirs(c), load(c)) == Err(r.error)
                && forall d :: Index(d) < Index(c) ==> Scan(d, dirs(d), load(d)).Ok?
  {
    EveryScanOk(dirs, load);
    var hooks :- Scan(Hooks, dirs(Hooks), load(Hooks));
    var skills :- Scan(Skills, dirs(Skills), load(Skills));
    var agents :- Scan(Agents, dirs(Agents), load(Agents));
    var commands :- Scan(SlashCommands, dirs(SlashCommands), load(SlashCommands));
    ResultsByIndex(dirs, load);
    Ok(Assemble([hooks, skills, agents, commands], generatedAt))
  }

  /** A successful run is the document assembled from the four scan results. */
  lemma GeneratedIsAssembled(dirs: CategoryDirs, load: Loaders, generatedAt: string)
    ensures GenerateManifest(dirs, load, generatedAt).Ok? ==>
              GenerateManifest(dirs, load, generatedAt).value == Assemble(Results(dirs, load), generatedAt)
  {
  }

  /** Every tool in a generated manifest was produced by some category's scan. */
  lemma ManifestEntryScanned(dirs: CategoryDirs, load: Loaders, generatedAt: string, e: Entry) returns (c: Category)
    requires GenerateManifest(dirs, load, generatedAt).Ok?
    requires e in GenerateManifest(dirs, load, generatedAt).value.tools
    ensures Scan(c, dirs(c), load(c)).Ok? && e in Scan(c, dirs(c), load(c)).value
  {
    var m := GenerateManifest(dirs, load, generatedAt).value;
    assert e in multiset(m.tools);
    var parts := Results(dirs, load);
    assert e in multiset(parts[0] + parts[1] + parts[2] + parts[3]);
    assert e in parts[0] + parts[1] + parts[2] + parts[3];
    if e in parts[0] {
      c := Hooks;
    } else if e in parts[1] {
      c := Skills;
    } else if e in parts[2] {
      c := Agents;
    } else {
      c := SlashCommands;
    }
  }

  /** Tied entries keep their scan order in the manifest. */
  lemma ManifestStable(dirs: CategoryDirs, load: Loaders, generatedAt: string, k: Entry)
    ensures GenerateManifest(dirs, load, generatedAt).Ok? ==>
              Tied(GenerateManifest(dirs, load, generatedAt).value.tools, k) == Tied(Combined(dirs, load), k)
  {
  }

  /** A missing category contributes zero entries and does not fail the run. */
  lemma MissingCategoryCountsZero(dirs: CategoryDirs, load: Loaders, generatedAt: string, c: Category)
    ensures dirs(c).Missing? && GenerateManifest(dirs, load, generatedAt).Ok? ==>
              GenerateManifest(dirs, load, generatedAt).value.categories.Get(c) == 0
  {
  }
}
