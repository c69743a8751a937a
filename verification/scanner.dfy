/** `scanCategory`: list a category directory, keep the visible subdirectories,
    load each in listing order, and abort the whole scan on the first failure. */
module Scanner {
  import opened Wrappers
  import opened Entries
  import opened Loader
  import opened Categories

  /** One `fs.readdir(..., { withFileTypes: true })` result. */
  datatype DirEntry = DirEntry(name: string, isDirectory: bool)

  /** A category directory: absent, or present with its listing. */
  datatype CategoryDir = Missing | Listing(entries: seq<DirEntry>)

  /** A tool that failed to load; in the source this ends the process. */
  datatype ScanError = ToolFailed(category: Category, tool: string, reason: LoadFailure)

  /** Loads one tool of the category by directory name. */
  type ToolLoader = string -> Result<Entry, LoadFailure>

  /** `!entry.isDirectory()` and `entry.name.startsWith('.')` both skip. */
  predicate IsCandidate(e: DirEntry) {
    e.isDirectory && !(|e.name| > 0 && e.name[0] == '.')
  }

  /** Names of the candidate entries, in listing order. */
  function Candidates(es: seq<DirEntry>): seq<string> {
    if |es| == 0 then []
    else
      var prev := Candidates(es[..|es| - 1]);
      if IsCandidate(es[|es| - 1]) then prev + [es[|es| - 1].name] else prev
  }

  /** Exactly the visible subdirectories are handed to the loader. */
  lemma {:induction false} CandidatesExactly(es: seq<DirEntry>)
    ensures |Candidates(es)| <= |es|
    ensures forall n :: n in Candidates(es) ==> exists i :: 0 <= i < |es| && es[i].name == n && IsCandidate(es[i])
    ensures forall i :: 0 <= i < |es| && IsCandidate(es[i]) ==> es[i].name in Candidates(es)
  {
    if |es| > 0 {
      CandidatesExactly(es[..|es| - 1]);
      assert forall i :: 0 <= i < |es| - 1 ==> es[..|es| - 1][i] == es[i];
    }
  }

  /** Reference semantics of the load loop: all entries, or the first failure. */
  function LoadAll(c: Category, names: seq<string>, load: ToolLoader): Result<seq<Entry>, ScanError> {
    if |names| == 0 then Ok([])
    else
      match LoadAll(c, names[..|names| - 1], load)
      case Err(e) => Err(e)
      case Ok(ts) =>
        var last := names[|names| - 1];
        match load(last)
        case Err(reason) => Err(ToolFailed(c, last, reason))
        case Ok(t) => Ok(ts + [t])
  }

  /** The load loop succeeds exactly when every candidate loads, and then it
      returns the loaded entries in listing order. */
  lemma {:induction false} LoadAllSucceeds(c: Category, names: seq<string>, load: ToolLoader)
    ensures LoadAll(c, names, load).Ok? <==> forall i :: 0 <= i < |names| ==> load(names[i]).Ok?
    ensures LoadAll(c, names, load).Ok? ==>
              |LoadAll(c, names, load).value| == |names|
              && forall i :: 0 <= i < |names| ==> LoadAll(c, names, load).value[i] == load(names[i]).value
  {
    if |names| > 0 {
      var init := names[..|names| - 1];
      LoadAllSucceeds(c, init, load);
      assert forall i :: 0 <= i < |init| ==> init[i] == names[i];
    }
  }

  /** A failed load loop reports the first failing candidate in listing order,
      with that candidate's own failure; no entries are returned. */
  lemma {:induction false} LoadAllFirstError(c: Category, names: seq<string>, load: ToolLoader)
    requires LoadAll(c, names, load).Err?
    ensures LoadAll(c, names, load).error.category == c
    ensures exists i :: 0 <= i < |names|
              && names[i] == LoadAll(c, names, load).error.tool
              && load(names[i]) == Err(LoadAll(c, names, load).error.reason)
              && forall j :: 0 <= j < i ==> load(names[j]).Ok?
  {
    var init := names[..|names| - 1];
    assert forall i :: 0 <= i < |init| ==> init[i] == names[i];
    if LoadAll(c, init, load).Err? {
      LoadAllFirstError(c, init, load);
      var i :| 0 <= i < |init| && init[i] == LoadAll(c, init, load).error.tool
              && load(init[i]) == Err(LoadAll(c, init, load).error.reason)
              && forall j :: 0 <= j < i ==> load(init[j]).Ok?;
      assert names[i] == init[i];
    } else {
      LoadAllSucceeds(c, init, load);
      assert forall j :: 0 <= j < |names| - 1 ==> load(names[j]).Ok?;
    }
  }

  /** Reference semantics of a whole category scan. */
  function Scan(c: Category, dir: CategoryDir, load: ToolLoader): Result<seq<Entry>, ScanError> {
    match dir
    case Missing => Ok([])
    case Listing(es) => LoadAll(c, Candidates(es), load)
  }

  method ScanCategory(c: Category, dir: CategoryDir, load: ToolLoader) returns (r: Result<seq<Entry>, ScanError>)
    ensures dir.Missing? ==> r == Ok([])
    ensures dir.Listing? ==> r == LoadAll(c, Candidates(dir.entries), load)
  {
    if dir.Missing? {
      return Ok([]);
    }
    var es := dir.entries;
    var tools: seq<Entry> := [];
    var i := 0;
    while i < |es|
      invariant 0 <= i <= |es|
      invariant LoadAll(c, Candidates(es[..i]), load) == Ok(tools)
    {
      ScanStep(c, es, i, tools, load);
      if IsCandidate(es[i]) {
        var loaded := load(es[i].name);
        if loaded.Err? {
          return Err(ToolFailed(c, es[i].name, loaded.error));
        }
        tools := tools + [loaded.value];
      }
      i := i + 1;
    }
    assert es[..i] == es;
    r := Ok(tools);
  }

  lemma {:induction false} CandidatesAppend(a: seq<DirEntry>, b: seq<DirEntry>)
    ensures Candidates(a + b) == Candidates(a) + Candidates(b)
  {
    if |b| > 0 {
      var b' := b[..|b| - 1];
      assert (a + b)[..|a + b| - 1] == a + b';
      CandidatesAppend(a, b');
    } else {
      assert a + b == a;
    }
  }

  /** Once a tool has failed, the tools listed after it change nothing. */
  lemma {:induction false} LoadAllKeepsFirstError(c: Category, names: seq<string>, more: seq<string>, load: ToolLoader)
    requires LoadAll(c, names, load).Err?
    ensures LoadAll(c, names + more, load) == LoadAll(c, names, load)
  {
    if |more| > 0 {
      var more' := more[..|more| - 1];
      assert (names + more)[..|names + more| - 1] == names + more';
      LoadAllKeepsFirstError(c, names, more', load);
    } else {
      assert names + more == names;
    }
  }

  /** One iteration of the scan loop, against the reference semantics. */
  lemma ScanStep(c: Category, es: seq<DirEntry>, i: nat, tools: seq<Entry>, load: ToolLoader)
    requires i < |es| && LoadAll(c, Candidates(es[..i]), load) == Ok(tools)
    ensures !IsCandidate(es[i]) ==> LoadAll(c, Candidates(es[..i + 1]), load) == Ok(tools)
    ensures IsCandidate(es[i]) && load(es[i].name).Ok? ==>
              LoadAll(c, Candidates(es[..i + 1]), load) == Ok(tools + [load(es[i].name).value])
    ensures IsCandidate(es[i]) && load(es[i].name).Err? ==>
              LoadAll(c, Candidates(es), load) == Err(ToolFailed(c, es[i].name, load(es[i].name).error))
  {
    CandidatesStep(es, i);
    if IsCandidate(es[i]) {
      LoadAllStep(c, Candidates(es[..i]), es[i].name, load);
      if load(es[i].name).Err? {
        assert es == es[..i + 1] + es[i + 1..];
        CandidatesAppend(es[..i + 1], es[i + 1..]);
        LoadAllKeepsFirstError(c, Candidates(es[..i + 1]), Candidates(es[i + 1..]), load);
      }
    }
  }

  lemma CandidatesStep(es: seq<DirEntry>, i: nat)
    requires i < |es|
    ensures Candidates(es[..i + 1]) ==
      if IsCandidate(es[i]) then Candidates(es[..i]) + [es[i].name] else Candidates(es[..i])
  {
    assert es[..i + 1][..i] == es[..i];
  }

  lemma LoadAllStep(c: Category, names: seq<string>, n: string, load: ToolLoader)
    ensures LoadAll(c, names + [n], load) ==
      match LoadAll(c, names, load)
      case Err(e) => Err(e)
      case Ok(ts) => if load(n).Err? then Err(ToolFailed(c, n, load(n).error)) else Ok(ts + [load(n).value])
  {
    assert (names + [n])[..|names|] == names;
  }

  /** A missing category contributes nothing and is not an error. */
  lemma MissingCategoryIsEmpty(c: Category, load: ToolLoader)
    ensures Scan(c, Missing, load) == Ok([])
  {
  }

  /** Hidden directories and plain files are never handed to the loader: the
      scan result does not depend on the loader's answer for them. */
  lemma {:induction false} SkippedEntriesIgnored(c: Category, es: seq<DirEntry>, load: ToolLoader, load': ToolLoader)
    requires forall i :: 0 <= i < |es| && IsCandidate(es[i]) ==> load(es[i].name) == load'(es[i].name)
    ensures Scan(c, Listing(es), load) == Scan(c, Listing(es), load')
  {
    var names := Candidates(es);
    CandidatesExactly(es);
    forall n | n in names
      ensures load(n) == load'(n)
    {
    }
    LoadAllAgrees(c, names, load, load');
  }

  lemma {:induction false} LoadAllAgrees(c: Category, names: seq<string>, load: ToolLoader, load': ToolLoader)
    requires forall n :: n in names ==> load(n) == load'(n)
    ensures LoadAll(c, names, load) == LoadAll(c, names, load')
  {
    if |names| > 0 {
      LoadAllAgrees(c, names[..|names| - 1], load, load');
    }
  }
}
