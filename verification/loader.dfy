/** `readMetadata`: parse result, validation, existence of the declared files
    and entry construction for one tool directory. The filesystem and the
    history lookup are replaced by a snapshot of the directory. */
module Loader {
  import opened Wrappers
  import opened Json
  import opened Validator
  import opened Entries

  /** One tool directory as the loader observes it: the parsed `metadata.json`
      (None when it is unreadable or not JSON), the relative paths that exist
      under the directory, and the timestamp the history lookup produced. */
  datatype ToolDir = ToolDir(descriptor: Option<Json>, present: set<string>, lastUpdated: string)

  /** Why a tool could not be loaded. `PathNotString` and `AdditionalNotIterable`
      are the TypeErrors of `path.join` and `for...of` on such values. */
  datatype LoadFailure =
    | Unreadable
    | Invalid(reason: ValidationError)
    | PathNotString(value: Json)
    | MainNotFound(path: string)
    | AdditionalNotFound(path: string)
    | AdditionalNotIterable(additional: Json)

  /** A declared path that `path.join` accepts and that exists. */
  predicate Resolves(p: Json, present: set<string>) {
    p.JStr? && p.s in present
  }

  /** The values `for (const file of v)` visits: array items, or the characters of a string. */
  function Iterate(v: Json): Result<seq<Json>, LoadFailure> {
    match v
    case JArr(xs) => Ok(xs)
    case JStr(s) => Ok(seq(|s|, i requires 0 <= i < |s| => JStr([s[i]])))
    case _ => Err(AdditionalNotIterable(v))
  }

  /** The existence loop over additional files: the first path that fails stops it. */
  function CheckAdditional(paths: seq<Json>, present: set<string>): (r: Outcome<LoadFailure>)
    ensures r.Pass? <==> forall i :: 0 <= i < |paths| ==> Resolves(paths[i], present)
    ensures r.Fail? ==>
              exists i :: 0 <= i < |paths| && !Resolves(paths[i], present)
                && (forall j :: 0 <= j < i ==> Resolves(paths[j], present))
                && r.error == (if paths[i].JStr? then AdditionalNotFound(paths[i].s) else PathNotString(paths[i]))
  {
    if |paths| == 0 then Pass
    else if !paths[0].JStr? then Fail(PathNotString(paths[0]))
    else if paths[0].s !in present then Fail(AdditionalNotFound(paths[0].s))
    else
      var r := CheckAdditional(paths[1..], present);
      assert forall j :: 1 <= j < |paths| ==> paths[j] == paths[1..][j - 1];
      r
  }

  /** `files.main` of a validated descriptor. */
  function MainOf(v: Json): Json
    requires WellFormed(v)
  {
    v.fields["files"].fields["main"]
  }

  /** `files.additional` of a validated descriptor, when present. */
  function AdditionalOf(v: Json): Option<Json>
    requires WellFormed(v)
  {
    Property(v.fields["files"], "additional")
  }

  /** Every file a validated descriptor declares exists in the tool directory. */
  predicate FilesPresent(v: Json, present: set<string>)
    requires WellFormed(v)
  {
    && Resolves(MainOf(v), present)
    && (TruthyRead(AdditionalOf(v)) ==>
          var add := AdditionalOf(v).value;
          (add.JArr? || add.JStr?)
          && forall p :: p in Iterate(add).value ==> Resolves(p, present))
  }

  function ReadMetadata(dir: ToolDir): (r: Result<Entry, LoadFailure>)
    ensures r.Ok? <==>
      dir.descriptor.Some? && WellFormed(dir.descriptor.value) && FilesPresent(dir.descriptor.value, dir.present)
    ensures r.Ok? ==> r.value == BuildEntry(dir.descriptor.value.fields, dir.lastUpdated)
    ensures dir.descriptor.None? ==> r == Err(Unreadable)
    ensures dir.descriptor.Some? && !WellFormed(dir.descriptor.value) ==>
      r == Err(Invalid(ValidateMetadata(dir.descriptor.value).error))
    ensures dir.descriptor.Some? && WellFormed(dir.descriptor.value) && r.Err? ==>
      !r.error.Unreadable? && !r.error.Invalid?
    ensures dir.descriptor.Some? && WellFormed(dir.descriptor.value) ==>
      var main := MainOf(dir.descriptor.value);
      !Resolves(main, dir.present) ==>
        r == Err(if main.JStr? then MainNotFound(main.s) else PathNotString(main))
    ensures dir.descriptor.Some? && WellFormed(dir.descriptor.value)
            && Resolves(MainOf(dir.descriptor.value), dir.present) && r.Err? ==>
      var add := AdditionalOf(dir.descriptor.value);
      && TruthyRead(add)
      && (!add.value.JArr? && !add.value.JStr? ==> r == Err(AdditionalNotIterable(add.value)))
      && (add.value.JArr? || add.value.JStr? ==>
            r == Err(CheckAdditional(Iterate(add.value).value, dir.present).error))
  {
    match dir.descriptor
    case None => Err(Unreadable)
    case Some(v) =>
      match ValidateMetadata(v)
      case Fail(e) => Err(Invalid(e))
      case Pass =>
        var main := MainOf(v);
        if !main.JStr? then Err(PathNotString(main))
        else if main.s !in dir.present then Err(MainNotFound(main.s))
        else if !TruthyRead(AdditionalOf(v)) then Ok(BuildEntry(v.fields, dir.lastUpdated))
        else
          match Iterate(AdditionalOf(v).value)
          case Err(e) => Err(e)
          case Ok(paths) =>
            match CheckAdditional(paths, dir.present)
            case Fail(e) => Err(e)
            case Pass => Ok(BuildEntry(v.fields, dir.lastUpdated))
  }

  /** A loaded entry keeps the validated shape: it names one of the four
      categories, its tags are an array and its version string is accepted. */
  lemma LoadedEntryShape(dir: ToolDir)
    requires ReadMetadata(dir).Ok?
    ensures var e := ReadMetadata(dir).value;
      && IsCategoryValue(e.fields["category"])
      && e.fields["tags"].JArr?
      && Version.IsVersion(ToJsString(e.fields["version"]))
  {
    var v := dir.descriptor.value;
    assert Required[2] == "category" && Required[5] == "version" && Required[6] == "tags";
    assert "category" !in AddedKeys && "tags" !in AddedKeys && "version" !in AddedKeys;
  }
}
