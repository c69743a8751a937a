/** The descriptor guard `validateMetadata`: fail-fast checks, in a fixed order,
    over an already-parsed descriptor value. */
module Validator {
  import opened Wrappers
  import opened Json
  import opened Version
  import Categories

  /** The required top-level keys, in the order they are checked. */
  const Required: seq<string> :=
    ["id", "name", "category", "description", "author", "version", "tags", "files", "installation"]

  /** Why a descriptor was refused. `NotAnObject` and `FilesIsNull` are the
      TypeErrors JavaScript throws for `'id' in <primitive>` and `null.main`;
      `CategoryUnconvertible` and `VersionUnconvertible` are the TypeErrors of
      converting a value that is not `Convertible` to a string (in the error
      message for the category, in `RegExp.test` for the version). */
  datatype ValidationError =
    | NotAnObject
    | MissingField(field: string)
    | InvalidCategory(category: Json)
    | CategoryUnconvertible(category: Json)
    | TagsNotArray
    | FilesIsNull
    | MissingMain
    | InvalidVersion(version: Json)
    | VersionUnconvertible(version: Json)

  /** The check (1 to 5) that reports an error. */
  function Stage(e: ValidationError): nat {
    match e
    case NotAnObject => 1
    case MissingField(_) => 1
    case InvalidCategory(_) => 2
    case CategoryUnconvertible(_) => 2
    case TagsNotArray => 3
    case FilesIsNull => 4
    case MissingMain => 4
    case InvalidVersion(_) => 5
    case VersionUnconvertible(_) => 5
  }

  /** The first name of `names`, in order, that is not a key. */
  function FirstMissing(keys: set<string>, names: seq<string>): (r: Option<nat>)
    ensures r.Some? ==> r.value < |names| && names[r.value] !in keys
    ensures r.Some? ==> forall j :: 0 <= j < r.value ==> names[j] in keys
    ensures r.None? ==> forall j :: 0 <= j < |names| ==> names[j] in keys
  {
    if |names| == 0 then None
    else if names[0] !in keys then Some(0)
    else match FirstMissing(keys, names[1..])
      case None => None
      case Some(i) => Some(i + 1)
  }

  predicate IsCategoryValue(v: Json) {
    v.JStr? && Categories.FromName(v.s).Some?
  }

  // The five checks, each stated on its own.

  predicate HasRequired(v: Json) {
    v.JObj? && forall j :: 0 <= j < |Required| ==> Required[j] in v.fields
  }

  predicate CategoryOk(v: Json) {
    v.JObj? && "category" in v.fields && IsCategoryValue(v.fields["category"])
  }

  predicate TagsOk(v: Json) {
    v.JObj? && "tags" in v.fields && v.fields["tags"].JArr?
  }

  predicate MainOk(v: Json) {
    v.JObj? && "files" in v.fields && !v.fields["files"].JNull?
    && TruthyRead(Property(v.fields["files"], "main"))
  }

  predicate VersionOk(v: Json) {
    v.JObj? && "version" in v.fields && Convertible(v.fields["version"])
    && IsVersion(ToJsString(v.fields["version"]))
  }

  predicate CheckHolds(v: Json, k: nat) {
    match k
    case 1 => HasRequired(v)
    case 2 => CategoryOk(v)
    case 3 => TagsOk(v)
    case 4 => MainOk(v)
    case _ => VersionOk(v)
  }

  /** The shape the guard promises (`metadata is ToolMetadata`). */
  predicate WellFormed(v: Json) {
    HasRequired(v) && CategoryOk(v) && TagsOk(v) && MainOk(v) && VersionOk(v)
  }

  function ValidateMetadata(v: Json): (r: Outcome<ValidationError>)
    ensures r.Pass? <==> WellFormed(v)
    ensures r.Fail? ==> 1 <= Stage(r.error) <= 5 && !CheckHolds(v, Stage(r.error))
    ensures r.Fail? ==> forall k :: 1 <= k < Stage(r.error) ==> CheckHolds(v, k)
    ensures r == Fail(NotAnObject) <==> !v.JObj? && !v.JArr?
    ensures r.Fail? && r.error.MissingField? ==>
      exists i :: 0 <= i < |Required| && Required[i] == r.error.field
        && (v.JObj? ==> Required[i] !in v.fields && forall j :: 0 <= j < i ==> Required[j] in v.fields)
    ensures v.JArr? ==> r == Fail(MissingField("id"))
    ensures r.Fail? && Stage(r.error) == 2 ==>
      v.JObj? && "category" in v.fields &&
      r.error == (if Convertible(v.fields["category"]) then InvalidCategory(v.fields["category"])
                  else CategoryUnconvertible(v.fields["category"]))
    ensures r == Fail(FilesIsNull) <==>
      HasRequired(v) && CategoryOk(v) && TagsOk(v) && "files" in v.fields && v.fields["files"].JNull?
    ensures r.Fail? && Stage(r.error) == 5 ==>
      v.JObj? && "version" in v.fields &&
      r.error == (if Convertible(v.fields["version"]) then InvalidVersion(v.fields["version"])
                  else VersionUnconvertible(v.fields["version"]))
  {
    match v
    case JObj(m) =>
      (match FirstMissing(m.Keys, Required)
       case Some(i) => Fail(MissingField(Required[i]))
       case None =>
         assert Required[2] == "category" && Required[5] == "version";
         assert Required[6] == "tags" && Required[7] == "files";
         if !IsCategoryValue(m["category"]) then
           if Convertible(m["category"]) then Fail(InvalidCategory(m["category"]))
           else Fail(CategoryUnconvertible(m["category"]))
         else if !m["tags"].JArr? then Fail(TagsNotArray)
         else if m["files"].JNull? then Fail(FilesIsNull)
         else if !TruthyRead(Property(m["files"], "main")) then Fail(MissingMain)
         else if !Convertible(m["version"]) then Fail(VersionUnconvertible(m["version"]))
         else if !IsVersion(ToJsString(m["version"])) then Fail(InvalidVersion(m["version"]))
         else Pass)
    case JArr(_) =>
      // no array carries any of the required names as a property
      assert Required[0] == "id";
      Fail(MissingField("id"))
    case _ => Fail(NotAnObject)
  }

  /** When several required keys are missing, the one reported is the first in `Required`. */
  lemma FirstMissingReported(v: Json, i: nat)
    requires v.JObj? && i < |Required| && Required[i] !in v.fields
    requires forall j :: 0 <= j < i ==> Required[j] in v.fields
    ensures ValidateMetadata(v) == Fail(MissingField(Required[i]))
  {
    var r := FirstMissing(v.fields.Keys, Required);
    assert r.Some?;
    assert r.value == i;
  }

  /** An accepted descriptor names one of the four categories. */
  lemma AcceptedCategory(v: Json)
    requires ValidateMetadata(v).Pass?
    ensures exists c :: v.fields["category"] == JStr(Categories.Name(c))
  {
    var c := Categories.FromName(v.fields["category"].s).value;
    assert v.fields["category"] == JStr(Categories.Name(c));
  }

  /** `RegExp.test` converts its argument with `String(...)`, so besides a string
      only a one-element array (e.g. ["1.0.0"]) can pass the version check. */
  lemma VersionValueShape(v: Json)
    requires IsVersion(ToJsString(v))
    ensures v.JStr? || (v.JArr? && |v.items| == 1)
  {
    var s := ToJsString(v);
    match v
    case JNull => BadCharacter(s, 0);
    case JBool(b) => BadCharacter(s, 0);
    case JNum(n) =>
      NoDot(s);
    case JStr(_) =>
    case JArr(xs) =>
      if |xs| == 0 {
        TooShort(s);
      } else if |xs| >= 2 {
        var i :| 0 <= i < |s| && s[i] == ',';
        BadCharacter(s, i);
      }
    case JObj(_) => BadCharacter(s, 0);
  }

  /** The string-coercion consequence, concretely. */
  lemma ArrayVersionAccepted()
    ensures IsVersion(ToJsString(JArr([JStr("1.0.0")])))
  {
    VersionExamples();
    var parts := seq(1, i requires 0 <= i < 1 => if [JStr("1.0.0")][i].JNull? then "" else ToJsString([JStr("1.0.0")][i]));
    assert parts == ["1.0.0"];
  }
}
