/** Manifest entries: a validated descriptor with `lastUpdated`, `downloads`
    and `rating` laid over it by object spread, plus the two keys the manifest
    ordering reads from an entry. */
module Entries {
  import opened Wrappers
  import opened Json

  datatype Entry = Entry(fields: map<string, Json>)

  /** The keys entry construction writes after spreading the descriptor. */
  const AddedKeys: set<string> := {"lastUpdated", "downloads", "rating"}

  /** `metadata.repository?.stars || 0`. */
  function Downloads(d: map<string, Json>): (r: Json)
    ensures Truthy(r) ==> "repository" in d && Property(d["repository"], "stars") == Some(r)
    ensures !Truthy(r) ==> r == JNum(0)
    ensures "repository" in d && TruthyRead(Property(d["repository"], "stars")) ==> Truthy(r)
  {
    if "repository" in d && TruthyRead(Property(d["repository"], "stars"))
    then d["repository"].fields["stars"]
    else JNum(0)
  }

  /** The descriptor's `featured` flag as JavaScript reads it: absent means false. */
  predicate FeaturedIn(fields: map<string, Json>) {
    "featured" in fields && Truthy(fields["featured"])
  }

  /** `metadata.featured ? 5.0 : 4.0`. */
  function Rating(d: map<string, Json>): (r: int)
    ensures r == 4 || r == 5
    ensures r == 5 <==> FeaturedIn(d)
  {
    if FeaturedIn(d) then 5 else 4
  }

  /** `{ ...metadata, lastUpdated, downloads, rating }`. */
  function BuildEntry(d: map<string, Json>, lastUpdated: string): (e: Entry)
    ensures e.fields.Keys == d.Keys + AddedKeys
    ensures forall k :: k in d && k !in AddedKeys ==> e.fields[k] == d[k]
    ensures e.fields["lastUpdated"] == JStr(lastUpdated)
    ensures e.fields["downloads"] == Downloads(d)
    ensures e.fields["rating"] == JNum(Rating(d))
  {
    Entry(d["lastUpdated" := JStr(lastUpdated)]["downloads" := Downloads(d)]["rating" := JNum(Rating(d))])
  }

  /** The descriptor part of an entry. */
  function Descriptor(e: Entry): map<string, Json> {
    e.fields - AddedKeys
  }

  /** Construction only adds: a descriptor that does not already use the three
      added keys is recovered exactly from its entry. */
  lemma DescriptorRecovered(d: map<string, Json>, lastUpdated: string)
    requires d.Keys !! AddedKeys
    ensures Descriptor(BuildEntry(d, lastUpdated)) == d
  {
    var r := Descriptor(BuildEntry(d, lastUpdated));
    assert r.Keys == d.Keys;
  }

  /** Whether an entry sorts in the featured group (`a.featured` truthy). */
  predicate Featured(e: Entry) {
    FeaturedIn(e.fields)
  }

  /** The entry's name as `localeCompare` sees it: `String(a.name)`. */
  function Name(e: Entry): string {
    if "name" in e.fields then ToJsString(e.fields["name"]) else "undefined"
  }

  /** The rating written into an entry agrees with the flag the ordering reads. */
  lemma RatingMatchesFeatured(d: map<string, Json>, lastUpdated: string)
    ensures BuildEntry(d, lastUpdated).fields["rating"] == JNum(5) <==> Featured(BuildEntry(d, lastUpdated))
    ensures BuildEntry(d, lastUpdated).fields["rating"] == JNum(4) <==> !Featured(BuildEntry(d, lastUpdated))
  {
    var e := BuildEntry(d, lastUpdated);
    assert "featured" !in AddedKeys;
    assert "featured" in e.fields <==> "featured" in d;
  }
}
