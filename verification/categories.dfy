/** The four fixed tool categories, in the order the generator scans them. */
module Categories {
  import opened Wrappers

  datatype Category = Hooks | Skills | Agents | SlashCommands

  /** The directory and manifest name of a category. */
  function Name(c: Category): string {
    match c
    case Hooks => "hooks"
    case Skills => "skills"
    case Agents => "agents"
    case SlashCommands => "slash-commands"
  }

  /** Declared scan order. */
  const All: seq<Category> := [Hooks, Skills, Agents, SlashCommands]

  /** Position of a category in the scan order. */
  function Index(c: Category): (i: nat)
    ensures i < |All| && All[i] == c
  {
    match c
    case Hooks => 0
    case Skills => 1
    case Agents => 2
    case SlashCommands => 3
  }

  /** `TOOL_CATEGORIES.includes(s)` together with the category it names. */
  function FromName(s: string): (r: Option<Category>)
    ensures r.Some? ==> Name(r.value) == s
  {
    if s == "hooks" then Some(Hooks)
    else if s == "skills" then Some(Skills)
    else if s == "agents" then Some(Agents)
    else if s == "slash-commands" then Some(SlashCommands)
    else None
  }

  /** Names are distinct and recognised: the two conversions are inverse. */
  lemma NameRoundTrip(c: Category)
    ensures FromName(Name(c)) == Some(c)
  {
  }

  lemma AllListsEveryCategoryOnce(c: Category)
    ensures c in All
    ensures |All| == 4
    ensures forall i, j :: 0 <= i < j < |All| ==> All[i] != All[j]
  {
  }
}
