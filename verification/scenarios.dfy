/** Concrete runs of the pipeline: a valid tree, and a tree with one broken tool. */
module Scenarios {
  import opened Wrappers
  import opened Json
  import opened Categories
  import opened Validator
  import opened Entries
  import opened Loader
  import opened Ordering
  import opened Scanner
  import opened Manifest
  import opened Pipeline

  /** A hook descriptor with every required field; `author` only when asked for. */
  function Hook(name: string, featured: bool, withAuthor: bool): map<string, Json> {
    var d := map[
      "id" := JStr(name), "name" := JStr(name), "category" := JStr("hooks"),
      "description" := JStr("a hook"), "version" := JStr("1.0.0"), "tags" := JArr([]),
      "files" := JObj(map["main" := JStr("main.sh")]),
      "installation" := JObj(map["targetDir" := JStr(".claude/hooks")]),
      "featured" := JBool(featured)];
    if withAuthor then d["author" := JStr("someone")] else d
  }

  function HookDir(name: string, featured: bool, withAuthor: bool): ToolDir {
    ToolDir(Some(JObj(Hook(name, featured, withAuthor))), {"main.sh"}, "2024-01-01T00:00:00Z")
  }

  /** A skill descriptor with every required field except `author`. */
  function AuthorlessSkill(name: string): map<string, Json> {
    map[
      "id" := JStr(name), "name" := JStr(name), "category" := JStr("skills"),
      "description" := JStr("a skill"), "version" := JStr("1.0.0"), "tags" := JArr([]),
      "files" := JObj(map["main" := JStr("SKILL.md")]),
      "installation" := JObj(map["targetDir" := JStr(".claude/skills")])]
  }

  function AuthorlessSkillDir(name: string): ToolDir {
    ToolDir(Some(JObj(AuthorlessSkill(name))), {"SKILL.md"}, "2024-01-01T00:00:00Z")
  }

  lemma HookWellFormed(name: string, featured: bool)
    ensures WellFormed(JObj(Hook(name, featured, true)))
  {
    var m := Hook(name, featured, true);
    var v := JObj(m);
    assert m.Keys == {"id", "name", "category", "description", "version", "tags", "files",
                      "installation", "featured", "author"};
    assert HasRequired(v);
    HookCategory(name, featured);
    HookMain(name, featured);
    HookVersion(name, featured);
  }

  lemma HookCategory(name: string, featured: bool)
    ensures CategoryOk(JObj(Hook(name, featured, true)))
  {
    assert Hook(name, featured, true)["category"] == JStr("hooks");
    assert Categories.FromName("hooks") == Some(Hooks);
  }

  lemma HookMain(name: string, featured: bool)
    ensures MainOk(JObj(Hook(name, featured, true)))
  {
    var files := JObj(map["main" := JStr("main.sh")]);
    assert Hook(name, featured, true)["files"] == files;
    assert Property(files, "main") == Some(JStr("main.sh"));
  }

  lemma HookVersion(name: string, featured: bool)
    ensures VersionOk(JObj(Hook(name, featured, true)))
  {
    assert Hook(name, featured, true)["version"] == JStr("1.0.0");
    Version.VersionExamples();
  }

  lemma HookLoads(name: string, featured: bool)
    ensures ReadMetadata(HookDir(name, featured, true)) ==
              Ok(BuildEntry(Hook(name, featured, true), "2024-01-01T00:00:00Z"))
  {
    var v := JObj(Hook(name, featured, true));
    HookWellFormed(name, featured);
    assert Hook(name, featured, true)["files"] == JObj(map["main" := JStr("main.sh")]);
    assert MainOf(v) == JStr("main.sh");
    assert AdditionalOf(v) == None;
  }

  lemma HookWithoutAuthorRejected(name: string)
    ensures ReadMetadata(HookDir(name, false, false)) == Err(Invalid(MissingField("author")))
  {
    var v := JObj(Hook(name, false, false));
    assert Required[4] == "author";
    FirstMissingReported(v, 4);
  }

  lemma SkillWithoutAuthorRejected(name: string)
    ensures ReadMetadata(AuthorlessSkillDir(name)) == Err(Invalid(MissingField("author")))
  {
    var v := JObj(AuthorlessSkill(name));
    assert Required[4] == "author";
    FirstMissingReported(v, 4);
  }

  /** A version object with its own `toString` key makes `RegExp.test` throw. */
  lemma VersionObjectThrows(name: string)
    ensures ValidateMetadata(JObj(Hook(name, false, true)["version" := JObj(map["toString" := JNum(1)])]))
            == Fail(VersionUnconvertible(JObj(map["toString" := JNum(1)])))
  {
    var bad := JObj(map["toString" := JNum(1)]);
    var v := JObj(Hook(name, false, true)["version" := bad]);
    HookWellFormed(name, false);
    assert HasRequired(v) && CategoryOk(v) && TagsOk(v) && MainOk(v);
    assert !Convertible(bad);
  }

  /** `hooks/` lists `bar` (not featured), `foo` (featured), a hidden directory
      and a plain file; the other categories do not exist. */
  function Tree(): Snapshot {
    Snapshot(
      map[Hooks := [DirEntry("bar", true), DirEntry("foo", true), DirEntry(".git", true), DirEntry("README.md", false)]],
      map[(Hooks, "foo") := HookDir("Foo", true, true), (Hooks, "bar") := HookDir("Bar", false, true)])
  }

  function Foo(): Entry {
    BuildEntry(Hook("Foo", true, true), "2024-01-01T00:00:00Z")
  }

  function Bar(): Entry {
    BuildEntry(Hook("Bar", false, true), "2024-01-01T00:00:00Z")
  }

  lemma TreeCandidates()
    ensures Candidates(Tree().listings[Hooks]) == ["bar", "foo"]
  {
    var es := Tree().listings[Hooks];
    assert es[..1] == [DirEntry("bar", true)];
    assert Candidates(es[..1]) == ["bar"] by {
      assert es[..1][..0] == [];
    }
    assert es[..2][..1] == es[..1];
    assert Candidates(es[..2]) == ["bar", "foo"];
    assert es[..3][..2] == es[..2];
    assert Candidates(es[..3]) == ["bar", "foo"];
    assert es[..4][..3] == es[..3];
    assert es[..4] == es;
  }

  lemma TreeLoads()
    ensures LoadersOf(Tree())(Hooks)("bar") == Ok(Bar())
    ensures LoadersOf(Tree())(Hooks)("foo") == Ok(Foo())
  {
    HookLoads("Foo", true);
    HookLoads("Bar", false);
  }

  /** The hooks scan for any loader that accepts `bar` and `foo`. */
  lemma TreeHooksWith(load: ToolLoader, foo: Entry, bar: Entry)
    requires load("bar") == Ok(bar) && load("foo") == Ok(foo)
    ensures Scan(Hooks, DirsOf(Tree())(Hooks), load) == Ok([bar, foo])
  {
    TreeCandidates();
    LoadAllStep(Hooks, [], "bar", load);
    assert [] + ["bar"] == ["bar"];
    var r1 := LoadAll(Hooks, ["bar"], load);
    assert r1 == Ok([] + [bar]);
    LoadAllStep(Hooks, ["bar"], "foo", load);
    assert ["bar"] + ["foo"] == ["bar", "foo"];
    var r2 := LoadAll(Hooks, ["bar", "foo"], load);
    assert r2 == Ok(r1.value + [foo]);
    assert [] + [bar] + [foo] == [bar, foo];
    assert DirsOf(Tree())(Hooks) == Listing(Tree().listings[Hooks]);
  }

  lemma TreeOrder()
    ensures Featured(Foo()) && !Featured(Bar())
  {
    assert "featured" !in AddedKeys;
    assert Foo().fields["featured"] == JBool(true);
    assert Bar().fields["featured"] == JBool(false);
  }

  /** With only the hooks category present, the run assembles the hooks scan. */
  lemma OnlyHooksScanned(dirs: CategoryDirs, load: Loaders, hooks: seq<Entry>)
    requires Scan(Hooks, dirs(Hooks), load(Hooks)) == Ok(hooks)
    requires dirs(Skills) == Missing && dirs(Agents) == Missing && dirs(SlashCommands) == Missing
    ensures GenerateManifest(dirs, load, "now") == Ok(Assemble([hooks, [], [], []], "now"))
  {
    assert Scan(Skills, dirs(Skills), load(Skills)) == Ok([]);
    assert Scan(Agents, dirs(Agents), load(Agents)) == Ok([]);
    assert Scan(SlashCommands, dirs(SlashCommands), load(SlashCommands)) == Ok([]);
    EveryScanOk(dirs, load);
    assert Results(dirs, load) == [hooks, [], [], []];
    GeneratedIsAssembled(dirs, load, "now");
  }

  /** Sorting and counting the single non-empty category `[bar, foo]`. */
  lemma AssembleHooks(foo: Entry, bar: Entry)
    requires Featured(foo) && !Featured(bar)
    ensures Assemble([[bar, foo], [], [], []], "now").tools == [foo, bar]
    ensures Assemble([[bar, foo], [], [], []], "now").categories == Counts(2, 0, 0, 0)
    ensures Assemble([[bar, foo], [], [], []], "now").totalTools == 2
  {
    var parts := [[bar, foo], [], [], []];
    FlattenFour(parts);
    assert Flatten(parts) == [bar, foo];
    FeaturedMovesAhead(foo, bar);
  }

  /** Sorting and counting once the hooks scan has produced `[bar, foo]`. */
  lemma TreeManifestWith(dirs: CategoryDirs, load: Loaders, foo: Entry, bar: Entry)
    requires Scan(Hooks, dirs(Hooks), load(Hooks)) == Ok([bar, foo])
    requires dirs(Skills) == Missing && dirs(Agents) == Missing && dirs(SlashCommands) == Missing
    requires Featured(foo) && !Featured(bar)
    ensures GenerateManifest(dirs, load, "now").Ok?
    ensures GenerateManifest(dirs, load, "now").value.tools == [foo, bar]
    ensures GenerateManifest(dirs, load, "now").value.categories == Counts(2, 0, 0, 0)
    ensures GenerateManifest(dirs, load, "now").value.totalTools == 2
  {
    OnlyHooksScanned(dirs, load, [bar, foo]);
    AssembleHooks(foo, bar);
  }

  /** Featured `Foo` is listed before `Bar` although `bar` comes first in the
      listing; the hidden directory and the plain file are skipped. */
  lemma ValidTreeManifest()
    ensures Run(Tree(), "now").Ok?
    ensures Run(Tree(), "now").value.tools == [Foo(), Bar()]
    ensures Run(Tree(), "now").value.categories == Counts(2, 0, 0, 0)
    ensures Run(Tree(), "now").value.totalTools == 2
  {
    var dirs, load := DirsOf(Tree()), LoadersOf(Tree());
    TreeLoads();
    TreeHooksWith(load(Hooks), Foo(), Bar());
    TreeOrder();
    TreeDirs();
    TreeManifestWith(dirs, load, Foo(), Bar());
  }

  lemma TreeDirs()
    ensures DirsOf(Tree())(Skills) == Missing
    ensures DirsOf(Tree())(Agents) == Missing
    ensures DirsOf(Tree())(SlashCommands) == Missing
  {
  }

  /** A failing skills scan after a successful hooks scan is the run's error. */
  lemma FailsAtSkills(dirs: CategoryDirs, load: Loaders, e: ScanError)
    requires Scan(Hooks, dirs(Hooks), load(Hooks)).Ok?
    requires Scan(Skills, dirs(Skills), load(Skills)) == Err(e)
    ensures GenerateManifest(dirs, load, "now") == Err(e)
  {
    var r := GenerateManifest(dirs, load, "now");
    assert r.Err?;
    var c :| Scan(c, dirs(c), load(c)) == Err(r.error)
             && forall d :: Index(d) < Index(c) ==> Scan(d, dirs(d), load(d)).Ok?;
    assert c == Skills;
  }

  /** `skills/broken` lacks `author`: the run fails naming the tool and the field. */
  lemma BrokenToolStopsRun()
    ensures Run(Snapshot(map[Skills := [DirEntry("broken", true)]],
                         map[(Skills, "broken") := AuthorlessSkillDir("broken")]), "now")
            == Err(ToolFailed(Skills, "broken", Invalid(MissingField("author"))))
  {
    var s := Snapshot(map[Skills := [DirEntry("broken", true)]],
                      map[(Skills, "broken") := AuthorlessSkillDir("broken")]);
    var dirs, load := DirsOf(s), LoadersOf(s);
    SkillWithoutAuthorRejected("broken");
    var es := s.listings[Skills];
    assert Candidates(es) == ["broken"] by {
      assert es[..0] == [];
    }
    assert Candidates(es)[..0] == [];
    assert dirs(Hooks) == Missing;
    assert Scan(Skills, dirs(Skills), load(Skills)) ==
             Err(ToolFailed(Skills, "broken", Invalid(MissingField("author"))));
    FailsAtSkills(dirs, load, ToolFailed(Skills, "broken", Invalid(MissingField("author"))));
  }
}
