/** Settings across a restore, and the restore as a whole: one transaction over the site's tables. */
module SiteRestore {
  import opened Basics
  import opened Ordering
  import opened TextLines
  import opened SiteBackup
  import IndexRow

  // ----- settings -----

  const AI_ENABLED := "ai_enabled"
  const AI_SECRET := "ai_api_key_cipher"
  const RAG_ENABLED := "rag_enabled"
  const RAG_SECRET := "rag_api_key_cipher"
  const CHAT_PAGE := "rag_chat_page_enabled"
  const CHAT_NAV_HIDDEN := "rag_chat_nav_hidden"
  const CHAT_ACCESS := "rag_chat_access_level"
  const MARKER := "__backup_restore_marker"

  predicate IsInternal(key: string) {
    key == AI_SECRET || key == RAG_SECRET || key == MARKER
  }

  predicate IsForced(key: string) {
    key == AI_ENABLED || key == AI_SECRET || key == RAG_ENABLED || key == RAG_SECRET
    || key == CHAT_PAGE || key == CHAT_NAV_HIDDEN || key == CHAT_ACCESS
  }

  type Settings = map<string, string>

  /** strings.ToLower, as far as the result can be an ASCII word. */
  function LowerChar(c: char): char {
    if 'A' <= c <= 'Z' then ((c as int) + 32) as char
    else if c == '\U{0130}' then 'i'
    else if c == '\U{212A}' then 'k'
    else c
  }

  function Lower(s: string): (r: string)
    ensures |r| == |s| && forall i :: 0 <= i < |s| ==> r[i] == LowerChar(s[i])
  {
    seq(|s|, i requires 0 <= i < |s| => LowerChar(s[i]))
  }

  function AccessLevel(level: string): (r: string)
    ensures r == "guest" || r == "user" || r == "editor"
  {
    var word := Lower(Trim(level));
    if word == "user" || word == "editor" then word else "guest"
  }

  lemma WordIsFixed(word: string)
    requires word == "user" || word == "editor" || word == "guest"
    ensures AccessLevel(word) == word
  {
    assert forall i :: 0 <= i < |word| ==> !IsSpace(word[i]) && LowerChar(word[i]) == word[i];
    TrimIs(word, 0, |word|);
    assert Lower(word) == word;
  }

  function Plain(m: Settings): Settings {
    map key | key in m && !IsInternal(key) :: m[key]
  }

  function Get(m: Settings, key: string): string {
    if key in m then m[key] else ""
  }

  /** The safe defaults: assistant and chat off, no secret, chat closed to all but a valid role. */
  function Forced(m: Settings): Settings {
    m[AI_ENABLED := "false"][AI_SECRET := ""][RAG_ENABLED := "false"][RAG_SECRET := ""]
     [CHAT_PAGE := "false"][CHAT_NAV_HIDDEN := "true"][CHAT_ACCESS := AccessLevel(Get(m, CHAT_ACCESS))]
  }

  /** Later entries replace earlier ones. */
  function Gather(items: seq<(string, string)>): Settings {
    if items == [] then map[]
    else
      var last := items[|items| - 1];
      if IsInternal(last.0) then Gather(items[..|items| - 1]) else Gather(items[..|items| - 1])[last.0 := last.1]
  }

  method SettingsOf(items: seq<(string, string)>) returns (settings: Settings)
    ensures settings == Gather(items)
  {
    settings := map[];
    for i := 0 to |items|
      invariant settings == Gather(items[..i])
    {
      assert items[..i + 1][..i] == items[..i];
      if IsInternal(items[i].0) {
        continue;
      }
      settings := settings[items[i].0 := items[i].1];
    }
    assert items[..|items|] == items;
  }

  lemma AccessIsApart()
    ensures CHAT_ACCESS !in {AI_ENABLED, AI_SECRET, RAG_ENABLED, RAG_SECRET, CHAT_PAGE, CHAT_NAV_HIDDEN}
  {
  }

  method RestoredSettings(items: seq<(string, string)>) returns (settings: Settings)
    ensures settings == Forced(Gather(items))
  {
    settings := SettingsOf(items);
    AccessIsApart();
    settings := settings[AI_ENABLED := "false"];
    settings := settings[AI_SECRET := ""];
    settings := settings[RAG_ENABLED := "false"];
    settings := settings[RAG_SECRET := ""];
    settings := settings[CHAT_PAGE := "false"];
    settings := settings[CHAT_NAV_HIDDEN := "true"];
    settings := settings[CHAT_ACCESS := AccessLevel(if CHAT_ACCESS in settings then settings[CHAT_ACCESS] else "")];
  }

  /** ORDER BY setting_key */
  function KeyOrder(textLess: (string, string) -> bool): ((string, string), (string, string)) -> bool {
    (a: (string, string), b: (string, string)) => textLess(a.0, b.0)
  }

  ghost function ExportSettings(m: Settings, textLess: (string, string) -> bool): (items: seq<(string, string)>)
    requires StrictTotal(m.Keys, textLess)
    ensures SetOf(items) == Plain(m).Items
  {
    Ordered(Plain(m).Items, KeyOrder(textLess))
  }

  lemma {:induction false} GatherHas(items: seq<(string, string)>, key: string)
    ensures key in Gather(items) ==> !IsInternal(key) && (key, Gather(items)[key]) in items
    ensures !IsInternal(key) && (exists value :: (key, value) in items) ==> key in Gather(items)
  {
    if items != [] {
      var front, last := items[..|items| - 1], items[|items| - 1];
      assert items == front + [last];
      GatherHas(front, key);
    }
  }

  lemma GatherExport(m: Settings, textLess: (string, string) -> bool)
    requires StrictTotal(m.Keys, textLess)
    ensures Gather(ExportSettings(m, textLess)) == Plain(m)
  {
    var items := ExportSettings(m, textLess);
    forall key ensures key in Gather(items) <==> key in Plain(m) {
      GatherHas(items, key);
      if key in Plain(m) {
        assert (key, Plain(m)[key]) in Plain(m).Items;
        assert (key, Plain(m)[key]) in SetOf(items);
      }
      if key in Gather(items) {
        assert (key, Gather(items)[key]) in SetOf(items);
      }
    }
    forall key | key in Plain(m) ensures Gather(items)[key] == Plain(m)[key] {
      GatherHas(items, key);
      assert (key, Gather(items)[key]) in SetOf(items);
    }
  }

  /** No archive, of any site at any time, holds a secret or the restore marker. */
  lemma NoSecretIsExported(m: Settings, textLess: (string, string) -> bool, k: nat)
    requires StrictTotal(m.Keys, textLess) && k < |ExportSettings(m, textLess)|
    ensures !IsInternal(ExportSettings(m, textLess)[k].0)
  {
    var items := ExportSettings(m, textLess);
    assert items[k] in SetOf(items);
  }

  /** Whatever an archive says, after the restore the secrets are empty and everything that needs one is off. */
  lemma RestoredIsSafe(items: seq<(string, string)>)
    ensures var m := Forced(Gather(items));
            && m[AI_SECRET] == m[RAG_SECRET] == "" && MARKER !in m
            && m[AI_ENABLED] == m[RAG_ENABLED] == m[CHAT_PAGE] == "false" && m[CHAT_NAV_HIDDEN] == "true"
            && m[CHAT_ACCESS] in {"guest", "user", "editor"}
  {
    GatherHas(items, MARKER);
  }

  /** What a forced setting becomes; only the access level depends on what was there. */
  function ForcedValue(m: Settings, key: string): string
    requires IsForced(key)
  {
    if key == AI_SECRET || key == RAG_SECRET then ""
    else if key == CHAT_NAV_HIDDEN then "true"
    else if key == CHAT_ACCESS then AccessLevel(Get(m, CHAT_ACCESS))
    else "false"
  }

  lemma OthersAreLeft(m: Settings, key: string)
    requires !IsForced(key)
    ensures key in Forced(m) <==> key in m
    ensures key in m ==> Forced(m)[key] == m[key]
  {
  }

  lemma ForcedAreSet(m: Settings, key: string)
    requires IsForced(key)
    ensures key in Forced(m) && Forced(m)[key] == ForcedValue(m, key)
  {
  }

  lemma ForcedIs(m: Settings, key: string)
    ensures key in Forced(m) <==> IsForced(key) || key in m
    ensures key in Forced(m) ==> Forced(m)[key] == if IsForced(key) then ForcedValue(m, key) else m[key]
  {
    if IsForced(key) {
      ForcedAreSet(m, key);
    } else {
      OthersAreLeft(m, key);
    }
  }

  lemma ForcedTwice(m: Settings)
    requires MARKER !in m
    ensures Forced(Plain(Forced(m))) == Forced(m)
  {
    var f := Forced(m);
    var g := Plain(f);
    WordIsFixed(AccessLevel(Get(m, CHAT_ACCESS)));
    forall key
      ensures key in Forced(g) <==> key in f
      ensures key in f ==> Forced(g)[key] == f[key]
    {
      ForcedIs(m, key);
      ForcedIs(g, key);
    }
  }

  lemma OtherSettingsKept(m: Settings, key: string)
    requires !IsForced(key) && key != MARKER
    ensures key in Forced(Plain(m)) <==> key in m
    ensures key in m ==> Forced(Plain(m))[key] == m[key]
  {
    ForcedIs(Plain(m), key);
  }

  /** One round of export and restore forces seven settings and keeps every other; a second round changes nothing. */
  lemma SettingsRoundTrip(m: Settings, textLess: (string, string) -> bool)
    requires StrictTotal(m.Keys, textLess)
    ensures var once := Forced(Gather(ExportSettings(m, textLess)));
            && (forall key :: !IsForced(key) && key != MARKER ==>
                (key in once <==> key in m) && (key in m ==> once[key] == m[key]))
            && (StrictTotal(once.Keys, textLess) ==> Forced(Gather(ExportSettings(once, textLess))) == once)
  {
    GatherExport(m, textLess);
    var once := Forced(Plain(m));
    ForcedTwice(Plain(m));
    forall key | !IsForced(key) && key != MARKER
      ensures (key in once <==> key in m) && (key in m ==> once[key] == m[key])
    {
      OtherSettingsKept(m, key);
    }
    if StrictTotal(once.Keys, textLess) {
      GatherExport(once, textLess);
    }
  }

  // ----- the restore -----

  function LinksTo(p: ProjectItem): set<(Id, Id)> {
    set t | t in p.tagIds && t != 0 :: (p.id, t)
  }

  class Site {
    var content: Content
    var settings: Settings
    var index: Option<IndexRow.Row>
    /** The articles with a pending indexing job. */
    var jobs: set<Id>

    constructor (content: Content, settings: Settings, index: Option<IndexRow.Row>, jobs: set<Id>)
      ensures this.content == content && this.settings == settings && this.index == index && this.jobs == jobs
    {
      this.content, this.settings, this.index, this.jobs := content, settings, index, jobs;
    }

    /** The rows of the projects and their tag links, numbered by their place in the archive. */
    static method InsertProjects(items: seq<ProjectItem>)
      returns (projects: map<Id, Project>, links: set<(Id, Id)>, ok: bool)
      ensures ok <==> DistinctIds(LoadProjects(items)) && forall i :: 0 <= i < |items| ==> items[i].id != 0
      ensures ok ==> projects == Load(LoadProjects(items)) && links == ProjectLinks(items)
    {
      projects, links := map[], {};
      for index := 0 to |items|
        invariant projects == Load(LoadProjects(items[..index])) && links == ProjectLinks(items[..index])
        invariant DistinctIds(LoadProjects(items[..index])) && forall i :: 0 <= i < index ==> items[i].id != 0
      {
        var p := items[index];
        ProjectsMore(items, index);
        if p.id == 0 {
          return projects, links, false;
        }
        if p.id in projects {
          ghost var i :| 0 <= i < index && items[i].id == p.id;
          assert LoadProjects(items)[i].0 == LoadProjects(items)[index].0;
          return projects, links, false;
        }
        projects := projects[p.id := Project(index + 1, p.data)];
        links := links + LinksTo(p);
      }
      assert items[..|items|] == items;
      ok := true;
    }

    /** The inserts of restoreBackup, table by table. */
    static method InsertTables(s: Snapshot) returns (c: Content, ok: bool)
      ensures ok <==> Loadable(s)
      ensures ok ==> c == Restored(s)
    {
      var users, ok0 := InsertRows(s.users);
      var categories, ok1 := InsertRows(s.categories);
      var tags, ok2 := InsertRows(s.tags);
      var projects, projectTags, ok3 := InsertProjects(s.projects);
      var articles, ok4 := InsertRows(ArticleRows(s.articles));
      var versions, ok5 := InsertRows(s.versions);
      var media, ok6 := InsertRows(s.media);
      var sessions, ok7 := InsertRows(s.sessions);
      var messages, ok8 := InsertRows(s.messages);
      c := Content(users, categories, tags, media, projects, projectTags, articles, ArticleLinks(s.articles),
                   versions, sessions, messages);
      ok := ok0 && ok1 && ok2 && ok3 && ok4 && ok5 && ok6 && ok7 && ok8 && References(c);
    }

    /**
     It succeeds exactly when no id is repeated, no project id is zero, references hold and the epoch can still
     grow; then every table is the archive's, no job is left, and the index is to be rebuilt at a greater epoch.
     Otherwise the transaction is rolled back.
     */
    method RestoreBackup(s: Snapshot, archived: seq<(string, string)>, marker: string) returns (ok: bool)
      modifies this
      ensures ok <==> Loadable(s) && IndexRow.RestoreAllowed(old(index))
      ensures ok ==>
                && content == Restored(s) && jobs == {}
                && index == IndexRow.RestoreRow(old(index))
                && index.value.status == IndexRow.NeedsRebuild
                && IndexRow.EpochOf(index) == IndexRow.EpochOf(old(index)) + 1
                && settings == WithMarker(Forced(Gather(archived)), marker)
      ensures !ok ==> content == old(content) && settings == old(settings) && index == old(index) && jobs == old(jobs)
    {
      var previous := IndexRow.EpochOf(index);
      var tables, loaded := InsertTables(s);
      if !loaded {
        return false;
      }
      var restored := RestoredSettings(archived);
      if previous >= IndexRow.MAX_EPOCH {
        return false;
      }
      content, jobs := tables, {};
      settings := WithMarker(restored, marker);
      index := Some(IndexRow.FRESH.(epoch := previous + 1));
      ok := true;
    }
  }

  function WithMarker(m: Settings, marker: string): Settings {
    if marker == "" then m else m[MARKER := marker]
  }

  lemma ProjectsMore(items: seq<ProjectItem>, index: nat)
    requires index < |items|
    ensures var p := items[index];
            var before, after := LoadProjects(items[..index]), LoadProjects(items[..index + 1]);
            && after == before + [(p.id, Project(index + 1, p.data))]
            && Load(after) == Load(before)[p.id := Project(index + 1, p.data)]
            && ProjectLinks(items[..index + 1]) == ProjectLinks(items[..index]) + LinksTo(p)
            && (p.id in Load(before) <==> exists i :: 0 <= i < index && items[i].id == p.id)
  {
    var p := items[index];
    var before, after := LoadProjects(items[..index]), LoadProjects(items[..index + 1]);
    assert items[..index + 1] == items[..index] + [p];
    assert after == before + [(p.id, Project(index + 1, p.data))];
    assert after[..|after| - 1] == before;
    LoadHas(before, p.id);
    assert forall i :: 0 <= i < index ==> before[i].0 == items[i].id;
  }

  predicate Loadable(s: Snapshot) {
    && DistinctIds(s.users) && DistinctIds(s.categories) && DistinctIds(s.tags) && DistinctIds(s.media)
    && DistinctIds(LoadProjects(s.projects)) && (forall i :: 0 <= i < |s.projects| ==> s.projects[i].id != 0)
    && DistinctIds(ArticleRows(s.articles)) && DistinctIds(s.versions) && DistinctIds(s.sessions)
    && DistinctIds(s.messages)
    && References(Restored(s))
  }

  lemma ListedOnce<T>(rows: seq<(Id, T)>, less: ((Id, T), (Id, T)) -> bool, table: map<Id, T>)
    requires Ascending(rows, less) && SetOf(rows) == table.Items && forall r :: r in table.Items ==> !less(r, r)
    ensures DistinctIds(rows)
  {
    LoadItems(rows, table);
    forall i, j | 0 <= i < j < |rows| ensures rows[i].0 != rows[j].0 {
      assert less(rows[i], rows[j]) && rows[i] in SetOf(rows);
    }
  }

  /** Every export can be restored. */
  lemma ExportsAreLoadable(c: Content, now: Time, textLess: (string, string) -> bool)
    requires Consistent(c, textLess)
    ensures Loadable(Export(c, now, textLess))
  {
    var s := Export(c, now, textLess);
    ListedOnce(s.users, IdOrder(), c.users);
    ListedOnce(s.categories, IdOrder(), c.categories);
    ListedOnce(s.tags, IdOrder(), c.tags);
    ListedOnce(s.media, IdOrder(), c.media);
    ListedOnce(s.versions, VersionOrder(), c.versions);
    ListedOnce(s.sessions, SessionOrder(), KeptSessions(c, now));
    ListedOnce(s.messages, IdOrder(), KeptMessages(c, now));
    ArticlesOnce(c);
    ProjectsOnce(c, textLess);
    RestoredIsConsistent(c, now, textLess);
  }

  lemma ArticlesOnce(c: Content)
    ensures DistinctIds(ArticleRows(ArticleItems(c)))
  {
    assert ArticleRows(ArticleItems(c)) == Rows(c.articles);
    ListedOnce(Rows(c.articles), IdOrder(), c.articles);
  }

  lemma ProjectsOnce(c: Content, textLess: (string, string) -> bool)
    requires Consistent(c, textLess)
    ensures DistinctIds(LoadProjects(ProjectItems(c, textLess)))
    ensures forall i :: 0 <= i < |ProjectItems(c, textLess)| ==> ProjectItems(c, textLess)[i].id != 0
  {
    var rows := ProjectRows(c.projects);
    ProjectRowsDistinct(c.projects);
    LoadItems(rows, c.projects);
  }

  // ----- roles and the marker -----

  function Upper(c: char): char
    requires 'a' <= c <= 'z'
  {
    ((c as int) - 32) as char
  }

  lemma LowerIs(c: char, d: char)
    requires 'a' <= d <= 'z' && (c == d || c == Upper(d))
    ensures LowerChar(c) == d
  {
  }

  /** A role keeps its meaning however its letters are written and whatever white space surrounds it. */
  lemma RoleIsRead(level: string, role: string)
    requires (role == "user" || role == "editor" || role == "guest") && |Trim(level)| == |role|
    requires forall i :: 0 <= i < |role| ==>
               'a' <= role[i] <= 'z' && (Trim(level)[i] == role[i] || Trim(level)[i] == Upper(role[i]))
    ensures AccessLevel(level) == role
  {
    var word := Trim(level);
    forall i | 0 <= i < |role| ensures Lower(word)[i] == role[i] {
      LowerIs(word[i], role[i]);
    }
    assert Lower(word) == role;
  }

  /** A valid role goes through a restore as it is; without one, or with any other word, chat is for guests. */
  lemma RoleIsKept(m: Settings)
    ensures CHAT_ACCESS in m && m[CHAT_ACCESS] in ["user", "editor", "guest"] ==>
              Forced(m)[CHAT_ACCESS] == m[CHAT_ACCESS]
    ensures CHAT_ACCESS !in m ==> Forced(m)[CHAT_ACCESS] == "guest"
  {
    if CHAT_ACCESS in m && m[CHAT_ACCESS] in ["user", "editor", "guest"] {
      WordIsFixed(m[CHAT_ACCESS]);
    }
  }

  /** A restore that is given a marker leaves exactly it as the marker; one without leaves none. */
  lemma MarkerIsLeft(archived: seq<(string, string)>, marker: string, key: string)
    ensures var m, left := Forced(Gather(archived)), WithMarker(Forced(Gather(archived)), marker);
            && (marker != "" ==> MARKER in left && left[MARKER] == marker)
            && (marker == "" ==> MARKER !in left)
            && (key != MARKER ==> (key in left <==> key in m) && (key in m ==> left[key] == m[key]))
  {
    NoMarkerGathered(archived);
  }

  lemma {:induction false} NoMarkerGathered(items: seq<(string, string)>)
    ensures MARKER !in Gather(items)
  {
    if items != [] {
      NoMarkerGathered(items[..|items| - 1]);
    }
  }

  /** An archive is refused for a repeated id in any table, a project without id, or what References forbids. */
  lemma WhatIsRefused(s: Snapshot, i: nat, j: nat)
    requires i < j
    ensures j < |s.users| && s.users[i].0 == s.users[j].0 ==> !Loadable(s)
    ensures j < |s.categories| && s.categories[i].0 == s.categories[j].0 ==> !Loadable(s)
    ensures j < |s.tags| && s.tags[i].0 == s.tags[j].0 ==> !Loadable(s)
    ensures j < |s.media| && s.media[i].0 == s.media[j].0 ==> !Loadable(s)
    ensures j < |s.projects|
              && (s.projects[i].id == s.projects[j].id || s.projects[j].id == 0 || s.projects[i].id == 0) ==>
                   !Loadable(s)
    ensures j < |s.articles| && s.articles[i].id == s.articles[j].id ==> !Loadable(s)
    ensures j < |s.versions| && s.versions[i].0 == s.versions[j].0 ==> !Loadable(s)
    ensures j < |s.sessions| && s.sessions[i].0 == s.sessions[j].0 ==> !Loadable(s)
    ensures j < |s.messages| && s.messages[i].0 == s.messages[j].0 ==> !Loadable(s)
    ensures !References(Restored(s)) ==> !Loadable(s)
  {
    if j < |s.projects| {
      assert LoadProjects(s.projects)[i].0 == s.projects[i].id && LoadProjects(s.projects)[j].0 == s.projects[j].id;
    }
    if j < |s.articles| {
      assert ArticleRows(s.articles)[i].0 == s.articles[i].id && ArticleRows(s.articles)[j].0 == s.articles[j].id;
    }
  }
}
