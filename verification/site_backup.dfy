/** Exporting a site, restoring an export into any database, and exporting again. */
module SiteBackup {
  import opened Basics
  import opened Ordering

  type Id = nat

  // ----- the tables a backup covers; data stands for the columns that are copied as they are -----

  datatype Project = Project(order: int, data: string)

  datatype Version = Version(article: Id, no: nat, data: string, tagIds: seq<Id>)

  datatype Session = Session(user: Option<Id>, expires: Option<Time>, createdAt: Time, data: string)

  datatype Message = Message(session: Id, data: string)

  datatype Content = Content(
    users: map<Id, string>, categories: map<Id, string>, tags: map<Id, string>, media: map<Id, string>,
    projects: map<Id, Project>, projectTags: set<(Id, Id)>,
    articles: map<Id, string>, articleTags: set<(Id, Id)>, versions: map<Id, Version>,
    sessions: map<Id, Session>, messages: map<Id, Message>)

  datatype ProjectItem = ProjectItem(id: Id, data: string, tagIds: seq<Id>)

  datatype ArticleItem = ArticleItem(id: Id, data: string, tagIds: seq<Id>)

  datatype Snapshot = Snapshot(
    users: seq<(Id, string)>, categories: seq<(Id, string)>, tags: seq<(Id, string)>, media: seq<(Id, string)>,
    projects: seq<ProjectItem>, articles: seq<ArticleItem>, versions: seq<(Id, Version)>,
    sessions: seq<(Id, Session)>, messages: seq<(Id, Message)>)

  // ----- loading rows into an empty table -----

  predicate DistinctIds<T>(rows: seq<(Id, T)>) {
    forall i, j :: 0 <= i < j < |rows| ==> rows[i].0 != rows[j].0
  }

  function Load<T>(rows: seq<(Id, T)>): map<Id, T> {
    if rows == [] then map[] else Load(rows[..|rows| - 1])[rows[|rows| - 1].0 := rows[|rows| - 1].1]
  }

  lemma {:induction false} LoadHas<T>(rows: seq<(Id, T)>, id: Id)
    ensures id in Load(rows) <==> exists i :: 0 <= i < |rows| && rows[i].0 == id
    ensures id in Load(rows) ==> (id, Load(rows)[id]) in rows
  {
    if rows != [] {
      LoadHas(rows[..|rows| - 1], id);
    }
  }

  /** A table comes back from any listing of its rows. */
  lemma LoadItems<T>(rows: seq<(Id, T)>, table: map<Id, T>)
    requires SetOf(rows) == table.Items
    ensures Load(rows) == table && forall i :: 0 <= i < |rows| ==> rows[i].0 in table && table[rows[i].0] == rows[i].1
  {
    forall i | 0 <= i < |rows| ensures rows[i].0 in table && table[rows[i].0] == rows[i].1 {
      assert rows[i] in SetOf(rows);
    }
    forall id ensures id in Load(rows) <==> id in table {
      LoadHas(rows, id);
      if id in table {
        assert (id, table[id]) in table.Items;
        assert (id, table[id]) in SetOf(rows);
      }
    }
    forall id | id in table ensures Load(rows)[id] == table[id] {
      LoadHas(rows, id);
      assert (id, Load(rows)[id]) in SetOf(rows);
    }
  }

  /** INSERT one row after the other; a repeated id violates the primary key. */
  method InsertRows<T>(rows: seq<(Id, T)>) returns (table: map<Id, T>, ok: bool)
    ensures ok <==> DistinctIds(rows)
    ensures ok ==> table == Load(rows)
  {
    table := map[];
    for i := 0 to |rows|
      invariant table == Load(rows[..i]) && DistinctIds(rows[..i])
    {
      LoadHas(rows[..i], rows[i].0);
      assert rows[..i + 1][..i] == rows[..i];
      if rows[i].0 in table {
        return table, false;
      }
      table := table[rows[i].0 := rows[i].1];
    }
    assert rows[..|rows|] == rows;
    ok := true;
  }

  // ----- exporting -----

  /** ORDER BY id */
  function IdOrder<T>(): ((Id, T), (Id, T)) -> bool {
    (a: (Id, T), b: (Id, T)) => a.0 < b.0
  }

  ghost function Rows<T(!new)>(table: map<Id, T>): (rows: seq<(Id, T)>)
    ensures SetOf(rows) == table.Items && Ascending(rows, IdOrder())
  {
    Ordered(table.Items, IdOrder())
  }

  function LinksOf(links: set<(Id, Id)>, owner: Id): set<Id> {
    set l | l in links && l.0 == owner :: l.1
  }

  function NumberOrder(): (Id, Id) -> bool {
    (a: Id, b: Id) => a < b
  }

  /** ORDER BY tag_id */
  ghost function TagIds(links: set<(Id, Id)>, owner: Id): (ids: seq<Id>)
    ensures SetOf(ids) == LinksOf(links, owner)
  {
    Ordered(LinksOf(links, owner), NumberOrder())
  }

  /** ORDER BY t.name */
  function NameOrder(tags: map<Id, string>, textLess: (string, string) -> bool): (Id, Id) -> bool {
    (a: Id, b: Id) => a in tags && b in tags && textLess(tags[a], tags[b])
  }

  /** ORDER BY display_order, id */
  function DisplayOrder(): ((Id, Project), (Id, Project)) -> bool {
    (a: (Id, Project), b: (Id, Project)) => a.1.order < b.1.order || (a.1.order == b.1.order && a.0 < b.0)
  }

  ghost function ProjectRows(projects: map<Id, Project>): (rows: seq<(Id, Project)>)
    ensures SetOf(rows) == projects.Items && Ascending(rows, DisplayOrder())
  {
    Ordered(projects.Items, DisplayOrder())
  }

  /** ORDER BY article_id, version_no */
  function VersionOrder(): ((Id, Version), (Id, Version)) -> bool {
    (a: (Id, Version), b: (Id, Version)) => a.1.article < b.1.article || (a.1.article == b.1.article && a.1.no < b.1.no)
  }

  /** ORDER BY created_at, id */
  function SessionOrder(): ((Id, Session), (Id, Session)) -> bool {
    (a: (Id, Session), b: (Id, Session)) =>
      a.1.createdAt < b.1.createdAt || (a.1.createdAt == b.1.createdAt && a.0 < b.0)
  }

  predicate Kept(s: Session, now: Time) {
    s.user.Some? && (s.expires.None? || s.expires.value > now)
  }

  function KeptSessions(c: Content, now: Time): map<Id, Session> {
    map id | id in c.sessions && Kept(c.sessions[id], now) :: c.sessions[id]
  }

  function KeptMessages(c: Content, now: Time): map<Id, Message> {
    map id | id in c.messages && c.messages[id].session in c.sessions && Kept(c.sessions[c.messages[id].session], now)
      :: c.messages[id]
  }

  /** The unique indexes and foreign keys over the columns modelled here. */
  predicate References(c: Content) {
    && (forall a, b :: a in c.tags && b in c.tags && c.tags[a] == c.tags[b] ==> a == b)
    && (forall a, b :: a in c.versions && b in c.versions && SameNumber(c.versions[a], c.versions[b]) ==> a == b)
    && (forall l :: l in c.projectTags ==> l.0 in c.projects && l.1 in c.tags)
    && (forall l :: l in c.articleTags ==> l.0 in c.articles && l.1 in c.tags)
    && (forall id :: id in c.versions ==> c.versions[id].article in c.articles)
    && (forall id :: id in c.sessions && c.sessions[id].user.Some? ==> c.sessions[id].user.value in c.users)
    && (forall id :: id in c.messages ==> c.messages[id].session in c.sessions)
  }

  predicate SameNumber(v: Version, w: Version) {
    v.article == w.article && v.no == w.no
  }

  /** A database as the schema keeps it: references hold, ids are positive, and the collation orders the tag names. */
  ghost predicate Consistent(c: Content, textLess: (string, string) -> bool) {
    References(c) && 0 !in c.tags && 0 !in c.projects && StrictTotal(c.tags.Values, textLess)
  }

  ghost function ProjectItemOf(c: Content, textLess: (string, string) -> bool, row: (Id, Project)): ProjectItem
    requires Consistent(c, textLess)
  {
    assert LinksOf(c.projectTags, row.0) <= c.tags.Keys;
    ProjectItem(row.0, row.1.data, Ordered(LinksOf(c.projectTags, row.0), NameOrder(c.tags, textLess)))
  }

  ghost function ProjectItems(c: Content, textLess: (string, string) -> bool): (items: seq<ProjectItem>)
    requires Consistent(c, textLess)
    ensures |items| == |ProjectRows(c.projects)|
    ensures forall i :: 0 <= i < |items| ==> items[i] == ProjectItemOf(c, textLess, ProjectRows(c.projects)[i])
  {
    seq(|ProjectRows(c.projects)|, i requires 0 <= i < |ProjectRows(c.projects)| =>
        ProjectItemOf(c, textLess, ProjectRows(c.projects)[i]))
  }

  ghost function ArticleItems(c: Content): (items: seq<ArticleItem>)
    ensures |items| == |Rows(c.articles)|
    ensures forall i :: 0 <= i < |items| ==>
              items[i] == ArticleItem(Rows(c.articles)[i].0, Rows(c.articles)[i].1,
                                      TagIds(c.articleTags, Rows(c.articles)[i].0))
  {
    seq(|Rows(c.articles)|, i requires 0 <= i < |Rows(c.articles)| =>
      ArticleItem(Rows(c.articles)[i].0, Rows(c.articles)[i].1, TagIds(c.articleTags, Rows(c.articles)[i].0)))
  }

  ghost function Export(c: Content, now: Time, textLess: (string, string) -> bool): Snapshot
    requires Consistent(c, textLess)
  {
    Snapshot(Rows(c.users), Rows(c.categories), Rows(c.tags), Rows(c.media), ProjectItems(c, textLess), ArticleItems(c),
             Ordered(c.versions.Items, VersionOrder()), Ordered(KeptSessions(c, now).Items, SessionOrder()),
             Rows(KeptMessages(c, now)))
  }

  // ----- restoring -----

  /** Projects are numbered anew by their place in the archive. */
  function LoadProjects(items: seq<ProjectItem>): seq<(Id, Project)> {
    seq(|items|, i requires 0 <= i < |items| => (items[i].id, Project(i + 1, items[i].data)))
  }

  function ArticleRows(items: seq<ArticleItem>): seq<(Id, string)> {
    seq(|items|, i requires 0 <= i < |items| => (items[i].id, items[i].data))
  }

  function ProjectLinks(items: seq<ProjectItem>): set<(Id, Id)> {
    set p, t | p in items && t in p.tagIds && t != 0 :: (p.id, t)
  }

  function ArticleLinks(items: seq<ArticleItem>): set<(Id, Id)> {
    set p, t | p in items && t in p.tagIds && t != 0 :: (p.id, t)
  }

  function Restored(s: Snapshot): Content {
    Content(Load(s.users), Load(s.categories), Load(s.tags), Load(s.media),
            Load(LoadProjects(s.projects)), ProjectLinks(s.projects),
            Load(ArticleRows(s.articles)), ArticleLinks(s.articles), Load(s.versions), Load(s.sessions),
            Load(s.messages))
  }

  // ----- round trip of the tables -----

  lemma LoadDistinct<T>(rows: seq<(Id, T)>)
    requires DistinctIds(rows)
    ensures Load(rows).Items == SetOf(rows)
  {
    var items := Load(rows).Items;
    forall r | r in items ensures r in SetOf(rows) {
      LoadHas(rows, r.0);
    }
    forall r | r in SetOf(rows) ensures r in items {
      LoadHas(rows, r.0);
      var i :| 0 <= i < |rows| && rows[i] == r;
      var j :| 0 <= j < |rows| && rows[j] == (r.0, Load(rows)[r.0]);
      assert i == j;
    }
  }

  lemma {:induction false} KeysOfLoad<T, U>(rows: seq<(Id, T)>, others: seq<(Id, U)>)
    requires |rows| == |others| && forall i :: 0 <= i < |rows| ==> rows[i].0 == others[i].0
    ensures Load(rows).Keys == Load(others).Keys
  {
    if rows != [] {
      KeysOfLoad(rows[..|rows| - 1], others[..|others| - 1]);
    }
  }

  lemma ProjectRowsDistinct(projects: map<Id, Project>)
    ensures DistinctIds(ProjectRows(projects)) && Load(ProjectRows(projects)) == projects
  {
    var rows := ProjectRows(projects);
    LoadItems(rows, projects);
    forall i, j | 0 <= i < j < |rows| ensures rows[i].0 != rows[j].0 {
      assert DisplayOrder()(rows[i], rows[j]);
    }
  }

  /** The restored projects keep their ids, and their list is the archive's list. */
  lemma RenumberedRows(c: Content, textLess: (string, string) -> bool)
    requires Consistent(c, textLess)
    ensures var loaded := LoadProjects(ProjectItems(c, textLess));
            Load(loaded).Keys == c.projects.Keys && ProjectRows(Load(loaded)) == loaded
  {
    var rows := ProjectRows(c.projects);
    var loaded := LoadProjects(ProjectItems(c, textLess));
    ProjectRowsDistinct(c.projects);
    KeysOfLoad(rows, loaded);
    assert DistinctIds(loaded);
    LoadDistinct(loaded);
    assert Ascending(loaded, DisplayOrder());
    OrderedIs(loaded, ProjectRows(Load(loaded)), DisplayOrder());
  }

  lemma ProjectLinksReturn(c: Content, textLess: (string, string) -> bool)
    requires Consistent(c, textLess)
    ensures ProjectLinks(ProjectItems(c, textLess)) == c.projectTags
  {
    var rows, items := ProjectRows(c.projects), ProjectItems(c, textLess);
    forall l | l in c.projectTags ensures l in ProjectLinks(items) {
      assert (l.0, c.projects[l.0]) in c.projects.Items;
      assert (l.0, c.projects[l.0]) in SetOf(rows);
      var i :| 0 <= i < |rows| && rows[i] == (l.0, c.projects[l.0]);
      assert l.1 in LinksOf(c.projectTags, l.0);
      assert l.1 in SetOf(items[i].tagIds);
      assert items[i] in items;
    }
    forall l | l in ProjectLinks(items) ensures l in c.projectTags {
      var p, t :| p in items && t in p.tagIds && t != 0 && l == (p.id, t);
      var i :| 0 <= i < |items| && items[i] == p;
      assert t in SetOf(p.tagIds);
    }
  }

  lemma ArticleLinkReturns(c: Content, l: (Id, Id))
    requires References(c) && l in c.articleTags && l.1 != 0
    ensures l in ArticleLinks(ArticleItems(c))
  {
    var rows, items := Rows(c.articles), ArticleItems(c);
    assert (l.0, c.articles[l.0]) in c.articles.Items;
    assert (l.0, c.articles[l.0]) in SetOf(rows);
    var i :| 0 <= i < |rows| && rows[i] == (l.0, c.articles[l.0]);
    assert l.1 in LinksOf(c.articleTags, l.0);
    assert l.1 in SetOf(items[i].tagIds);
    assert items[i] in items;
  }

  lemma ArticleLinksReturn(c: Content, textLess: (string, string) -> bool)
    requires Consistent(c, textLess)
    ensures ArticleLinks(ArticleItems(c)) == c.articleTags
  {
    var items := ArticleItems(c);
    forall l | l in c.articleTags ensures l in ArticleLinks(items) {
      ArticleLinkReturns(c, l);
    }
    forall l | l in ArticleLinks(items) ensures l in c.articleTags {
      var p, t :| p in items && t in p.tagIds && t != 0 && l == (p.id, t);
      var i :| 0 <= i < |items| && items[i] == p;
      assert t in SetOf(p.tagIds);
    }
  }

  lemma ArticlesReturn(c: Content)
    ensures Load(ArticleRows(ArticleItems(c))) == c.articles
  {
    assert ArticleRows(ArticleItems(c)) == Rows(c.articles);
    LoadItems(Rows(c.articles), c.articles);
  }

  /** What a restored export holds: everything, projects renumbered, expired and guest sessions left out. */
  lemma RestoredIs(c: Content, now: Time, textLess: (string, string) -> bool)
    requires Consistent(c, textLess)
    ensures var projects := Load(LoadProjects(ProjectItems(c, textLess)));
            Restored(Export(c, now, textLess)) ==
              c.(projects := projects, sessions := KeptSessions(c, now), messages := KeptMessages(c, now))
  {
    var s := Export(c, now, textLess);
    LoadItems(s.users, c.users);
    LoadItems(s.categories, c.categories);
    LoadItems(s.tags, c.tags);
    LoadItems(s.media, c.media);
    LoadItems(s.versions, c.versions);
    LoadItems(s.sessions, KeptSessions(c, now));
    LoadItems(s.messages, KeptMessages(c, now));
    ProjectLinksReturn(c, textLess);
    ArticleLinksReturn(c, textLess);
    ArticlesReturn(c);
  }

  lemma RestoredIsConsistent(c: Content, now: Time, textLess: (string, string) -> bool)
    requires Consistent(c, textLess)
    ensures Consistent(Restored(Export(c, now, textLess)), textLess)
  {
    RestoredIs(c, now, textLess);
    RenumberedRows(c, textLess);
  }

  lemma ProjectItemsReturn(c: Content, c': Content, textLess: (string, string) -> bool)
    requires Consistent(c, textLess) && Consistent(c', textLess)
    requires c'.projects == Load(LoadProjects(ProjectItems(c, textLess))) && c'.tags == c.tags
               && c'.projectTags == c.projectTags
    ensures ProjectItems(c', textLess) == ProjectItems(c, textLess)
  {
    RenumberedRows(c, textLess);
    var rows, rows' := ProjectRows(c.projects), ProjectRows(c'.projects);
    forall i | 0 <= i < |rows| ensures ProjectItems(c', textLess)[i] == ProjectItems(c, textLess)[i] {
      assert rows'[i].0 == rows[i].0 && rows'[i].1.data == rows[i].1.data;
    }
  }

  lemma KeptTwice(c: Content, c': Content, now: Time, later: Time)
    requires now <= later && c'.sessions == KeptSessions(c, now) && c'.messages == KeptMessages(c, now)
    ensures KeptSessions(c', later) == KeptSessions(c, later) && KeptMessages(c', later) == KeptMessages(c, later)
  {
  }

  /**
   Exporting at any later time after a restore gives exactly what exporting the original would have given then;
   at the same time, the very same snapshot.
   */
  lemma BackupRoundTrip(c: Content, now: Time, later: Time, textLess: (string, string) -> bool)
    requires Consistent(c, textLess) && now <= later
    ensures var c' := Restored(Export(c, now, textLess));
            Consistent(c', textLess) && Export(c', later, textLess) == Export(c, later, textLess)
  {
    var c' := Restored(Export(c, now, textLess));
    RestoredIs(c, now, textLess);
    RestoredIsConsistent(c, now, textLess);
    ProjectItemsReturn(c, c', textLess);
    KeptTwice(c, c', now, later);
  }

  /** Nothing of a guest's or an expired session leaves the site. */
  lemma ExportedSessionsAreKept(c: Content, now: Time, textLess: (string, string) -> bool, k: nat)
    requires Consistent(c, textLess)
    ensures var s := Export(c, now, textLess);
            && (k < |s.sessions| ==> Kept(s.sessions[k].1, now))
            && (k < |s.messages| ==> exists i :: 0 <= i < |s.sessions| && s.sessions[i].0 == s.messages[k].1.session)
  {
    var s := Export(c, now, textLess);
    LoadItems(s.sessions, KeptSessions(c, now));
    LoadItems(s.messages, KeptMessages(c, now));
    if k < |s.messages| {
      LoadHas(s.sessions, s.messages[k].1.session);
    }
  }

  /** A session is exported exactly if it is a user's and has not expired, and a message exactly with its session. */
  lemma ExportedIff(c: Content, now: Time, textLess: (string, string) -> bool, id: Id, session: Session,
                    message: Message)
    requires Consistent(c, textLess)
    ensures (id, session) in Export(c, now, textLess).sessions <==>
              && id in c.sessions && c.sessions[id] == session
              && session.user.Some? && (session.expires.Some? ==> now < session.expires.value)
    ensures (id, message) in Export(c, now, textLess).messages <==>
              && id in c.messages && c.messages[id] == message && message.session in c.sessions
              && var of := c.sessions[message.session]; of.user.Some? && (of.expires.Some? ==> now < of.expires.value)
  {
    var s := Export(c, now, textLess);
    InItems(KeptSessions(c, now), s.sessions, id, session);
    InItems(KeptMessages(c, now), s.messages, id, message);
  }

  lemma InItems<T(!new)>(table: map<Id, T>, rows: seq<(Id, T)>, id: Id, item: T)
    requires SetOf(rows) == table.Items
    ensures (id, item) in rows <==> id in table && table[id] == item
  {
    assert (id, item) in rows <==> (id, item) in SetOf(rows);
  }

  /**
   The schema in terms of sets: nothing refers to what is not there, and names and version numbers tell rows
   apart.
   */
  lemma ReferencesIff(c: Content)
    ensures References(c) <==>
              && (forall a, b :: a in c.tags && b in c.tags && a != b ==> c.tags[a] != c.tags[b])
              && (forall a, b :: a in c.versions && b in c.versions && a != b ==>
                    (c.versions[a].article, c.versions[a].no) != (c.versions[b].article, c.versions[b].no))
              && (set l | l in c.projectTags :: l.0) <= c.projects.Keys
              && (set l | l in c.projectTags :: l.1) <= c.tags.Keys
              && (set l | l in c.articleTags :: l.0) <= c.articles.Keys
              && (set l | l in c.articleTags :: l.1) <= c.tags.Keys
              && (set id | id in c.versions :: c.versions[id].article) <= c.articles.Keys
              && (set id | id in c.sessions && c.sessions[id].user.Some? :: c.sessions[id].user.value) <= c.users.Keys
              && (set id | id in c.messages :: c.messages[id].session) <= c.sessions.Keys
  {
  }
}
