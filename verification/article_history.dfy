/**
 Article writes and their version history. Every write of an existing article first stores a numbered
 snapshot of what it replaces; restoring a version is such a write too. Each write is one transaction:
 when any statement fails, all three tables are as before.
 */
module ArticleHistory {
  import opened Basics
  import opened Articles
  import Outbox

  type Id = nat

  /** What a caller of UpdateArticle chooses, without the tags. Category 0 is none. */
  datatype Edit = Edit(
    category: Id, title: string, slug: string, summary: string, content: string, coverUrl: string,
    status: ArticleStatus, scheduledAt: Option<Time>, pinned: bool, priority: int,
    seoTitle: string, seoDescription: string, seoKeywords: string)

  datatype Article = Article(author: Id, edit: Edit, publishedAt: Option<Time>, views: nat, likes: nat, createdAt: Time)

  datatype Version = Version(changedBy: Id, article: Article, tags: set<Id>)

  /**
   The three tables, the counter behind AUTO_INCREMENT, and the ids of the tags and categories that exist:
   foreign keys tie articles and versions to categories, and articles to tags.
   */
  datatype Tables = Tables(
    articles: map<Id, Article>, tags: map<Id, set<Id>>, versions: map<Id, map<nat, Version>>, nextId: Id,
    knownTags: set<Id>, knownCategories: set<Id>)

  /** Refused: the slug belongs to another article, or a category or tag does not exist. */
  datatype Error = NotFound | Refused

  // ----- publication time -----

  function PublishedAtForCreate(status: ArticleStatus, scheduledAt: Option<Time>, now: Time): (at: Option<Time>)
    ensures at.Some? <==> status == Published
  {
    if status != Published then None else if scheduledAt.Some? then scheduledAt else Some(now)
  }

  function PublishedAtForUpdate(current: ArticleStatus, at: Option<Time>, next: ArticleStatus,
                                scheduledAt: Option<Time>, now: Time): (at': Option<Time>)
    ensures next == Published || at.Some? ==> at'.Some?
  {
    if next != Published then at
    else if scheduledAt.Some? then scheduledAt
    else if current == Published && at.Some? then at
    else Some(now)
  }

  /** Publishing again keeps the first publication time only while the article is still published. */
  lemma FirstPublicationKeptIff(current: ArticleStatus, first: Time, now: Time)
    ensures PublishedAtForUpdate(current, Some(first), Published, None, now) == Some(first) <==>
              current == Published || now == first
  {
  }

  /** A new article is to be seen exactly from its publication time on. */
  lemma CreatePublishes(status: ArticleStatus, scheduledAt: Option<Time>, now: Time, later: Time)
    requires now <= later
    ensures var at := PublishedAtForCreate(status, scheduledAt, now);
            VisibleAt(status, scheduledAt, later) <==> at.Some? && at.value <= later
  {
  }

  /**
   An unpublished article keeps its publication time; a schedule sets it; otherwise publishing anew sets it to
   now.
   */
  lemma UpdatePublishes(current: ArticleStatus, at: Option<Time>, next: ArticleStatus, scheduledAt: Option<Time>,
                        now: Time)
    ensures var at' := PublishedAtForUpdate(current, at, next, scheduledAt, now);
            && (next != Published ==> at' == at)
            && (next == Published && scheduledAt.Some? ==> at' == scheduledAt)
            && (next == Published && scheduledAt.None? && current != Published ==> at' == Some(now))
  {
  }

  // ----- tags -----

  function Positive(values: seq<Id>): set<Id> {
    set v | v in values && v != 0
  }

  lemma PositiveIs(values: seq<Id>, v: Id)
    ensures v in Positive(values) <==> v > 0 && exists i :: 0 <= i < |values| && values[i] == v
  {
  }

  method UniqueUint64(values: seq<Id>) returns (out: seq<Id>)
    ensures forall i, j :: 0 <= i < j < |out| ==> out[i] != out[j]
    ensures (set v | v in out) == Positive(values)
    ensures forall i, j :: 0 <= i < j < |out| ==> FirstAt(values, out[i]) < FirstAt(values, out[j])
  {
    var seen: set<Id> := {};
    out := [];
    for k := 0 to |values|
      invariant seen == (set v | v in out) == Positive(values[..k])
      invariant forall i, j :: 0 <= i < j < |out| ==> out[i] != out[j]
      invariant forall i :: 0 <= i < |out| ==> FirstAt(values, out[i]) < k
      invariant forall i, j :: 0 <= i < j < |out| ==> FirstAt(values, out[i]) < FirstAt(values, out[j])
    {
      var value := values[k];
      assert values[..k + 1] == values[..k] + [value];
      if value != 0 && value !in seen {
        FirstAtIs(values, k);
        seen := seen + {value};
        out := out + [value];
      }
    }
    assert values[..|values|] == values;
  }

  /** The index of the first occurrence. */
  function FirstAt(values: seq<Id>, v: Id): (n: nat)
    ensures n <= |values| && forall i :: 0 <= i < n ==> values[i] != v
  {
    if values == [] || values[0] == v then 0 else 1 + FirstAt(values[1..], v)
  }

  lemma {:induction false} FirstAtIs(values: seq<Id>, k: nat)
    requires k < |values| && values[k] !in values[..k]
    ensures FirstAt(values, values[k]) == k
  {
    if k > 0 {
      assert values[0] == values[..k][0] && values[1..][..k - 1] == values[..k][1..];
      FirstAtIs(values[1..], k - 1);
    }
  }

  // ----- version numbers -----

  lemma {:induction false} MaxExists(nos: set<nat>) returns (m: nat)
    requires nos != {}
    ensures m in nos && forall n :: n in nos ==> n <= m
    decreases |nos|
  {
    var n :| n in nos;
    var others := nos - {n};
    assert forall k :: k in nos ==> k == n || k in others;
    if others == {} {
      m := n;
    } else {
      var rest := MaxExists(others);
      m := if n < rest then rest else n;
    }
  }

  lemma HasMax(nos: set<nat>)
    ensures nos != {} ==> exists m :: m in nos && forall n :: n in nos ==> n <= m
  {
    if nos != {} {
      var m := MaxExists(nos);
    }
  }

  /** COALESCE(MAX(version_no), 0) */
  function LastNo(nos: set<nat>): (m: nat)
    ensures nos == {} ==> m == 0
    ensures nos != {} ==> m in nos
    ensures forall n :: n in nos ==> n <= m
  {
    HasMax(nos);
    if nos == {} then 0 else var m :| m in nos && forall n :: n in nos ==> n <= m; m
  }

  /** Numbered 1, 2, ..., n. */
  ghost predicate Dense(versions: map<nat, Version>) {
    forall n: nat :: n in versions <==> 1 <= n <= LastNo(versions.Keys)
  }

  lemma LastNoIs(nos: set<nat>, m: nat)
    requires m in nos && forall n :: n in nos ==> n <= m
    ensures LastNo(nos) == m
  {
  }

  lemma DenseMore(versions: map<nat, Version>, v: Version)
    requires Dense(versions)
    ensures var next := LastNo(versions.Keys) + 1;
            && next !in versions
            && LastNo(versions[next := v].Keys) == next
            && Dense(versions[next := v])
  {
    var next := LastNo(versions.Keys) + 1;
    LastNoIs(versions[next := v].Keys, next);
  }

  // ----- the writes -----

  function TagsOf(t: Tables, id: Id): set<Id> {
    if id in t.tags then t.tags[id] else {}
  }

  function VersionsOf(t: Tables, id: Id): map<nat, Version> {
    if id in t.versions then t.versions[id] else map[]
  }

  function NextNo(t: Tables, id: Id): nat {
    LastNo(VersionsOf(t, id).Keys) + 1
  }

  /** createArticleVersion */
  function Snapshot(t: Tables, id: Id, user: Id): Tables
    requires id in t.articles
  {
    var version := Version(user, t.articles[id], TagsOf(t, id));
    t.(versions := t.versions[id := VersionsOf(t, id)[NextNo(t, id) := version]])
  }

  /** The unique index on the slug, exact comparison. */
  predicate SlugFree(t: Tables, id: Id, slug: string) {
    forall other :: other in t.articles && other != id ==> t.articles[other].edit.slug != slug
  }

  predicate CategoryKnown(t: Tables, category: Id) {
    category == 0 || category in t.knownCategories
  }

  /** What the unique index and the foreign keys ask of a row. */
  predicate Accepts(t: Tables, id: Id, edit: Edit, tags: set<Id>) {
    SlugFree(t, id, edit.slug) && CategoryKnown(t, edit.category) && tags <= t.knownTags
  }

  datatype Result = Ok(tables: Tables) | Err(error: Error)

  function RowSet(t: Tables, id: Id, edit: Edit, publishedAt: Option<Time>): Tables
    requires id in t.articles
  {
    t.(articles := t.articles[id := t.articles[id].(edit := edit, publishedAt := publishedAt)])
  }

  function Written(t: Tables, id: Id, edit: Edit, publishedAt: Option<Time>, tags: set<Id>): Tables
    requires id in t.articles
  {
    RowSet(t, id, edit, publishedAt).(tags := t.tags[id := tags])
  }

  function Created(t: Tables, author: Id, edit: Edit, tags: set<Id>, now: Time): Result {
    if !Accepts(t, t.nextId, edit, tags) then Err(Refused)
    else
      var article := Article(author, edit, PublishedAtForCreate(edit.status, edit.scheduledAt, now), 0, 0, now);
      Ok(t.(articles := t.articles[t.nextId := article], tags := t.tags[t.nextId := tags], nextId := t.nextId + 1))
  }

  function Updated(t: Tables, id: Id, edit: Edit, tags: set<Id>, user: Id, now: Time): Result {
    if id !in t.articles then Err(NotFound)
    else if !Accepts(t, id, edit, tags) then Err(Refused)
    else
      var current := t.articles[id];
      var at := PublishedAtForUpdate(current.edit.status, current.publishedAt, edit.status, edit.scheduledAt, now);
      Ok(Written(Snapshot(t, id, user), id, edit, at, tags))
  }

  /** Switching the status is immediate: it forgets the schedule. */
  function StatusSet(t: Tables, id: Id, status: ArticleStatus, user: Id, now: Time): Result {
    if id !in t.articles then Err(NotFound)
    else
      var current := t.articles[id];
      var at := PublishedAtForUpdate(current.edit.status, current.publishedAt, status, None, now);
      Ok(RowSet(Snapshot(t, id, user), id, current.edit.(status := status, scheduledAt := None), at))
  }

  /** The snapshot of the present state is stored first, so its own number can already be restored. */
  function Restored(t: Tables, id: Id, no: nat, user: Id): Result {
    if id !in t.articles then Err(NotFound)
    else
      var s := Snapshot(t, id, user);
      if no !in s.versions[id] then Err(NotFound)
      else
        var v := s.versions[id][no];
        if !Accepts(t, id, v.article.edit, v.tags) then Err(Refused)
        else Ok(Written(s, id, v.article.edit, v.article.publishedAt, v.tags))
  }

  function Deleted(t: Tables, id: Id): Result {
    if id !in t.articles then Err(NotFound)
    else Ok(t.(articles := t.articles - {id}, tags := t.tags - {id}, versions := t.versions - {id}))
  }

  /** Deleting a tag takes it off every article; versions keep it in their JSON list. */
  function TagDropped(t: Tables, tag: Id): Tables {
    t.(tags := map id | id in t.tags :: t.tags[id] - {tag}, knownTags := t.knownTags - {tag})
  }

  function Detached(a: Article, category: Id): Article {
    if a.edit.category == category then a.(edit := a.edit.(category := 0)) else a
  }

  function DetachedAll(versions: map<nat, Version>, category: Id): map<nat, Version> {
    map n | n in versions :: versions[n].(article := Detached(versions[n].article, category))
  }

  /** Deleting a category sets it to NULL in articles and, by ON DELETE SET NULL, in their versions too. */
  function CategoryDropped(t: Tables, category: Id): Tables {
    t.(articles := map id | id in t.articles :: Detached(t.articles[id], category),
       versions := map id | id in t.versions :: DetachedAll(t.versions[id], category),
       knownCategories := t.knownCategories - {category})
  }

  function Viewed(t: Tables, id: Id, views: nat, likes: nat): Tables {
    if id !in t.articles then t
    else
      var a := t.articles[id];
      t.(articles := t.articles[id := a.(views := a.views + views, likes := a.likes + likes)])
  }

  /** The job a write leaves for an article it has written. */
  function QueuedAs(t: Tables, id: Id, outbox: Outbox.Table, now: Time): Outbox.Table
    requires id in t.articles
  {
    Outbox.EnqueueArticle(outbox, id, t.articles[id].edit.status, t.articles[id].edit.scheduledAt, now)
  }

  // ----- the store -----

  class ArticleStore {
    var articles: map<Id, Article>
    var tags: map<Id, set<Id>>
    var versions: map<Id, map<nat, Version>>
    var nextId: Id
    var knownTags: set<Id>
    var knownCategories: set<Id>
    /** rag_sync_jobs: every write of an article enqueues in its own transaction. */
    var outbox: Outbox.Table

    constructor ()
      ensures Contents() == EMPTY && outbox == Outbox.Table(map[], 1)
    {
      articles, tags, versions, nextId, knownTags, knownCategories := map[], map[], map[], 1, {}, {};
      outbox := Outbox.Table(map[], 1);
    }

    ghost function Contents(): Tables
      reads this
    {
      Tables(articles, tags, versions, nextId, knownTags, knownCategories)
    }

    /** WithTx: an error puts the tables back. */
    method Rollback(articles: map<Id, Article>, tags: map<Id, set<Id>>, versions: map<Id, map<nat, Version>>)
      modifies `articles, `tags, `versions
      ensures this.articles == articles && this.tags == tags && this.versions == versions
    {
      this.articles, this.tags, this.versions := articles, tags, versions;
    }

    method Enqueue(id: Id, status: ArticleStatus, scheduledAt: Option<Time>, now: Time)
      modifies `outbox
      ensures outbox == Outbox.EnqueueArticle(old(outbox), id, status, scheduledAt, now)
    {
      var operation, runAfter := Outbox.Upsert, now;
      if status != Published {
        operation := Outbox.Delete;
      } else if scheduledAt.Some? && scheduledAt.value > runAfter {
        runAfter := scheduledAt.value;
      }
      outbox := Outbox.Enqueue(outbox, id, operation, runAfter);
    }

    method CreateArticleVersion(id: Id, user: Id) returns (error: Option<Error>)
      modifies `versions
      ensures id !in old(articles) ==> error == Some(NotFound) && Contents() == old(Contents())
      ensures id in old(articles) ==> error == None && Contents() == Snapshot(old(Contents()), id, user)
    {
      if id !in articles {
        return Some(NotFound);
      }
      var tagIds := if id in tags then tags[id] else {};
      var present := if id in versions then versions[id] else map[];
      var no := LastNo(present.Keys) + 1;
      versions := versions[id := present[no := Version(user, articles[id], tagIds)]];
      error := None;
    }

    /** UPDATE articles ... WHERE id, refused when another article has the slug or the category does not exist. */
    method WriteRow(id: Id, edit: Edit, publishedAt: Option<Time>) returns (error: Option<Error>)
      requires id in articles
      modifies `articles
      ensures error == if SlugFree(old(Contents()), id, edit.slug) && CategoryKnown(old(Contents()), edit.category)
                       then None else Some(Refused)
      ensures error == None ==>
                articles == old(articles)[id := old(articles)[id].(edit := edit, publishedAt := publishedAt)]
    {
      if other :| other in articles && other != id && articles[other].edit.slug == edit.slug {
        return Some(Refused);
      }
      if edit.category != 0 && edit.category !in knownCategories {
        return Some(Refused);
      }
      articles := articles[id := articles[id].(edit := edit, publishedAt := publishedAt)];
      error := None;
    }

    /** replaceArticleTags: the old links go, then the new ones come, refused when a tag does not exist. */
    method ReplaceTags(id: Id, tagIds: set<Id>) returns (error: Option<Error>)
      modifies `tags
      ensures error == if tagIds <= knownTags then None else Some(Refused)
      ensures error == None ==> tags == old(tags)[id := tagIds]
    {
      tags := tags[id := {}];
      if !(tagIds <= knownTags) {
        return Some(Refused);
      }
      tags := tags[id := tagIds];
      error := None;
    }

    /** The ids of a request, without zeros and repetitions. */
    method LinkTags(id: Id, tagIds: seq<Id>) returns (error: Option<Error>)
      modifies `tags
      ensures error == if Positive(tagIds) <= knownTags then None else Some(Refused)
      ensures error == None ==> tags == old(tags)[id := Positive(tagIds)]
    {
      var unique := UniqueUint64(tagIds);
      var links := set v | v in unique;
      assert links == Positive(tagIds);
      error := ReplaceTags(id, links);
    }

    /** INSERT INTO articles: refused when another article has the slug or the category does not exist. */
    method InsertRow(article: Article) returns (error: Option<Error>)
      modifies `articles
      ensures error == if && SlugFree(old(Contents()), nextId, article.edit.slug)
                          && CategoryKnown(old(Contents()), article.edit.category)
                       then None else Some(Refused)
      ensures articles == if error == None then old(articles)[nextId := article] else old(articles)
    {
      if other :| other in articles && other != nextId && articles[other].edit.slug == article.edit.slug {
        return Some(Refused);
      }
      if article.edit.category != 0 && article.edit.category !in knownCategories {
        return Some(Refused);
      }
      articles := articles[nextId := article];
      error := None;
    }

    method CreateArticle(author: Id, edit: Edit, tagIds: seq<Id>, now: Time) returns (id: Id, error: Option<Error>)
      modifies this
      ensures var result := Created(old(Contents()), author, edit, Positive(tagIds), now);
              && (result.Ok? ==> error == None && id == old(nextId) && Contents() == result.tables
                                 && outbox == Outbox.EnqueueArticle(old(outbox), id, edit.status,
                                                                    edit.scheduledAt, now))
              && (result.Err? ==> error == Some(result.error) && Contents() == old(Contents()) && outbox == old(outbox))
    {
      id := nextId;
      var articles0, tags0, versions0 := articles, tags, versions;
      error := InsertRow(Article(author, edit, PublishedAtForCreate(edit.status, edit.scheduledAt, now), 0, 0, now));
      if error != None {
        return;
      }
      error := LinkTags(id, tagIds);
      if error != None {
        Rollback(articles0, tags0, versions0);
        return;
      }
      nextId := nextId + 1;
      Enqueue(id, edit.status, edit.scheduledAt, now);
    }

    method UpdateArticle(id: Id, edit: Edit, tagIds: seq<Id>, user: Id, now: Time) returns (error: Option<Error>)
      modifies this
      ensures var result := Updated(old(Contents()), id, edit, Positive(tagIds), user, now);
              && (result.Ok? ==> error == None && Contents() == result.tables
                                 && outbox == Outbox.EnqueueArticle(old(outbox), id, edit.status,
                                                                    edit.scheduledAt, now))
              && (result.Err? ==> error == Some(result.error) && Contents() == old(Contents()) && outbox == old(outbox))
    {
      var articles0, tags0, versions0 := articles, tags, versions;
      error := CreateArticleVersion(id, user);
      if error != None {
        return;
      }
      var current := articles[id];
      var at := PublishedAtForUpdate(current.edit.status, current.publishedAt, edit.status, edit.scheduledAt, now);
      error := WriteRow(id, edit, at);
      if error != None {
        Rollback(articles0, tags0, versions0);
        return;
      }
      error := LinkTags(id, tagIds);
      if error != None {
        Rollback(articles0, tags0, versions0);
        return;
      }
      Enqueue(id, edit.status, edit.scheduledAt, now);
    }

    method UpdateArticleStatus(id: Id, status: ArticleStatus, user: Id, now: Time) returns (error: Option<Error>)
      modifies this
      ensures var result := StatusSet(old(Contents()), id, status, user, now);
              && (result.Ok? ==> error == None && Contents() == result.tables
                                 && outbox == Outbox.EnqueueArticle(old(outbox), id, status, None, now))
              && (result.Err? ==> error == Some(result.error) && Contents() == old(Contents()) && outbox == old(outbox))
    {
      error := CreateArticleVersion(id, user);
      if error != None {
        return;
      }
      var current := articles[id];
      var at := PublishedAtForUpdate(current.edit.status, current.publishedAt, status, None, now);
      var next := current.edit.(status := status, scheduledAt := None);
      articles := articles[id := current.(edit := next, publishedAt := at)];
      Enqueue(id, status, None, now);
    }

    method RestoreArticleVersion(id: Id, no: nat, user: Id, now: Time) returns (error: Option<Error>)
      modifies this
      ensures var result := Restored(old(Contents()), id, no, user);
              && (result.Ok? ==> error == None && Contents() == result.tables
                                 && outbox == QueuedAs(result.tables, id, old(outbox), now))
              && (result.Err? ==> error == Some(result.error) && Contents() == old(Contents()) && outbox == old(outbox))
    {
      var articles0, tags0, versions0 := articles, tags, versions;
      error := CreateArticleVersion(id, user);
      if error != None {
        return;
      }
      if no !in versions[id] {
        Rollback(articles0, tags0, versions0);
        return Some(NotFound);
      }
      var version := versions[id][no];
      error := WriteRow(id, version.article.edit, version.article.publishedAt);
      if error != None {
        Rollback(articles0, tags0, versions0);
        return;
      }
      error := ReplaceTags(id, version.tags);
      if error != None {
        Rollback(articles0, tags0, versions0);
        return;
      }
      Enqueue(id, version.article.edit.status, version.article.edit.scheduledAt, now);
    }

    method DeleteArticle(id: Id, now: Time) returns (error: Option<Error>)
      modifies this
      ensures var result := Deleted(old(Contents()), id);
              && (result.Ok? ==> error == None && Contents() == result.tables
                                 && outbox == Outbox.Enqueue(old(outbox), id, Outbox.Delete, now))
              && (result.Err? ==> error == Some(result.error) && Contents() == old(Contents()) && outbox == old(outbox))
    {
      var articles0, tags0, versions0, outbox0 := articles, tags, versions, outbox;
      outbox := Outbox.Enqueue(outbox, id, Outbox.Delete, now);
      tags := tags - {id};
      versions := versions - {id};
      if id !in articles {
        Rollback(articles0, tags0, versions0);
        outbox := outbox0;
        return Some(NotFound);
      }
      articles := articles - {id};
      error := None;
    }
  }

  // ----- runs -----

  const EMPTY := Tables(map[], map[], map[], 1, {}, {})

  datatype Op =
    | Create(author: Id, edit: Edit, tags: set<Id>, now: Time)
    | Update(id: Id, edit: Edit, tags: set<Id>, user: Id, now: Time)
    | SetStatus(id: Id, status: ArticleStatus, user: Id, now: Time)
    | Restore(id: Id, no: nat, user: Id)
    | Remove(id: Id)
    | AddTag(tag: Id)
    | AddCategory(category: Id)
    | DropTag(tag: Id)
    | DropCategory(category: Id)
    | Count(id: Id, views: nat, likes: nat)

  function Settle(t: Tables, r: Result): Tables {
    if r.Ok? then r.tables else t
  }

  function Apply(t: Tables, op: Op): Tables {
    match op
    case Create(author, edit, tags, now) => Settle(t, Created(t, author, edit, tags, now))
    case Update(id, edit, tags, user, now) => Settle(t, Updated(t, id, edit, tags, user, now))
    case SetStatus(id, status, user, now) => Settle(t, StatusSet(t, id, status, user, now))
    case Restore(id, no, user) => Settle(t, Restored(t, id, no, user))
    case Remove(id) => Settle(t, Deleted(t, id))
    case AddTag(tag) => t.(knownTags := t.knownTags + {tag})
    case AddCategory(category) => t.(knownCategories := t.knownCategories + {category})
    case DropTag(tag) => TagDropped(t, tag)
    case DropCategory(category) => CategoryDropped(t, category)
    case Count(id, views, likes) => Viewed(t, id, views, likes)
  }

  function Exec(t: Tables, ops: seq<Op>): Tables
    decreases |ops|
  {
    if ops == [] then t else Exec(Apply(t, ops[0]), ops[1..])
  }

  /** A published article has a publication time. */
  predicate Dated(a: Article) {
    a.edit.status == Published ==> a.publishedAt.Some?
  }

  ghost predicate SoundVersions(t: Tables, versions: map<nat, Version>) {
    && Dense(versions)
    && forall n :: n in versions ==> Dated(versions[n].article) && CategoryKnown(t, versions[n].article.edit.category)
  }

  /** Foreign keys hold, publication times are there, and versions are numbered 1 to n. */
  ghost predicate Recorded(t: Tables) {
    && (forall id :: id in t.articles ==>
        id < t.nextId && Dated(t.articles[id]) && CategoryKnown(t, t.articles[id].edit.category))
    && (forall id :: id in t.tags ==> t.tags[id] <= t.knownTags)
    && (forall id :: id in t.versions ==> id in t.articles && SoundVersions(t, t.versions[id]))
  }

  lemma EmptyIsDense()
    ensures Dense(map[])
  {
    var none: map<nat, Version> := map[];
    assert none.Keys == {};
  }

  lemma SameCategories(t: Tables, t': Tables, versions: map<nat, Version>)
    requires SoundVersions(t, versions) && t.knownCategories <= t'.knownCategories
    ensures SoundVersions(t', versions)
  {
  }

  lemma OneMoreIsSound(t: Tables, versions: map<nat, Version>, v: Version)
    requires SoundVersions(t, versions) && Dated(v.article) && CategoryKnown(t, v.article.edit.category)
    ensures SoundVersions(t, versions[LastNo(versions.Keys) + 1 := v])
  {
    DenseMore(versions, v);
  }

  lemma SnapshotKeepsRecords(t: Tables, id: Id, user: Id)
    requires Recorded(t) && id in t.articles
    ensures Recorded(Snapshot(t, id, user))
  {
    var s := Snapshot(t, id, user);
    EmptyIsDense();
    OneMoreIsSound(t, VersionsOf(t, id), Version(user, t.articles[id], TagsOf(t, id)));
    forall other | other in s.versions ensures SoundVersions(s, s.versions[other]) {
      SameCategories(t, s, s.versions[other]);
    }
  }

  lemma RowKeepsRecords(t: Tables, id: Id, edit: Edit, at: Option<Time>)
    requires Recorded(t) && id in t.articles && (edit.status == Published ==> at.Some?)
               && CategoryKnown(t, edit.category)
    ensures Recorded(RowSet(t, id, edit, at))
  {
    SameVersions(t, RowSet(t, id, edit, at));
  }

  lemma WrittenKeepsRecords(t: Tables, id: Id, edit: Edit, at: Option<Time>, tags: set<Id>)
    requires Recorded(t) && id in t.articles && (edit.status == Published ==> at.Some?)
    requires CategoryKnown(t, edit.category) && tags <= t.knownTags
    ensures Recorded(Written(t, id, edit, at, tags))
  {
    RowKeepsRecords(t, id, edit, at);
    SameVersions(t, Written(t, id, edit, at, tags));
  }

  lemma UpdateKeepsRecords(t: Tables, id: Id, edit: Edit, tags: set<Id>, user: Id, now: Time)
    requires Recorded(t)
    ensures Recorded(Settle(t, Updated(t, id, edit, tags, user, now)))
  {
    if Updated(t, id, edit, tags, user, now).Ok? {
      var current := t.articles[id];
      SnapshotKeepsRecords(t, id, user);
      WrittenKeepsRecords(Snapshot(t, id, user), id, edit,
        PublishedAtForUpdate(current.edit.status, current.publishedAt, edit.status, edit.scheduledAt, now), tags);
    }
  }

  lemma SameVersions(t: Tables, t': Tables)
    requires Recorded(t) && t.knownCategories <= t'.knownCategories
    requires forall id :: id in t'.versions ==> id in t.versions && t'.versions[id] == t.versions[id]
    ensures forall id :: id in t'.versions ==> SoundVersions(t', t'.versions[id])
  {
  }

  lemma StatusKeepsRecords(t: Tables, id: Id, status: ArticleStatus, user: Id, now: Time)
    requires Recorded(t)
    ensures Recorded(Settle(t, StatusSet(t, id, status, user, now)))
  {
    if id in t.articles {
      SnapshotKeepsRecords(t, id, user);
      var current := t.articles[id];
      RowKeepsRecords(Snapshot(t, id, user), id, current.edit.(status := status, scheduledAt := None),
        PublishedAtForUpdate(current.edit.status, current.publishedAt, status, None, now));
    }
  }

  lemma RestoreKeepsRecords(t: Tables, id: Id, no: nat, user: Id)
    requires Recorded(t)
    ensures Recorded(Settle(t, Restored(t, id, no, user)))
  {
    if Restored(t, id, no, user).Ok? {
      SnapshotKeepsRecords(t, id, user);
      var s := Snapshot(t, id, user);
      var v := s.versions[id][no];
      assert SoundVersions(s, s.versions[id]) && Dated(v.article);
      WrittenKeepsRecords(s, id, v.article.edit, v.article.publishedAt, v.tags);
    }
  }

  lemma DetachedIsSound(t: Tables, versions: map<nat, Version>, category: Id)
    requires SoundVersions(t, versions)
    ensures SoundVersions(CategoryDropped(t, category), DetachedAll(versions, category))
  {
    assert DetachedAll(versions, category).Keys == versions.Keys;
  }

  lemma CategoryKeepsRecords(t: Tables, category: Id)
    requires Recorded(t)
    ensures Recorded(CategoryDropped(t, category))
  {
    forall id | id in t.versions
      ensures SoundVersions(CategoryDropped(t, category), DetachedAll(t.versions[id], category))
    {
      DetachedIsSound(t, t.versions[id], category);
    }
  }

  lemma CreateKeepsRecords(t: Tables, author: Id, edit: Edit, tags: set<Id>, now: Time)
    requires Recorded(t)
    ensures Recorded(Settle(t, Created(t, author, edit, tags, now)))
  {
    SameVersions(t, Settle(t, Created(t, author, edit, tags, now)));
  }

  lemma TagKeepsRecords(t: Tables, tag: Id)
    requires Recorded(t)
    ensures Recorded(TagDropped(t, tag))
  {
    SameVersions(t, TagDropped(t, tag));
  }

  lemma RemoveKeepsRecords(t: Tables, id: Id)
    requires Recorded(t)
    ensures Recorded(Settle(t, Deleted(t, id)))
  {
    SameVersions(t, Settle(t, Deleted(t, id)));
  }

  lemma OthersKeepRecords(t: Tables, op: Op)
    requires Recorded(t) && (op.AddTag? || op.AddCategory? || op.Count?)
    ensures Recorded(Apply(t, op))
  {
    SameVersions(t, Apply(t, op));
  }

  lemma RecordedStep(t: Tables, op: Op)
    requires Recorded(t)
    ensures Recorded(Apply(t, op))
  {
    match op
    case Update(id, edit, tags, user, now) => UpdateKeepsRecords(t, id, edit, tags, user, now);
    case SetStatus(id, status, user, now) => StatusKeepsRecords(t, id, status, user, now);
    case Restore(id, no, user) => RestoreKeepsRecords(t, id, no, user);
    case DropCategory(category) => CategoryKeepsRecords(t, category);
    case Create(author, edit, tags, now) => CreateKeepsRecords(t, author, edit, tags, now);
    case DropTag(tag) => TagKeepsRecords(t, tag);
    case Remove(id) => RemoveKeepsRecords(t, id);
    case _ => OthersKeepRecords(t, op);
  }

  // ----- the unique index on the slug -----

  ghost predicate SlugsDiffer(t: Tables) {
    forall id :: id in t.articles ==> SlugFree(t, id, t.articles[id].edit.slug)
  }

  lemma RowKeepsSlugs(t: Tables, t': Tables, id: Id)
    requires SlugsDiffer(t) && id in t'.articles && t'.articles == t.articles[id := t'.articles[id]]
    requires SlugFree(t, id, t'.articles[id].edit.slug)
    ensures SlugsDiffer(t')
  {
  }

  lemma SameSlugs(t: Tables, t': Tables)
    requires SlugsDiffer(t)
    requires forall id :: id in t'.articles ==>
               id in t.articles && t'.articles[id].edit.slug == t.articles[id].edit.slug
    ensures SlugsDiffer(t')
  {
  }

  lemma SlugsStep(t: Tables, op: Op)
    requires SlugsDiffer(t)
    ensures SlugsDiffer(Apply(t, op))
  {
    if op.Create? {
      CreateKeepsSlugs(t, op);
    } else if op.Update? || op.Restore? {
      EditKeepsSlugs(t, op);
    } else {
      SameSlugs(t, Apply(t, op));
    }
  }

  lemma CreateKeepsSlugs(t: Tables, op: Op)
    requires SlugsDiffer(t) && op.Create?
    ensures SlugsDiffer(Apply(t, op))
  {
    if Created(t, op.author, op.edit, op.tags, op.now).Ok? {
      RowKeepsSlugs(t, Apply(t, op), t.nextId);
    }
  }

  lemma EditKeepsSlugs(t: Tables, op: Op)
    requires SlugsDiffer(t) && (op.Update? || op.Restore?)
    ensures SlugsDiffer(Apply(t, op))
  {
    if op.id in t.articles {
      RowKeepsSlugs(t, Apply(t, op), op.id);
    }
  }

  // ----- every run -----

  /** What the schema and the writes keep true of the tables. */
  ghost predicate Inv(t: Tables) {
    Recorded(t) && SlugsDiffer(t)
  }

  lemma InvStep(t: Tables, op: Op)
    requires Inv(t)
    ensures Inv(Apply(t, op))
  {
    RecordedStep(t, op);
    SlugsStep(t, op);
  }

  lemma EmptyInv()
    ensures Inv(EMPTY)
  {
  }

  /**
   In every state a run reaches, the versions of each article are numbered exactly 1, 2, ..., n, published
   articles and versions carry a publication time, and no two articles share a slug.
   */
  lemma {:induction false} InvRun(t: Tables, ops: seq<Op>)
    requires Inv(t)
    ensures Inv(Exec(t, ops))
    decreases |ops|
  {
    if ops != [] {
      InvStep(t, ops[0]);
      InvRun(Apply(t, ops[0]), ops[1..]);
    }
  }

  /** The same from the empty tables. */
  lemma EveryRunIsSound(ops: seq<Op>)
    ensures Inv(Exec(EMPTY, ops))
  {
    EmptyInv();
    InvRun(EMPTY, ops);
  }

  /** The writes that store a snapshot of the article first, and who makes them. */
  predicate Snapshots(op: Op, id: Id) {
    (op.Update? || op.SetStatus? || op.Restore?) && op.id == id
  }

  lemma SnapshotOf(t: Tables, id: Id, user: Id, other: Id)
    requires id in t.articles
    ensures VersionsOf(Snapshot(t, id, user), other) ==
              if other == id then VersionsOf(t, id)[NextNo(t, id) := Version(user, t.articles[id], TagsOf(t, id))]
              else VersionsOf(t, other)
  {
  }

  /**
   A write that succeeds adds the state it replaced, as number n + 1; deleting a category blanks it in the
   versions; nothing else ever changes the versions of an article that is not deleted.
   */
  lemma HistoryStep(t: Tables, op: Op, id: Id)
    requires Inv(t) && id in t.articles && op != Remove(id)
    ensures id in Apply(t, op).articles
    ensures var before, after := VersionsOf(t, id), VersionsOf(Apply(t, op), id);
            || (after == before && (Snapshots(op, id) ==> Apply(t, op) == t))
            || (Snapshots(op, id) && after == before[NextNo(t, id) := Version(op.user, t.articles[id], TagsOf(t, id))])
            || (op.DropCategory? && after == DetachedAll(before, op.category))
  {
    if op.Update? || op.SetStatus? || op.Restore? {
      WriteHistory(t, op, id);
      if op.id in t.articles {
        SnapshotOf(t, op.id, op.user, id);
      }
    } else {
      OtherHistory(t, op, id);
    }
  }

  lemma WriteHistory(t: Tables, op: Op, id: Id)
    requires id in t.articles && (op.Update? || op.SetStatus? || op.Restore?)
    ensures id in Apply(t, op).articles
    ensures Apply(t, op) == t || (op.id in t.articles && Apply(t, op).versions == Snapshot(t, op.id, op.user).versions)
  {
  }

  lemma OtherHistory(t: Tables, op: Op, id: Id)
    requires id in t.articles && op != Remove(id) && !(op.Update? || op.SetStatus? || op.Restore?)
    ensures id in Apply(t, op).articles
    ensures VersionsOf(Apply(t, op), id) ==
              if op.DropCategory? then DetachedAll(VersionsOf(t, id), op.category) else VersionsOf(t, id)
  {
    if op.DropCategory? && id !in t.versions {
      assert DetachedAll(map[], op.category) == map[];
    }
  }

  /** The same version, up to a category that was deleted meanwhile. */
  predicate Remembers(before: Version, after: Version, ops: seq<Op>) {
    || after == before
    || (DropCategory(before.article.edit.category) in ops
        && after == before.(article := Detached(before.article, before.article.edit.category)))
  }

  predicate Extends(before: map<nat, Version>, after: map<nat, Version>, ops: seq<Op>) {
    forall n :: n in before ==> n in after && Remembers(before[n], after[n], ops)
  }

  lemma ExtendsBySnapshot(before: map<nat, Version>, no: nat, v: Version, op: Op)
    requires no !in before
    ensures Extends(before, before[no := v], [op])
  {
  }

  lemma ExtendsByDetaching(before: map<nat, Version>, category: Id)
    ensures Extends(before, DetachedAll(before, category), [DropCategory(category)])
  {
  }

  lemma NextNoIsNew(t: Tables, id: Id)
    requires Inv(t)
    ensures NextNo(t, id) !in VersionsOf(t, id)
  {
    EmptyIsDense();
    assert id in t.versions ==> SoundVersions(t, t.versions[id]);
  }

  lemma HistoryExtends(t: Tables, op: Op, id: Id)
    requires Inv(t) && id in t.articles && op != Remove(id)
    ensures id in Apply(t, op).articles && Extends(VersionsOf(t, id), VersionsOf(Apply(t, op), id), [op])
  {
    HistoryStep(t, op, id);
    NextNoIsNew(t, id);
    if Snapshots(op, id) {
      ExtendsBySnapshot(VersionsOf(t, id), NextNo(t, id), Version(op.user, t.articles[id], TagsOf(t, id)), op);
    } else if op.DropCategory? {
      ExtendsByDetaching(VersionsOf(t, id), op.category);
    }
  }

  lemma RemembersMore(a: Version, b: Version, c: Version, op: Op, ops: seq<Op>)
    requires Remembers(a, b, [op]) && Remembers(b, c, ops)
    ensures Remembers(a, c, [op] + ops)
  {
  }

  lemma ExtendsMore(a: map<nat, Version>, b: map<nat, Version>, c: map<nat, Version>, op: Op, ops: seq<Op>)
    requires Extends(a, b, [op]) && Extends(b, c, ops)
    ensures Extends(a, c, [op] + ops)
  {
    forall n | n in a ensures n in c && Remembers(a[n], c[n], [op] + ops) {
      RemembersMore(a[n], b[n], c[n], op, ops);
    }
  }

  lemma ExtendsItself(versions: map<nat, Version>)
    ensures Extends(versions, versions, [])
  {
  }

  /** Over any run that keeps the article, every version stays where it is, as it is. */
  lemma {:induction false} HistoryRun(t: Tables, ops: seq<Op>, id: Id)
    requires Inv(t) && id in t.articles && Remove(id) !in ops
    ensures id in Exec(t, ops).articles && Extends(VersionsOf(t, id), VersionsOf(Exec(t, ops), id), ops)
    decreases |ops|
  {
    if ops == [] {
      ExtendsItself(VersionsOf(t, id));
    } else {
      var t1 := Apply(t, ops[0]);
      InvStep(t, ops[0]);
      HistoryExtends(t, ops[0], id);
      HistoryRun(t1, ops[1..], id);
      ExtendsMore(VersionsOf(t, id), VersionsOf(t1, id), VersionsOf(Exec(t, ops), id), ops[0], ops[1..]);
      assert [ops[0]] + ops[1..] == ops;
    }
  }

  /**
   A stored version can be restored exactly while no other article has its slug and none of its tags was
   deleted; everything in it comes back.
   */
  lemma RestoreReturnsVersion(t: Tables, id: Id, no: nat, user: Id)
    requires Inv(t) && id in t.articles && no in VersionsOf(t, id)
    ensures var v := VersionsOf(t, id)[no];
            var back := Restored(t, id, no, user);
            && (back.Ok? <==> SlugFree(t, id, v.article.edit.slug) && v.tags <= t.knownTags)
            && (back.Ok? ==>
                 && back.tables.articles[id].edit == v.article.edit
                 && back.tables.articles[id].publishedAt == v.article.publishedAt
                 && TagsOf(back.tables, id) == v.tags)
  {
    assert SoundVersions(t, t.versions[id]);
    assert no != NextNo(t, id);
    SnapshotOf(t, id, user, id);
  }

  lemma UpdateStores(t: Tables, op: Op)
    requires Inv(t) && op.Update? && Updated(t, op.id, op.edit, op.tags, op.user, op.now).Ok?
    ensures var no, after := NextNo(t, op.id), VersionsOf(Apply(t, op), op.id);
            && op.id in Apply(t, op).articles
            && no in after && after[no] == Version(op.user, t.articles[op.id], TagsOf(t, op.id))
  {
    SnapshotOf(t, op.id, op.user, op.id);
  }

  /**
   What an update replaces can be had back at any later time, after any other writes, tags included; only a
   category that was deleted meanwhile stays away.
   */
  lemma RestoreUndoesUpdate(t: Tables, id: Id, edit: Edit, tags: set<Id>, user: Id, now: Time, ops: seq<Op>, user': Id)
    requires Inv(t) && Updated(t, id, edit, tags, user, now).Ok? && Remove(id) !in ops
    ensures var later := Exec(Apply(t, Update(id, edit, tags, user, now)), ops);
            var back := Restored(later, id, NextNo(t, id), user');
            var was := t.articles[id];
            && id in later.articles
            && (back.Ok? <==> SlugFree(later, id, was.edit.slug) && TagsOf(t, id) <= later.knownTags)
            && (back.Ok? ==>
                 && TagsOf(back.tables, id) == TagsOf(t, id)
                 && back.tables.articles[id].publishedAt == was.publishedAt
                 && (back.tables.articles[id].edit == was.edit
                     || (DropCategory(was.edit.category) in ops
                         && back.tables.articles[id].edit == was.edit.(category := 0))))
  {
    var op := Update(id, edit, tags, user, now);
    var t1 := Apply(t, op);
    InvStep(t, op);
    UpdateStores(t, op);
    HistoryRun(t1, ops, id);
    InvRun(t1, ops);
    assert Remembers(Version(user, t.articles[id], TagsOf(t, id)), VersionsOf(Exec(t1, ops), id)[NextNo(t, id)], ops);
    RestoreReturnsVersion(Exec(t1, ops), id, NextNo(t, id), user');
  }

  /** A restore changes nothing but what an update could change: author, counters and creation time stay. */
  lemma RestoreKeepsTheRest(t: Tables, id: Id, no: nat, user: Id, other: Id)
    requires Restored(t, id, no, user).Ok? && other in t.articles
    ensures var t' := Restored(t, id, no, user).tables;
            && other in t'.articles
            && (other != id ==> t'.articles[other] == t.articles[other] && TagsOf(t', other) == TagsOf(t, other)
                                && VersionsOf(t', other) == VersionsOf(t, other))
            && t'.articles[other].(edit := t.articles[other].edit, publishedAt := t.articles[other].publishedAt)
               == t.articles[other]
  {
  }

  /** A number that does not exist yet can be restored exactly if it is the next one: the article stays as it is. */
  lemma NextNumberRestoresNothing(t: Tables, id: Id, no: nat, user: Id)
    requires Inv(t) && id in t.articles && no !in VersionsOf(t, id)
    ensures Restored(t, id, no, user).Ok? <==> no == NextNo(t, id)
    ensures Restored(t, id, no, user).Ok? ==>
              && Restored(t, id, no, user).tables.articles == t.articles
              && forall other :: TagsOf(Restored(t, id, no, user).tables, other) == TagsOf(t, other)
  {
    SnapshotOf(t, id, user, id);
    assert TagsOf(t, id) <= t.knownTags;
  }

  /** Deleting a tag makes every version that has it impossible to restore, for good unless the id returns. */
  lemma DeletedTagBlocksRestore(t: Tables, id: Id, no: nat, tag: Id, user: Id)
    requires Inv(t) && id in t.articles && no in VersionsOf(t, id) && tag in VersionsOf(t, id)[no].tags
    ensures Restored(TagDropped(t, tag), id, no, user) == Err(Refused)
  {
    InvStep(t, DropTag(tag));
    RestoreReturnsVersion(TagDropped(t, tag), id, no, user);
  }

  /** After the status interface has published an article it is visible at once, whatever schedule it had. */
  lemma PublishIsImmediate(t: Tables, id: Id, user: Id, now: Time)
    requires id in t.articles
    ensures var a := StatusSet(t, id, Published, user, now).tables.articles[id];
            a.edit.status == Published && a.edit.scheduledAt.None? && a.publishedAt.Some?
  {
  }

  // ----- what each write stores -----

  /** All of an article but what a write may edit. */
  predicate SameButEdit(a: Article, b: Article) {
    a.(edit := b.edit, publishedAt := b.publishedAt) == b
  }

  ghost predicate OthersAlone(t: Tables, t': Tables, id: Id) {
    forall other :: other != id ==>
      && (other in t'.articles <==> other in t.articles)
      && (other in t.articles ==> t'.articles[other] == t.articles[other])
      && TagsOf(t', other) == TagsOf(t, other) && VersionsOf(t', other) == VersionsOf(t, other)
  }

  /** An update that succeeds stores exactly the edit and the tags it was given, and leaves everything else. */
  lemma UpdateWrites(t: Tables, id: Id, edit: Edit, tags: set<Id>, user: Id, now: Time)
    requires Updated(t, id, edit, tags, user, now).Ok?
    ensures var t' := Updated(t, id, edit, tags, user, now).tables;
            && id in t.articles && id in t'.articles
            && t'.articles[id].edit == edit && TagsOf(t', id) == tags
            && SameButEdit(t.articles[id], t'.articles[id]) && OthersAlone(t, t', id)
            && t'.nextId == t.nextId && t'.knownTags == t.knownTags && t'.knownCategories == t.knownCategories
  {
  }

  /** It succeeds exactly for an article that exists, with a free slug, a known category and known tags. */
  lemma UpdateSucceedsIff(t: Tables, id: Id, edit: Edit, tags: set<Id>, user: Id, now: Time)
    ensures Updated(t, id, edit, tags, user, now).Ok? <==>
              && id in t.articles && SlugFree(t, id, edit.slug)
              && (edit.category == 0 || edit.category in t.knownCategories) && tags <= t.knownTags
    ensures Updated(t, id, edit, tags, user, now) == Err(NotFound) <==> id !in t.articles
  {
  }

  /** A new article has a fresh id, exactly what it was created with, and no views, likes or versions. */
  lemma CreateWrites(t: Tables, author: Id, edit: Edit, tags: set<Id>, now: Time)
    requires Inv(t) && Created(t, author, edit, tags, now).Ok?
    ensures var t', id := Created(t, author, edit, tags, now).tables, t.nextId;
            && id !in t.articles && id in t'.articles && t'.nextId == id + 1
            && t'.articles[id].author == author && t'.articles[id].edit == edit && TagsOf(t', id) == tags
            && t'.articles[id].views == 0 && t'.articles[id].likes == 0 && t'.articles[id].createdAt == now
            && VersionsOf(t', id) == map[]
  {
    assert t.nextId in t.versions ==> t.nextId in t.articles;
  }

  lemma CreateLeavesOthers(t: Tables, author: Id, edit: Edit, tags: set<Id>, now: Time)
    requires Created(t, author, edit, tags, now).Ok?
    ensures var t' := Created(t, author, edit, tags, now).tables;
            OthersAlone(t, t', t.nextId) && t'.knownTags == t.knownTags && t'.knownCategories == t.knownCategories
  {
  }

  lemma CreateSucceedsIff(t: Tables, author: Id, edit: Edit, tags: set<Id>, now: Time)
    requires Inv(t)
    ensures Created(t, author, edit, tags, now).Ok? <==>
              && (forall id :: id in t.articles ==> t.articles[id].edit.slug != edit.slug)
              && (edit.category == 0 || edit.category in t.knownCategories) && tags <= t.knownTags
  {
  }

  /** A status change changes the status, drops the schedule and may set the publication time; nothing else. */
  lemma StatusWrites(t: Tables, id: Id, status: ArticleStatus, user: Id, now: Time)
    requires id in t.articles
    ensures StatusSet(t, id, status, user, now).Ok?
    ensures var t' := StatusSet(t, id, status, user, now).tables;
            && id in t'.articles
            && t'.articles[id].edit == t.articles[id].edit.(status := status, scheduledAt := None)
            && SameButEdit(t.articles[id], t'.articles[id]) && OthersAlone(t, t', id)
            && TagsOf(t', id) == TagsOf(t, id) && t'.nextId == t.nextId
            && t'.knownTags == t.knownTags && t'.knownCategories == t.knownCategories
  {
  }

  /** A deleted article is gone with its tags and versions; all others stay. */
  lemma DeleteRemoves(t: Tables, id: Id)
    requires id in t.articles
    ensures Deleted(t, id).Ok?
    ensures var t' := Deleted(t, id).tables;
            && id !in t'.articles && TagsOf(t', id) == {} && VersionsOf(t', id) == map[]
            && OthersAlone(t, t', id) && t'.nextId == t.nextId
            && t'.knownTags == t.knownTags && t'.knownCategories == t.knownCategories
  {
  }

  /**
   A deleted category is known no more, and every article and version that had it is without one; nothing else
   changes.
   */
  lemma CategoryGoes(t: Tables, category: Id, id: Id)
    requires category != 0 && id in t.articles
    ensures var t' := CategoryDropped(t, category);
            && t'.knownCategories == t.knownCategories - {category} && t'.knownTags == t.knownTags
            && t'.articles.Keys == t.articles.Keys && t'.tags == t.tags && t'.nextId == t.nextId
            && t'.articles[id].edit.category != category
            && (t.articles[id].edit.category != category ==> t'.articles[id] == t.articles[id])
            && (t.articles[id].edit.category == category ==>
                  t'.articles[id] == t.articles[id].(edit := t.articles[id].edit.(category := 0)))
            && VersionsOf(t', id) == DetachedAll(VersionsOf(t, id), category)
  {
    assert DetachedAll(map[], category) == map[];
  }

  /** A deleted tag is known no more and on no article; other tags stay where they are. */
  lemma TagGoes(t: Tables, tag: Id, id: Id)
    ensures var t' := TagDropped(t, tag);
            && t'.knownTags == t.knownTags - {tag} && t'.knownCategories == t.knownCategories
            && TagsOf(t', id) == TagsOf(t, id) - {tag}
            && t'.articles == t.articles && t'.versions == t.versions && t'.nextId == t.nextId
  {
  }

  /** Views and likes are added to an article's counters and touch nothing else. */
  lemma CountersAdd(t: Tables, id: Id, views: nat, likes: nat)
    ensures id !in t.articles ==> Viewed(t, id, views, likes) == t
    ensures id in t.articles ==>
              var t', a := Viewed(t, id, views, likes), t.articles[id];
              && id in t'.articles && t'.articles[id].views == a.views + views
              && t'.articles[id].likes == a.likes + likes
              && t'.articles[id].(views := a.views, likes := a.likes) == a && OthersAlone(t, t', id)
              && TagsOf(t', id) == TagsOf(t, id) && VersionsOf(t', id) == VersionsOf(t, id)
  {
  }

  /** A new tag or category becomes known, and nothing else changes. */
  lemma VocabularyGrows(t: Tables, id: Id)
    ensures Apply(t, AddTag(id)) == t.(knownTags := Apply(t, AddTag(id)).knownTags)
    ensures forall tag :: tag in Apply(t, AddTag(id)).knownTags <==> tag in t.knownTags || tag == id
    ensures Apply(t, AddCategory(id)) == t.(knownCategories := Apply(t, AddCategory(id)).knownCategories)
    ensures forall c :: c in Apply(t, AddCategory(id)).knownCategories <==> c in t.knownCategories || c == id
  {
  }
}
