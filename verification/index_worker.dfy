/**
 One RAG worker process, step by step, among everything that may happen between two of its steps:
 article writes, settings changes, new rebuild targets, the passing of time and a restart.

 Every database statement and every network call is one step. A call either is Done, or is Lost:
 the caller sees an error or a timeout, and the effect may or may not have taken place.
 */
module IndexWorker {
  import opened Basics
  import opened Articles
  import opened VectorPoints
  import opened IndexRow
  import Outbox

  const MINUTE: int := 60_000

  // ----- articles -----

  /** The columns the worker reads. */
  datatype Article = Article(title: string, summary: string, content: string,
                             status: ArticleStatus, scheduledAt: Option<Time>)

  predicate Visible(article: Article, now: Time) {
    VisibleAt(article.status, article.scheduledAt, now)
  }

  /** The two pure text functions of the package: the chunker and the source hash. */
  datatype Text = Text(split: string -> seq<string>, hash: (string, string, string) -> string)

  function Chunks(t: Text, article: Article): seq<string> {
    t.split(article.content)
  }

  function ChunkKey(t: Text, article: Article, a: ArticleId, epoch: nat, i: nat): Key {
    Key(epoch, a, i, t.hash(article.title, article.summary, article.content))
  }

  function Batch(t: Text, article: Article, a: ArticleId, epoch: nat, fingerprint: string): seq<Point> {
    var chunks := Chunks(t, article);
    seq(|chunks|, i requires 0 <= i < |chunks| =>
      Point(ChunkKey(t, article, a, epoch, i), Body(chunks[i], fingerprint)))
  }

  // ----- the state -----

  datatype Settings = Settings(enabled: bool, fingerprint: string)

  /** The values of the index row a task was started with. */
  datatype Snapshot = Snapshot(status: Status, epoch: nat, fingerprint: string, token: string)

  datatype Claimed = Claimed(article: ArticleId, id: nat, op: Outbox.Op, attempts: nat)

  /** What follows the deletion of an article's old points. */
  datatype After = Vanish | Bare | Keep(article: Article)

  /** Where processJob stands. */
  datatype Pc =
    | Start
    | Load
    | Judge(found: Option<Article>)
    | Purge(after: After)
    | Confirm
    | Hide
    | Recheck(article: Article)
    | Embed(article: Article)
    | Embedded(article: Article)
    | Insert(article: Article)
    | Verify(article: Article)
    | Succeeded
    | Broken(stale: bool)

  /** Where rebuild stands. */
  datatype Phase =
    | Check(next: Phase)
    | Drop
    | Create
    | List
    | Index(todo: seq<ArticleId>, pc: Pc)
    | Settle
    | Finish
    | FailUpdate
    | ReleaseUpdate

  /** The holder of workMu. */
  datatype Worker =
    | Idle
    | Polled(fingerprint: string)
    | Armed(fingerprint: string, snap: Snapshot)
    | Working(fingerprint: string, snap: Snapshot, token: string, queue: seq<Claimed>, pc: Pc)
    | Rebuild(snap: Snapshot, phase: Phase)

  datatype State = State(
    now: Time,
    articles: map<ArticleId, Article>,
    outbox: Outbox.Table,
    row: Option<Row>,
    settings: Settings,
    collection: Option<Points>,
    worker: Worker)

  function Stored(s: State): Points {
    if s.collection.Some? then s.collection.value else map[]
  }

  // ----- the steps -----

  datatype Outcome = Done | Lost(effect: bool)

  datatype Cmd =
    | Tick(elapsed: nat)
    | Write(a: ArticleId, article: Article)
    | Remove(a: ArticleId)
    | Save(settings: Settings)
    | Retarget(fp: string)
    | Restart
    | Stats(epoch: nat, articleCount: nat, chunkCount: nat)
    | Poll(o: Outcome)
    | Arm(o: Outcome)
    | Claim(picked: seq<ArticleId>, token: string, o: Outcome)
    | Work(o: Outcome)
    | Begin(fp: string, token: string, o: Outcome)
    | Step(o: Outcome, articleCount: nat, chunkCount: nat, todo: seq<ArticleId>)
    | Renew

  /** enqueueArticleRAGSyncTx: every article write enqueues in the same transaction. */
  function EnqueueFor(s: State, a: ArticleId, article: Article): Outbox.Table {
    Outbox.EnqueueArticle(s.outbox, a, article.status, article.scheduledAt, s.now)
  }

  function RetryDelay(attempts: nat): (d: int)
    ensures MINUTE <= d <= 256 * MINUTE
  {
    MINUTE * [1, 2, 4, 8, 16, 32, 64, 128, 256][if attempts > 8 then 8 else attempts]
  }

  /** The delay doubles with each attempt, up to the eighth. */
  lemma RetryDelayDoubles(attempts: nat)
    ensures RetryDelay(0) == MINUTE
    ensures RetryDelay(attempts + 1) == if attempts < 8 then 2 * RetryDelay(attempts) else RetryDelay(attempts)
  {
  }

  predicate InForce(s: State, snap: Snapshot) {
    Current(s.row, snap.status, snap.epoch, snap.fingerprint, snap.token, s.now)
  }

  /** assertIndexState: go on, or stop with the stale or the database error. */
  function Asserted(s: State, snap: Snapshot, o: Outcome, next: Pc): Pc {
    if o.Lost? then Broken(false) else if InForce(s, snap) then next else Broken(true)
  }

  /** One step of processJob: the collection and the position afterwards. */
  function JobNext(t: Text, s: State, snap: Snapshot, fp: string, a: ArticleId, op: Outbox.Op, pc: Pc, o: Outcome)
    : (Option<Points>, Pc)
  {
    match pc
    case Start => (s.collection, Asserted(s, snap, o, if op == Outbox.Delete then Purge(Vanish) else Load))
    case Load =>
      (s.collection, if o.Lost? then Broken(false) else Judge(if a in s.articles then Some(s.articles[a]) else None))
    case Judge(found) =>
      (s.collection,
       if found.None? || !Visible(found.value, s.now) then Purge(Vanish)
       else if o.Lost? then Broken(false)
       else if Chunks(t, found.value) == [] then Purge(Bare)
       else Purge(Keep(found.value)))
    case Purge(after) =>
      if s.collection.None? then (None, Broken(false))
      else if o.Lost? && !o.effect then (s.collection, Broken(false))
      else (Some(DeleteArticleAtEpoch(s.collection.value, a, snap.epoch)),
            if o.Lost? then Broken(false)
            else match after case Vanish => Confirm case Bare => Succeeded case Keep(article) => Recheck(article))
    case Confirm => (s.collection, Asserted(s, snap, o, Hide))
    case Hide => (s.collection, if o.Lost? then Broken(false) else Succeeded)
    case Recheck(article) => (s.collection, Asserted(s, snap, o, Embed(article)))
    case Embed(article) => (s.collection, if o.Lost? then Broken(false) else Embedded(article))
    case Embedded(article) => (s.collection, Asserted(s, snap, o, Insert(article)))
    case Insert(article) =>
      if s.collection.None? then (None, Broken(false))
      else if o.Lost? && !o.effect then (s.collection, Broken(false))
      else (Some(Upsert(s.collection.value, Batch(t, article, a, snap.epoch, fp))),
            if o.Lost? then Broken(false) else Verify(article))
    case Verify(article) => (s.collection, Asserted(s, snap, o, Succeeded))
    case Succeeded => (s.collection, pc)
    case Broken(_) => (s.collection, pc)
  }

  /** The worker after its current job is closed. */
  function Advance(w: Worker): Worker
    requires w.Working?
  {
    if |w.queue| <= 1 then Idle else w.(queue := w.queue[1..], pc := Start)
  }

  function WorkNext(t: Text, s: State, o: Outcome): State
    requires s.worker.Working? && s.worker.queue != []
  {
    var w := s.worker;
    var job := w.queue[0];
    if w.pc.Succeeded? then
      s.(outbox := if o == Lost(false) then s.outbox else Outbox.Complete(s.outbox, job.id, w.token),
         worker := Advance(w))
    else if w.pc.Broken? then
      var runAfter := if w.pc.stale then s.now else s.now + RetryDelay(job.attempts);
      s.(outbox := if o == Lost(false) then s.outbox else Outbox.Release(s.outbox, job.id, w.token, runAfter),
         worker := Advance(w))
    else
      var (collection, pc) := JobNext(t, s, w.snap, w.fingerprint, job.article, job.op, w.pc, o);
      s.(collection := collection, worker := w.(pc := pc))
  }

  function ClaimNext(s: State, picked: seq<ArticleId>, token: string, o: Outcome): State
    requires s.worker.Armed?
    requires forall i :: 0 <= i < |picked| ==> picked[i] in s.outbox.jobs
  {
    // 24 minutes: request timeout times batch size plus one
    var outbox := Outbox.Claim(s.outbox, (set a | a in picked), token, s.now + 24 * MINUTE);
    if o == Lost(false) then s.(worker := Idle)
    else if o.Lost? || picked == [] then s.(outbox := outbox, worker := Idle)
    else
      var queue := seq(|picked|, i requires 0 <= i < |picked| =>
        Claimed(picked[i], outbox.jobs[picked[i]].id, outbox.jobs[picked[i]].op, outbox.jobs[picked[i]].attempts));
      s.(outbox := outbox, worker := Working(s.worker.fingerprint, s.worker.snap, token, queue, Start))
  }

  function BeginNext(s: State, fp: string, token: string, o: Outcome): State {
    var outcome := BeginOutcome(s.row, fp, token, s.now, 16 * MINUTE);
    var row := BeginRow(s.row, fp, token, s.now, 16 * MINUTE);
    if o == Lost(false) then s
    else if o.Lost? || !outcome.Granted? then s.(row := row)
    else s.(row := row, worker := Rebuild(Snapshot(Rebuilding, outcome.claim.epoch, fp, token), Check(Drop)))
  }

  function Loop(todo: seq<ArticleId>): Phase {
    if todo == [] then Check(Settle) else Check(Index(todo, Start))
  }

  /** ListRAGPublicArticles: the ids of the public articles; every job reads its article again. */
  predicate ListingOf(articles: map<ArticleId, Article>, now: Time, todo: seq<ArticleId>) {
    (forall a :: a in articles && Visible(articles[a], now) ==> a in todo)
    && (forall i :: 0 <= i < |todo| ==> todo[i] in articles && Visible(articles[todo[i]], now))
  }

  function RebuildNext(t: Text, s: State, o: Outcome, articleCount: nat, chunkCount: nat, todo: seq<ArticleId>): State
    requires s.worker.Rebuild?
  {
    var snap := s.worker.snap;
    var at := (phase: Phase) => s.worker.(phase := phase);
    match s.worker.phase
    case Check(next) => s.(worker := at(if o == Done && InForce(s, snap) then next else FailUpdate))
    case Drop =>
      s.(collection := if o == Lost(false) then s.collection else None,
         worker := at(if o.Done? then Check(Create) else FailUpdate))
    case Create =>
      s.(collection := if o == Lost(false) || s.collection.Some? then s.collection else Some(map[]),
         worker := at(if o.Done? && s.collection.None? then Check(List) else FailUpdate))
    case List => s.(worker := at(if o.Lost? then FailUpdate else Loop(todo)))
    case Index(todo, pc) =>
      if todo == [] then s
      else if pc.Succeeded? then s.(worker := at(Loop(todo[1..])))
      else if pc.Broken? then s.(worker := at(FailUpdate))
      else
        var (collection, pc') := JobNext(t, s, snap, snap.fingerprint, todo[0], Outbox.Upsert, pc, o);
        s.(collection := collection, worker := at(Index(todo, pc')))
    case Settle =>
      s.(worker := at(if o.Lost? then FailUpdate
                      else if !s.settings.enabled || s.settings.fingerprint != snap.fingerprint then ReleaseUpdate
                      else Finish))
    case Finish =>
      s.(row := if o == Lost(false) then s.row
                else CompleteRow(s.row, snap.epoch, snap.fingerprint, snap.token, articleCount, chunkCount, s.now),
         worker := Idle)
    case FailUpdate =>
      var row := FailRow(s.row, snap.epoch, snap.fingerprint, snap.token, Some("summary"), s.now);
      if o.Lost? then s.(row := if o.effect then row else s.row, worker := Idle)
      else if row != s.row then s.(row := row, worker := Idle)
      else s.(worker := at(ReleaseUpdate))
    case ReleaseUpdate =>
      s.(row := if o == Lost(false) then s.row else ReleaseRow(s.row, snap.epoch, snap.token, s.now), worker := Idle)
  }

  /** When a command can be the next thing to happen. */
  predicate Enabled(s: State, c: Cmd) {
    match c
    case Tick(_) => true
    case Write(_, _) => true
    case Remove(a) => a in s.articles
    case Save(_) => true
    case Retarget(fp) => fp != ""
    case Restart => true
    case Stats(_, _, _) => true
    case Poll(_) => s.worker.Idle?
    case Arm(_) => s.worker.Polled?
    case Claim(picked, token, _) =>
      && s.worker.Armed? && token != "" && |picked| <= 2
      && (forall i :: 0 <= i < |picked| ==>
            picked[i] in s.outbox.jobs && Outbox.Eligible(s.outbox.jobs[picked[i]], s.now))
      && (forall i, j :: 0 <= i < j < |picked| ==> picked[i] != picked[j])
    case Work(_) => s.worker.Working? && s.worker.queue != []
    case Begin(_, _, _) => s.worker.Idle?
    case Step(_, _, _, todo) => s.worker.Rebuild? && (s.worker.phase.List? ==> ListingOf(s.articles, s.now, todo))
    case Renew => s.worker.Rebuild?
  }

  /**
   Begin takes any fingerprint: a manual or queued rebuild may carry settings read long before.
   Renew is the lease guard's ticker; a guard that has given up shows as a Lost check.
   */
  function Next(t: Text, s: State, c: Cmd): State
    requires Enabled(s, c)
  {
    match c
    case Tick(elapsed) => s.(now := s.now + elapsed)
    case Write(a, article) => s.(articles := s.articles[a := article], outbox := EnqueueFor(s, a, article))
    case Remove(a) =>
      s.(articles := map b | b in s.articles && b != a :: s.articles[b],
         outbox := Outbox.Enqueue(s.outbox, a, Outbox.Delete, s.now))
    case Save(settings) => s.(settings := settings)
    case Retarget(fp) => s.(row := MarkRow(s.row, fp))
    case Restart => s.(worker := Idle)
    case Stats(epoch, articleCount, chunkCount) => s.(row := StatsRow(s.row, epoch, articleCount, chunkCount))
    case Poll(o) => s.(worker := if o.Done? && s.settings.enabled then Polled(s.settings.fingerprint) else Idle)
    case Arm(o) =>
      s.(worker := if o.Done? && s.row.Some? && s.row.value.status == Ready
                   then Armed(s.worker.fingerprint, Snapshot(Ready, s.row.value.epoch, s.row.value.fingerprint, ""))
                   else Idle)
    case Claim(picked, token, o) => ClaimNext(s, picked, token, o)
    case Work(o) => WorkNext(t, s, o)
    case Begin(fp, token, o) => BeginNext(s, fp, token, o)
    case Step(o, articleCount, chunkCount, todo) => RebuildNext(t, s, o, articleCount, chunkCount, todo)
    case Renew =>
      s.(row := RenewRow(s.row, s.worker.snap.epoch, s.worker.snap.fingerprint, s.worker.snap.token, s.now,
                         16 * MINUTE))
  }

  predicate Runs(t: Text, s: State, cmds: seq<Cmd>, s': State)
    decreases |cmds|
  {
    if cmds == [] then s == s'
    else Enabled(s, cmds[0]) && Runs(t, Next(t, s, cmds[0]), cmds[1..], s')
  }

  lemma {:induction false} RunsOn(t: Text, s: State, cmds: seq<Cmd>, s': State, c: Cmd)
    requires Runs(t, s, cmds, s') && Enabled(s', c)
    ensures Runs(t, s, cmds + [c], Next(t, s', c))
    decreases |cmds|
  {
    if cmds == [] {
      assert cmds + [c] == [c];
      assert Runs(t, Next(t, s', c), [], Next(t, s', c));
    } else {
      assert (cmds + [c])[1..] == cmds[1..] + [c];
      RunsOn(t, Next(t, s, cmds[0]), cmds[1..], s', c);
    }
  }

  /** A freshly migrated database: no articles, no jobs, the initial row, RAG switched off. */
  const INITIAL := State(0, map[], Outbox.Table(map[], 1), Some(FRESH), Settings(false, ""), None, Idle)
}
