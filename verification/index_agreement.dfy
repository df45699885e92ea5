/**
 Index agreement: in every run of one worker process from an empty database, a ready index holds,
 for every article without an outbox row, exactly the chunks of its current public content.
 */
module IndexAgreement {
  import opened Basics
  import opened VectorPoints
  import opened IndexRow
  import opened IndexWorker
  import Outbox

  // ----- what the index should hold -----

  /** The article as the public may see it now. */
  function Public(s: State, a: ArticleId): Option<Article> {
    if a in s.articles && Visible(s.articles[a], s.now) then Some(s.articles[a]) else None
  }

  predicate IsChunk(t: Text, article: Option<Article>, k: Key) {
    && article.Some?
    && k.chunk < |Chunks(t, article.value)|
    && k == ChunkKey(t, article.value, k.article, k.epoch, k.chunk)
  }

  /** The points of one article at one epoch are exactly these chunks. */
  ghost predicate Matches(t: Text, points: Points, a: ArticleId, epoch: nat, article: Option<Article>) {
    forall k: Key :: k.article == a && k.epoch == epoch ==>
      && (k in points <==> IsChunk(t, article, k))
      && (k in points ==> points[k].content == Chunks(t, article.value)[k.chunk])
  }

  /** The agreement itself. */
  ghost predicate Agrees(t: Text, s: State) {
    s.row.Some? && s.row.value.status == Ready ==>
      forall a :: a !in s.outbox.jobs ==> Matches(t, Stored(s), a, s.row.value.epoch, Public(s, a))
  }

  // ----- the invariant -----

  predicate Publishable(s: State, a: ArticleId) {
    a in s.articles && s.articles[a].status.Published?
  }

  ghost predicate JobSound(s: State, a: ArticleId)
    requires a in s.outbox.jobs
  {
    var job := s.outbox.jobs[a];
    && (job.op == Outbox.Delete ==> !Publishable(s, a))
    && (job.op == Outbox.Upsert ==> Publishable(s, a))
    && (job.op == Outbox.Upsert && s.articles[a].scheduledAt.Some? ==> s.articles[a].scheduledAt.value <= job.runAfter)
    && (job.lease.Some? ==> job.runAfter <= s.now)
  }

  ghost predicate JobsSound(s: State) {
    forall a :: a in s.outbox.jobs ==> JobSound(s, a)
  }

  /** A publication that still lies in the future has its job waiting. */
  ghost predicate FutureQueued(s: State) {
    forall a :: a in s.articles && s.articles[a].status.Published? && !Visible(s.articles[a], s.now) ==>
      a in s.outbox.jobs
  }

  ghost predicate EpochsBounded(s: State) {
    forall k :: k in Stored(s) ==> k.epoch <= EpochOf(s.row)
  }

  /** What the position in a job says about the points, as long as nothing was written to the article since. */
  ghost predicate PcSound(t: Text, s: State, a: ArticleId, epoch: nat, pc: Pc) {
    match pc
    case Start => true
    case Load => true
    case Judge(found) => found == (if a in s.articles then Some(s.articles[a]) else None)
    case Purge(after) =>
      (match after
       case Vanish => !Publishable(s, a)
       case Bare => Public(s, a).Some? && Chunks(t, s.articles[a]) == []
       case Keep(article) => Public(s, a) == Some(article))
    case Confirm => !Publishable(s, a) && Matches(t, Stored(s), a, epoch, None)
    case Hide => !Publishable(s, a) && Matches(t, Stored(s), a, epoch, None)
    case Recheck(article) => Public(s, a) == Some(article) && Matches(t, Stored(s), a, epoch, None)
    case Embed(article) => Public(s, a) == Some(article) && Matches(t, Stored(s), a, epoch, None)
    case Embedded(article) => Public(s, a) == Some(article) && Matches(t, Stored(s), a, epoch, None)
    case Insert(article) => Public(s, a) == Some(article) && Matches(t, Stored(s), a, epoch, None)
    case Verify(article) => Matches(t, Stored(s), a, epoch, Public(s, a))
    case Succeeded => Matches(t, Stored(s), a, epoch, Public(s, a))
    case Broken(_) => true
  }

  /** The worker still holds the lease it took on this row: nothing was enqueued since. */
  predicate Held(s: State, token: string, job: Claimed) {
    job.article in s.outbox.jobs && Outbox.Named(s.outbox.jobs[job.article], job.id, token)
  }

  ghost predicate WorkingSound(t: Text, s: State)
    requires s.worker.Working?
  {
    var w := s.worker;
    && w.queue != []
    && w.snap.epoch == EpochOf(s.row)
    && (forall i :: 0 <= i < |w.queue| ==>
          w.queue[i].article in s.outbox.jobs && s.outbox.jobs[w.queue[i].article].id == w.queue[i].id)
    && (forall i, j :: 0 <= i < j < |w.queue| ==> w.queue[i].article != w.queue[j].article)
    && (forall i :: 0 <= i < |w.queue| && Held(s, w.token, w.queue[i]) ==>
          s.outbox.jobs[w.queue[i].article].op == w.queue[i].op)
    && (Held(s, w.token, w.queue[0]) ==> PcSound(t, s, w.queue[0].article, w.snap.epoch, w.pc))
  }

  /** Articles the rebuild is done with, or that were not public when it listed them. */
  ghost predicate Covered(t: Text, s: State, epoch: nat, todo: seq<ArticleId>) {
    forall a :: a !in s.outbox.jobs && a !in todo ==> Matches(t, Stored(s), a, epoch, Public(s, a))
  }

  ghost predicate NoPointsAt(s: State, epoch: nat) {
    forall k :: k in Stored(s) ==> k.epoch < epoch
  }

  ghost predicate PhaseSound(t: Text, s: State, epoch: nat, phase: Phase) {
    match phase
    case Check(next) => PhaseSound(t, s, epoch, next)
    case Drop => NoPointsAt(s, epoch)
    case Create => NoPointsAt(s, epoch)
    case List => NoPointsAt(s, epoch)
    case Index(todo, pc) =>
      && todo != []
      && Covered(t, s, epoch, todo)
      && (todo[0] !in s.outbox.jobs ==> PcSound(t, s, todo[0], epoch, pc))
    case Settle => Covered(t, s, epoch, [])
    case Finish => Covered(t, s, epoch, [])
    case FailUpdate => true
    case ReleaseUpdate => true
  }

  ghost predicate WorkerSound(t: Text, s: State) {
    match s.worker
    case Idle => true
    case Polled(_) => true
    case Armed(_, snap) => snap.epoch == EpochOf(s.row)
    case Working(_, _, _, _, _) => WorkingSound(t, s)
    case Rebuild(snap, phase) =>
      && s.row.Some? && s.row.value.status == Rebuilding
      && snap.epoch == s.row.value.epoch
      && PhaseSound(t, s, snap.epoch, phase)
  }

  ghost predicate IdsUnique(s: State) {
    && (forall a :: a in s.outbox.jobs ==> s.outbox.jobs[a].id < s.outbox.nextId)
    && (forall a, b :: a in s.outbox.jobs && b in s.outbox.jobs && s.outbox.jobs[a].id == s.outbox.jobs[b].id ==>
          a == b)
  }

  ghost predicate Inv(t: Text, s: State) {
    && IdsUnique(s) && JobsSound(s) && FutureQueued(s) && EpochsBounded(s)
    && Agrees(t, s)
    && WorkerSound(t, s)
  }

  // ----- steps that leave the points and the worker alone -----

  /** Nothing about this article changes between the two states. */
  predicate SameArticle(s: State, s': State, a: ArticleId) {
    && (a in s.articles <==> a in s'.articles)
    && (a in s.articles ==> s.articles[a] == s'.articles[a])
    && Public(s, a) == Public(s', a)
  }

  /** The environment changes an article only by enqueueing it, and never makes an index ready. */
  ghost predicate Quiet(s: State, s': State) {
    && s'.collection == s.collection && s'.worker == s.worker
    && EpochOf(s'.row) == EpochOf(s.row)
    && (s'.row.Some? && s'.row.value.status == Ready ==> s.row.Some? && s.row.value.status == Ready)
    && (s.row.Some? && s.row.value.status == Rebuilding ==> s'.row.Some? && s'.row.value.status == Rebuilding)
    && (forall a :: a in s.outbox.jobs ==> a in s'.outbox.jobs && s'.outbox.jobs[a].id == s.outbox.jobs[a].id)
    && (forall a :: a in s.outbox.jobs && s'.outbox.jobs[a].lease.Some? ==> s'.outbox.jobs[a] == s.outbox.jobs[a])
    && (forall a :: a in s'.outbox.jobs && a !in s.outbox.jobs ==> s'.outbox.jobs[a].lease.None?)
    && (forall a :: (a in s'.outbox.jobs ==> s'.outbox.jobs[a].lease.Some?) ==> SameArticle(s, s', a))
  }

  lemma PcFrame(t: Text, s: State, s': State, a: ArticleId, epoch: nat, pc: Pc)
    requires Stored(s) == Stored(s') && SameArticle(s, s', a) && PcSound(t, s, a, epoch, pc)
    ensures PcSound(t, s', a, epoch, pc)
  {
  }

  lemma {:induction false} PhaseFrame(t: Text, s: State, s': State, epoch: nat, phase: Phase)
    requires Quiet(s, s') && PhaseSound(t, s, epoch, phase)
    ensures PhaseSound(t, s', epoch, phase)
    decreases phase
  {
    if phase.Check? {
      PhaseFrame(t, s, s', epoch, phase.next);
    } else if phase.Index? && phase.todo[0] !in s'.outbox.jobs {
      PcFrame(t, s, s', phase.todo[0], epoch, phase.pc);
    }
  }

  lemma WorkingFrame(t: Text, s: State, s': State)
    requires Quiet(s, s') && s.worker.Working? && WorkingSound(t, s)
    ensures WorkingSound(t, s')
  {
    var w := s.worker;
    forall i | 0 <= i < |w.queue| && Held(s', w.token, w.queue[i]) ensures Held(s, w.token, w.queue[i]) {
    }
    if Held(s', w.token, w.queue[0]) {
      PcFrame(t, s, s', w.queue[0].article, w.snap.epoch, w.pc);
    }
  }

  lemma QuietKeeps(t: Text, s: State, s': State)
    requires Inv(t, s) && Quiet(s, s')
    ensures EpochsBounded(s') && Agrees(t, s') && WorkerSound(t, s')
  {
    match s.worker
    case Rebuild(snap, phase) => PhaseFrame(t, s, s', snap.epoch, phase);
    case Working(_, _, _, _, _) => WorkingFrame(t, s, s');
    case _ =>
  }

  /** Without a waiting job, or with a leased one, the passing of time does not change what is public. */
  lemma PublicIsSettled(s: State, a: ArticleId)
    requires JobsSound(s) && FutureQueued(s)
    requires a in s.outbox.jobs ==> s.outbox.jobs[a].lease.Some?
    ensures Publishable(s, a) ==> Visible(s.articles[a], s.now)
  {
    if a in s.outbox.jobs {
      assert JobSound(s, a);
    }
  }

  lemma TickStep(t: Text, s: State, c: Cmd)
    requires Inv(t, s) && c.Tick?
    ensures Inv(t, Next(t, s, c))
  {
    var s' := Next(t, s, c);
    forall a | a in s'.outbox.jobs ensures JobSound(s', a) {
      assert JobSound(s, a);
    }
    forall a | a in s'.outbox.jobs ==> s'.outbox.jobs[a].lease.Some? ensures SameArticle(s, s', a) {
      PublicIsSettled(s, a);
    }
    QuietKeeps(t, s, s');
  }

  /** A change to one article that enqueues it with the operation its new status calls for. */
  ghost predicate Enqueued(s: State, s': State, a: ArticleId, op: Outbox.Op, runAfter: Time) {
    && s' == s.(articles := s'.articles, outbox := Outbox.Enqueue(s.outbox, a, op, runAfter))
    && (forall b :: b != a ==>
          (b in s.articles <==> b in s'.articles) && (b in s.articles ==> s.articles[b] == s'.articles[b]))
    && JobSound(s', a)
  }

  lemma EnqueueQuiet(s: State, s': State, a: ArticleId, op: Outbox.Op, runAfter: Time)
    requires Enqueued(s, s', a, op, runAfter)
    ensures Quiet(s, s')
  {
    forall b | b in s'.outbox.jobs ==> s'.outbox.jobs[b].lease.Some? ensures SameArticle(s, s', b) {
      assert b != a;
    }
  }

  lemma EnqueueJobs(s: State, s': State, a: ArticleId, op: Outbox.Op, runAfter: Time)
    requires JobsSound(s) && IdsUnique(s) && FutureQueued(s) && Enqueued(s, s', a, op, runAfter)
    ensures JobsSound(s') && IdsUnique(s') && FutureQueued(s')
  {
    forall b | b in s'.outbox.jobs ensures JobSound(s', b) {
      if b != a {
        assert JobSound(s, b);
      }
    }
  }

  /** Whatever enqueues an article together with the change to it keeps the invariant. */
  lemma EnqueuedKeeps(t: Text, s: State, s': State, a: ArticleId, op: Outbox.Op, runAfter: Time)
    requires Inv(t, s) && Enqueued(s, s', a, op, runAfter)
    ensures Inv(t, s')
  {
    EnqueueJobs(s, s', a, op, runAfter);
    EnqueueQuiet(s, s', a, op, runAfter);
    QuietKeeps(t, s, s');
  }

  lemma WriteEnqueues(t: Text, s: State, c: Cmd)
    requires Enabled(s, c) && (c.Write? || c.Remove?)
    ensures c.a in Next(t, s, c).outbox.jobs
    ensures var job := Next(t, s, c).outbox.jobs[c.a]; Enqueued(s, Next(t, s, c), c.a, job.op, job.runAfter)
  {
  }

  lemma WriteStep(t: Text, s: State, c: Cmd)
    requires Inv(t, s) && Enabled(s, c) && (c.Write? || c.Remove?)
    ensures Inv(t, Next(t, s, c))
  {
    WriteEnqueues(t, s, c);
    var job := Next(t, s, c).outbox.jobs[c.a];
    EnqueuedKeeps(t, s, Next(t, s, c), c.a, job.op, job.runAfter);
  }

  /** A change to the index row by anybody but the worker's own claim, completion, failure and release. */
  predicate RowChanged(s: State, s': State) {
    && s' == s.(row := s'.row, settings := s'.settings)
    && EpochOf(s'.row) == EpochOf(s.row)
    && (s'.row.Some? && s'.row.value.status == Ready ==> s.row.Some? && s.row.value.status == Ready)
    && (s.row.Some? && s.row.value.status == Rebuilding ==> s'.row.Some? && s'.row.value.status == Rebuilding)
  }

  lemma RowChangedKeeps(t: Text, s: State, s': State)
    requires Inv(t, s) && RowChanged(s, s')
    ensures Inv(t, s')
  {
    forall a | a in s'.outbox.jobs ensures JobSound(s', a) {
      assert JobSound(s, a);
    }
    QuietKeeps(t, s, s');
  }

  lemma RowCommand(t: Text, s: State, c: Cmd)
    requires Enabled(s, c) && (c.Save? || c.Retarget? || c.Stats? || c.Renew?)
    ensures RowChanged(s, Next(t, s, c))
  {
  }

  lemma RowStep(t: Text, s: State, c: Cmd)
    requires Inv(t, s) && Enabled(s, c) && (c.Save? || c.Retarget? || c.Stats? || c.Renew?)
    ensures Inv(t, Next(t, s, c))
  {
    RowCommand(t, s, c);
    RowChangedKeeps(t, s, Next(t, s, c));
  }

  // ----- one step of a job -----

  lemma {:induction false} UpsertLookup(points: Points, batch: seq<Point>)
    requires forall i, j :: 0 <= i < j < |batch| ==> batch[i].key != batch[j].key
    ensures forall i :: 0 <= i < |batch| ==>
              batch[i].key in Upsert(points, batch) && Upsert(points, batch)[batch[i].key] == batch[i].body
    ensures forall k :: (forall i :: 0 <= i < |batch| ==> batch[i].key != k) ==>
              (k in Upsert(points, batch) <==> k in points) && (k in points ==> Upsert(points, batch)[k] == points[k])
  {
    if batch != [] {
      var rest := batch[..|batch| - 1];
      assert forall i :: 0 <= i < |rest| ==> batch[i] == rest[i];
      UpsertLookup(points, rest);
    }
  }

  /** Inserting the chunks of an article where it has no points yet makes its points match. */
  lemma InsertMatches(t: Text, points: Points, a: ArticleId, epoch: nat, article: Article, fp: string)
    requires Matches(t, points, a, epoch, None)
    ensures Matches(t, Upsert(points, Batch(t, article, a, epoch, fp)), a, epoch, Some(article))
  {
    var batch := Batch(t, article, a, epoch, fp);
    UpsertLookup(points, batch);
    var after := Upsert(points, batch);
    forall k: Key | k.article == a && k.epoch == epoch
      ensures k in after <==> IsChunk(t, Some(article), k)
      ensures k in after ==> after[k].content == Chunks(t, article)[k.chunk]
    {
      if IsChunk(t, Some(article), k) {
        assert batch[k.chunk].key == k;
      } else {
        assert forall i :: 0 <= i < |batch| ==> batch[i].key != k;
        assert k !in points;
      }
    }
  }

  /** The points outside one article and epoch are the same in both collections. */
  ghost predicate SameElsewhere(points: Points, points': Points, a: ArticleId, epoch: nat) {
    forall k: Key :: !(k.article == a && k.epoch == epoch) ==>
      (k in points <==> k in points') && (k in points ==> points[k] == points'[k])
  }

  lemma InsertElsewhereSame(t: Text, points: Points, a: ArticleId, epoch: nat, article: Article, fp: string)
    ensures SameElsewhere(points, Upsert(points, Batch(t, article, a, epoch, fp)), a, epoch)
  {
    UpsertLookup(points, Batch(t, article, a, epoch, fp));
  }

  /** A step of processJob touches only its own article at its own epoch. */
  lemma JobElsewhere(t: Text, s: State, snap: Snapshot, fp: string, a: ArticleId, op: Outbox.Op, pc: Pc, o: Outcome,
                     s': State)
    requires s' == s.(collection := JobNext(t, s, snap, fp, a, op, pc, o).0, worker := s'.worker)
    ensures SameElsewhere(Stored(s), Stored(s'), a, snap.epoch)
  {
    if pc.Insert? {
      InsertElsewhereSame(t, Stored(s), a, snap.epoch, pc.article, fp);
    }
  }

  /** What JobStep asks of the state before a step of processJob. */
  ghost predicate JobReady(t: Text, s: State, a: ArticleId, epoch: nat, op: Outbox.Op, pc: Pc) {
    && PcSound(t, s, a, epoch, pc)
    && (Publishable(s, a) ==> Visible(s.articles[a], s.now))
    && (op == Outbox.Delete ==> !Publishable(s, a))
  }

  /** Deleting and inserting are the two positions that change points. */
  lemma JobChanges(t: Text, s: State, snap: Snapshot, fp: string, a: ArticleId, op: Outbox.Op, pc: Pc, o: Outcome,
                   s': State)
    requires s' == s.(collection := JobNext(t, s, snap, fp, a, op, pc, o).0, worker := s'.worker)
    requires JobReady(t, s, a, snap.epoch, op, pc) && (pc.Purge? || pc.Insert?)
    ensures PcSound(t, s', a, snap.epoch, JobNext(t, s, snap, fp, a, op, pc, o).1)
  {
    if pc.Insert? {
      InsertMatches(t, Stored(s), a, snap.epoch, pc.article, fp);
    }
  }

  lemma JobReads(t: Text, s: State, snap: Snapshot, fp: string, a: ArticleId, op: Outbox.Op, pc: Pc, o: Outcome,
                 s': State)
    requires s' == s.(collection := JobNext(t, s, snap, fp, a, op, pc, o).0, worker := s'.worker)
    requires JobReady(t, s, a, snap.epoch, op, pc) && !pc.Purge? && !pc.Insert?
    ensures PcSound(t, s', a, snap.epoch, JobNext(t, s, snap, fp, a, op, pc, o).1)
  {
  }

  /** A step of processJob keeps what its position says and touches only its own article at its own epoch. */
  lemma JobStep(t: Text, s: State, snap: Snapshot, fp: string, a: ArticleId, op: Outbox.Op, pc: Pc, o: Outcome,
                s': State)
    requires s' == s.(collection := JobNext(t, s, snap, fp, a, op, pc, o).0, worker := s'.worker)
    ensures SameElsewhere(Stored(s), Stored(s'), a, snap.epoch)
    ensures JobReady(t, s, a, snap.epoch, op, pc) ==>
              PcSound(t, s', a, snap.epoch, JobNext(t, s, snap, fp, a, op, pc, o).1)
  {
    JobElsewhere(t, s, snap, fp, a, op, pc, o, s');
    if JobReady(t, s, a, snap.epoch, op, pc) {
      if pc.Purge? || pc.Insert? {
        JobChanges(t, s, snap, fp, a, op, pc, o, s');
      } else {
        JobReads(t, s, snap, fp, a, op, pc, o, s');
      }
    }
  }

  // ----- steps of the worker -----

  lemma LeaveStep(t: Text, s: State, s': State)
    requires Inv(t, s) && s' == s.(worker := s'.worker) && WorkerSound(t, s')
    ensures Inv(t, s')
  {
    forall b | b in s'.outbox.jobs ensures JobSound(s', b) {
      assert JobSound(s, b);
    }
  }

  /** A granted claim: the epoch is new, so no point is at it. */
  lemma RowTaken(t: Text, s: State, s': State)
    requires Inv(t, s) && s' == s.(row := s'.row, worker := s'.worker)
    requires s'.row.Some? && s'.row.value.status == Rebuilding && EpochOf(s'.row) > EpochOf(s.row)
    requires s'.worker.Idle?
             || (s'.worker.Rebuild? && s'.worker.snap.epoch == EpochOf(s'.row) && s'.worker.phase == Check(Drop))
    ensures Inv(t, s')
  {
    forall b | b in s'.outbox.jobs ensures JobSound(s', b) {
      assert JobSound(s, b);
    }
    assert PhaseSound(t, s', EpochOf(s'.row), Drop);
  }

  lemma BeginStep(t: Text, s: State, c: Cmd)
    requires Inv(t, s) && Enabled(s, c) && c.Begin?
    ensures Inv(t, Next(t, s, c))
  {
    if Next(t, s, c).row == s.row {
      LeaveStep(t, s, Next(t, s, c));
    } else {
      RowTaken(t, s, Next(t, s, c));
    }
  }

  /** Leasing rows that are due changes no article, no point and no operation. */
  lemma LeaseRows(t: Text, s: State, s': State, picked: set<ArticleId>, token: string, expires: Time)
    requires Inv(t, s)
    requires picked <= s.outbox.jobs.Keys && forall a :: a in picked ==> Outbox.Eligible(s.outbox.jobs[a], s.now)
    requires s' == s.(outbox := Outbox.Claim(s.outbox, picked, token, expires), worker := s'.worker)
    ensures IdsUnique(s') && JobsSound(s') && FutureQueued(s') && EpochsBounded(s') && Agrees(t, s')
  {
    forall b | b in s'.outbox.jobs ensures JobSound(s', b) {
      assert JobSound(s, b);
    }
  }

  /** The batch is what the rows say, and nothing is known of its first article yet. */
  lemma BatchStarts(t: Text, s: State, c: Cmd)
    requires Inv(t, s) && Enabled(s, c) && c.Claim? && c.o.Done? && c.picked != []
    ensures WorkerSound(t, Next(t, s, c))
  {
    var s' := Next(t, s, c);
    forall i | 0 <= i < |c.picked|
      ensures s'.worker.queue[i].article == c.picked[i]
      ensures c.picked[i] in s'.outbox.jobs && s'.outbox.jobs[c.picked[i]].id == s'.worker.queue[i].id
      ensures s'.outbox.jobs[c.picked[i]].op == s'.worker.queue[i].op
    {
    }
  }

  lemma ClaimedRows(t: Text, s: State, c: Cmd)
    requires Enabled(s, c) && c.Claim? && c.o != Lost(false)
    ensures var picked := (set a | a in c.picked);
            && picked <= s.outbox.jobs.Keys
            && (forall a :: a in picked ==> Outbox.Eligible(s.outbox.jobs[a], s.now))
            && Next(t, s, c) == s.(outbox := Outbox.Claim(s.outbox, picked, c.token, s.now + 24 * MINUTE),
                                   worker := Next(t, s, c).worker)
    ensures c.o.Lost? || c.picked == [] ==> Next(t, s, c).worker == Idle
  {
  }

  lemma ClaimTaken(t: Text, s: State, c: Cmd)
    requires Inv(t, s) && Enabled(s, c) && c.Claim? && c.o != Lost(false)
    ensures Inv(t, Next(t, s, c))
  {
    ClaimedRows(t, s, c);
    LeaseRows(t, s, Next(t, s, c), (set a | a in c.picked), c.token, s.now + 24 * MINUTE);
    if c.o.Done? && c.picked != [] {
      BatchStarts(t, s, c);
    }
  }

  lemma ClaimStep(t: Text, s: State, c: Cmd)
    requires Inv(t, s) && Enabled(s, c) && c.Claim?
    ensures Inv(t, Next(t, s, c))
  {
    if c.o == Lost(false) {
      LeaveStep(t, s, Next(t, s, c));
    } else {
      ClaimTaken(t, s, c);
    }
  }

  /** Completing a finished job: the only row it can remove is the article whose points now match. */
  lemma CompleteStep(t: Text, s: State, s': State)
    requires Inv(t, s) && s.worker.Working? && s.worker.pc.Succeeded?
    requires s' == s.(outbox := Outbox.Complete(s.outbox, s.worker.queue[0].id, s.worker.token),
                      worker := Advance(s.worker))
    ensures Inv(t, s')
  {
    var w, job := s.worker, s.worker.queue[0];
    forall b | b in s.outbox.jobs && b !in s'.outbox.jobs
      ensures b == job.article && Matches(t, Stored(s), b, EpochOf(s.row), Public(s, b))
      ensures Publishable(s, b) ==> Visible(s.articles[b], s.now)
    {
      assert Held(s, w.token, job);
      PublicIsSettled(s, b);
    }
    forall b | b in s'.outbox.jobs ensures JobSound(s', b) {
      assert JobSound(s, b);
    }
    AdvanceSound(t, s, s');
  }

  /** After the first job is closed, the rest of the batch starts over from a sound position. */
  lemma AdvanceSound(t: Text, s: State, s': State)
    requires Inv(t, s) && s.worker.Working?
    requires s' == s.(outbox := s'.outbox, worker := Advance(s.worker))
    requires forall b :: b in s.outbox.jobs && b != s.worker.queue[0].article ==>
               b in s'.outbox.jobs && s'.outbox.jobs[b] == s.outbox.jobs[b]
    ensures WorkerSound(t, s')
  {
    var w := s.worker;
    if |w.queue| > 1 {
      forall i | 0 <= i < |w.queue| - 1
        ensures w.queue[1..][i] == w.queue[i + 1] && w.queue[i + 1].article != w.queue[0].article
        ensures Held(s', w.token, w.queue[i + 1]) ==> Held(s, w.token, w.queue[i + 1])
      {
      }
    }
  }

  /** Putting a job off changes its own row only, and that in nothing a position or another job relies on. */
  lemma ReleasedJobs(s: State, s': State, id: nat, token: string, runAfter: Time)
    requires IdsUnique(s) && JobsSound(s) && FutureQueued(s) && runAfter >= s.now
    requires s' == s.(outbox := Outbox.Release(s.outbox, id, token, runAfter), worker := s'.worker)
    ensures IdsUnique(s') && JobsSound(s') && FutureQueued(s')
    ensures forall b :: b in s.outbox.jobs && s.outbox.jobs[b].id != id ==>
              b in s'.outbox.jobs && s'.outbox.jobs[b] == s.outbox.jobs[b]
  {
    forall b | b in s'.outbox.jobs ensures JobSound(s', b) {
      assert JobSound(s, b);
    }
  }

  lemma ReleaseStep(t: Text, s: State, s': State, runAfter: Time)
    requires Inv(t, s) && s.worker.Working? && runAfter >= s.now
    requires s' == s.(outbox := Outbox.Release(s.outbox, s.worker.queue[0].id, s.worker.token, runAfter),
                      worker := Advance(s.worker))
    ensures Inv(t, s')
  {
    ReleasedJobs(s, s', s.worker.queue[0].id, s.worker.token, runAfter);
    AdvanceSound(t, s, s');
  }

  /** Points of the first article may change; the rest of the batch depends on none. */
  lemma BatchGoesOn(t: Text, s: State, s': State, pc: Pc)
    requires s.worker.Working? && WorkingSound(t, s)
    requires s' == s.(collection := s'.collection, worker := s.worker.(pc := pc))
    requires var job := s.worker.queue[0];
             Held(s, s.worker.token, job) ==> PcSound(t, s', job.article, s.worker.snap.epoch, pc)
    ensures WorkingSound(t, s')
  {
    var w := s.worker;
    forall i | 0 <= i < |w.queue| ensures Held(s', w.token, w.queue[i]) <==> Held(s, w.token, w.queue[i]) {
    }
  }

  /** A change to the points of an article that has a job waiting, or while the index is not ready. */
  lemma PointsKeep(t: Text, s: State, s': State, a: ArticleId)
    requires Inv(t, s) && s' == s.(collection := s'.collection, worker := s'.worker)
    requires SameElsewhere(Stored(s), Stored(s'), a, EpochOf(s.row))
    requires a in s.outbox.jobs || s.row.None? || s.row.value.status != Ready
    ensures IdsUnique(s') && JobsSound(s') && FutureQueued(s') && EpochsBounded(s') && Agrees(t, s')
  {
    forall b | b in s'.outbox.jobs ensures JobSound(s', b) {
      assert JobSound(s, b);
    }
  }

  lemma JobWorkStep(t: Text, s: State, s': State, o: Outcome)
    requires Inv(t, s) && s.worker.Working? && !s.worker.pc.Succeeded? && !s.worker.pc.Broken?
    requires s' == WorkNext(t, s, o)
    ensures Inv(t, s')
  {
    var w := s.worker;
    var job := w.queue[0];
    JobStep(t, s, w.snap, w.fingerprint, job.article, job.op, w.pc, o, s');
    if Held(s, w.token, job) {
      PublicIsSettled(s, job.article);
      assert JobSound(s, job.article);
    }
    PointsKeep(t, s, s', job.article);
    BatchGoesOn(t, s, s', s'.worker.pc);
  }

  /** The call that was to close the job had no effect: the job stays, and the next one is started. */
  lemma AbandonStep(t: Text, s: State, s': State)
    requires Inv(t, s) && s.worker.Working? && s' == s.(worker := Advance(s.worker))
    ensures Inv(t, s')
  {
    AdvanceSound(t, s, s');
    LeaveStep(t, s, s');
  }

  lemma PutOffStep(t: Text, s: State, s': State, o: Outcome)
    requires Inv(t, s) && s.worker.Working? && s.worker.pc.Broken? && o != Lost(false)
    requires s' == WorkNext(t, s, o)
    ensures Inv(t, s')
  {
    var w := s.worker;
    ReleaseStep(t, s, s', if w.pc.stale then s.now else s.now + RetryDelay(w.queue[0].attempts));
  }

  lemma CloseJobStep(t: Text, s: State, s': State, o: Outcome)
    requires Inv(t, s) && s.worker.Working? && (s.worker.pc.Succeeded? || s.worker.pc.Broken?)
    requires s' == WorkNext(t, s, o)
    ensures Inv(t, s')
  {
    if o == Lost(false) {
      AbandonStep(t, s, s');
    } else if s.worker.pc.Succeeded? {
      CompleteStep(t, s, s');
    } else {
      PutOffStep(t, s, s', o);
    }
  }

  lemma WorkStep(t: Text, s: State, c: Cmd)
    requires Inv(t, s) && Enabled(s, c) && c.Work?
    ensures Inv(t, Next(t, s, c))
  {
    if s.worker.pc.Succeeded? || s.worker.pc.Broken? {
      CloseJobStep(t, s, Next(t, s, c), c.o);
    } else {
      JobWorkStep(t, s, Next(t, s, c), c.o);
    }
  }

  // ----- steps of a rebuild -----

  lemma NextArticleStep(t: Text, s: State, epoch: nat, todo: seq<ArticleId>)
    requires todo != [] && PhaseSound(t, s, epoch, Index(todo, Succeeded))
    ensures Covered(t, s, epoch, todo[1..])
  {
    forall a | a !in s.outbox.jobs && a !in todo[1..] ensures Matches(t, Stored(s), a, epoch, Public(s, a)) {
      if a != todo[0] {
        assert a !in todo;
      }
    }
  }

  lemma LoopSound(t: Text, s: State, epoch: nat, todo: seq<ArticleId>)
    requires Covered(t, s, epoch, todo)
    ensures PhaseSound(t, s, epoch, Loop(todo))
  {
    if todo == [] {
      assert PhaseSound(t, s, epoch, Settle);
    } else {
      assert PhaseSound(t, s, epoch, Index(todo, Start));
    }
  }

  lemma {:induction false} PhaseSameData(t: Text, s: State, s': State, epoch: nat, phase: Phase)
    requires s' == s.(worker := s'.worker) && PhaseSound(t, s, epoch, phase)
    ensures PhaseSound(t, s', epoch, phase)
    decreases phase
  {
    if phase.Check? {
      PhaseSameData(t, s, s', epoch, phase.next);
    }
  }

  /** A step of a rebuild that moves on without touching the collection or the row. */
  lemma MoveStep(t: Text, s: State, s': State, phase: Phase)
    requires Inv(t, s) && s.worker.Rebuild? && s' == s.(worker := s.worker.(phase := phase))
    requires PhaseSound(t, s, s.worker.snap.epoch, phase)
    ensures Inv(t, s')
  {
    PhaseSameData(t, s, s', s.worker.snap.epoch, phase);
    LeaveStep(t, s, s');
  }

  lemma IndexStep(t: Text, s: State, s': State, o: Outcome)
    requires Inv(t, s) && s.worker.Rebuild? && s.worker.phase.Index?
    requires !s.worker.phase.pc.Succeeded? && !s.worker.phase.pc.Broken?
    requires s' == RebuildNext(t, s, o, 0, 0, [])
    ensures Inv(t, s')
  {
    var snap, todo, pc := s.worker.snap, s.worker.phase.todo, s.worker.phase.pc;
    JobStep(t, s, snap, snap.fingerprint, todo[0], Outbox.Upsert, pc, o, s');
    if todo[0] !in s.outbox.jobs {
      PublicIsSettled(s, todo[0]);
    }
    forall a | a !in s'.outbox.jobs && a !in todo ensures Matches(t, Stored(s'), a, snap.epoch, Public(s', a)) {
      assert a != todo[0];
    }
    assert PhaseSound(t, s', snap.epoch, s'.worker.phase);
  }

  /** Dropping or creating the collection leaves no point at all, or changes nothing. */
  lemma EmptyStep(t: Text, s: State, s': State, phase: Phase)
    requires Inv(t, s) && s.worker.Rebuild? && NoPointsAt(s, s.worker.snap.epoch)
    requires s' == s.(collection := s'.collection, worker := s.worker.(phase := phase))
    requires Stored(s') == map[] || Stored(s') == Stored(s)
    requires phase == Check(Create) || phase == Check(List) || phase == FailUpdate
    ensures Inv(t, s')
  {
    forall b | b in s'.outbox.jobs ensures JobSound(s', b) {
      assert JobSound(s, b);
    }
    assert NoPointsAt(s', s'.worker.snap.epoch);
    assert PhaseSound(t, s', s.worker.snap.epoch, Create) && PhaseSound(t, s', s.worker.snap.epoch, List);
  }

  /** Closing the rebuild: the row may become ready only from Finish, where every article is covered. */
  lemma CloseStep(t: Text, s: State, s': State)
    requires Inv(t, s) && s.worker.Rebuild? && s' == s.(row := s'.row, worker := Idle)
    requires EpochOf(s'.row) == EpochOf(s.row)
    requires s'.row.Some? && s'.row.value.status == Ready ==> Covered(t, s, EpochOf(s.row), [])
    ensures Inv(t, s')
  {
    forall b | b in s'.outbox.jobs ensures JobSound(s', b) {
      assert JobSound(s, b);
    }
  }

  lemma ListPhase(t: Text, s: State, c: Cmd)
    requires Inv(t, s) && Enabled(s, c) && c.Step? && s.worker.phase.List?
    ensures Inv(t, Next(t, s, c))
  {
    var s', snap := Next(t, s, c), s.worker.snap;
    if c.o.Done? {
      LoopSound(t, s, snap.epoch, c.todo);
    }
    MoveStep(t, s, s', s'.worker.phase);
  }

  lemma IndexPhase(t: Text, s: State, c: Cmd)
    requires Inv(t, s) && Enabled(s, c) && c.Step? && s.worker.phase.Index?
    ensures Inv(t, Next(t, s, c))
  {
    var s', snap, phase := Next(t, s, c), s.worker.snap, s.worker.phase;
    if phase.pc.Succeeded? {
      NextArticleStep(t, s, snap.epoch, phase.todo);
      LoopSound(t, s, snap.epoch, phase.todo[1..]);
      MoveStep(t, s, s', s'.worker.phase);
    } else if phase.pc.Broken? {
      MoveStep(t, s, s', FailUpdate);
    } else {
      IndexStep(t, s, s', c.o);
    }
  }

  lemma ClosePhase(t: Text, s: State, c: Cmd)
    requires Inv(t, s) && Enabled(s, c) && c.Step?
    requires s.worker.phase.Finish? || s.worker.phase.FailUpdate? || s.worker.phase.ReleaseUpdate?
    ensures Inv(t, Next(t, s, c))
  {
    var s' := Next(t, s, c);
    if s'.worker.Idle? {
      CloseStep(t, s, s');
    } else {
      MoveStep(t, s, s', ReleaseUpdate);
    }
  }

  lemma EmptyPhase(t: Text, s: State, c: Cmd)
    requires Inv(t, s) && Enabled(s, c) && c.Step? && (s.worker.phase.Drop? || s.worker.phase.Create?)
    ensures Inv(t, Next(t, s, c))
  {
    EmptyStep(t, s, Next(t, s, c), Next(t, s, c).worker.phase);
  }

  lemma CheckPhase(t: Text, s: State, c: Cmd)
    requires Inv(t, s) && Enabled(s, c) && c.Step? && (s.worker.phase.Check? || s.worker.phase.Settle?)
    ensures Inv(t, Next(t, s, c))
  {
    MoveStep(t, s, Next(t, s, c), Next(t, s, c).worker.phase);
  }

  lemma RebuildStep(t: Text, s: State, c: Cmd)
    requires Inv(t, s) && Enabled(s, c) && c.Step?
    ensures Inv(t, Next(t, s, c))
  {
    var phase := s.worker.phase;
    if phase.Check? || phase.Settle? {
      CheckPhase(t, s, c);
    } else if phase.Drop? || phase.Create? {
      EmptyPhase(t, s, c);
    } else if phase.List? {
      ListPhase(t, s, c);
    } else if phase.Index? {
      IndexPhase(t, s, c);
    } else {
      ClosePhase(t, s, c);
    }
  }

  // ----- every step, every run -----

  lemma TaskStep(t: Text, s: State, c: Cmd)
    requires Inv(t, s) && Enabled(s, c) && (c.Claim? || c.Work? || c.Begin? || c.Step?)
    ensures Inv(t, Next(t, s, c))
  {
    if c.Claim? {
      ClaimStep(t, s, c);
    } else if c.Work? {
      WorkStep(t, s, c);
    } else if c.Begin? {
      BeginStep(t, s, c);
    } else {
      RebuildStep(t, s, c);
    }
  }

  lemma IdleStep(t: Text, s: State, c: Cmd)
    requires Inv(t, s) && Enabled(s, c)
    requires c.Restart? || c.Poll? || c.Arm?
    ensures Inv(t, Next(t, s, c))
  {
    LeaveStep(t, s, Next(t, s, c));
  }

  lemma InvStep(t: Text, s: State, c: Cmd)
    requires Inv(t, s) && Enabled(s, c)
    ensures Inv(t, Next(t, s, c))
  {
    if c.Tick? {
      TickStep(t, s, c);
    } else if c.Write? || c.Remove? {
      WriteStep(t, s, c);
    } else if c.Save? || c.Retarget? || c.Stats? || c.Renew? {
      RowStep(t, s, c);
    } else if c.Restart? || c.Poll? || c.Arm? {
      IdleStep(t, s, c);
    } else {
      TaskStep(t, s, c);
    }
  }

  lemma {:induction false} InvRun(t: Text, s: State, cmds: seq<Cmd>, s': State)
    requires Inv(t, s) && Runs(t, s, cmds, s')
    ensures Inv(t, s')
    decreases |cmds|
  {
    if cmds != [] {
      InvStep(t, s, cmds[0]);
      InvRun(t, Next(t, s, cmds[0]), cmds[1..], s');
    }
  }

  /**
   Index agreement. Whatever the interleaving of crashes, failed calls, retries, rebuilds, article
   writes and settings changes: when the row is ready and an article has no outbox row, the points
   stored for it at the row's epoch are exactly the chunks of its current content if it is publicly
   visible, and there are none otherwise.
   */
  lemma ReadyIndexAgrees(t: Text, cmds: seq<Cmd>, s: State, a: ArticleId)
    requires Runs(t, INITIAL, cmds, s)
    requires s.row.Some? && s.row.value.status == Ready && a !in s.outbox.jobs
    ensures forall k: Key :: k.article == a && k.epoch == s.row.value.epoch ==>
              && (k in Stored(s) <==>
                    && a in s.articles && Visible(s.articles[a], s.now)
                    && k.chunk < |Chunks(t, s.articles[a])|
                    && k == ChunkKey(t, s.articles[a], a, s.row.value.epoch, k.chunk))
              && (k in Stored(s) ==> Stored(s)[k].content == Chunks(t, s.articles[a])[k.chunk])
  {
    InvRun(t, INITIAL, cmds, s);
    assert Matches(t, Stored(s), a, s.row.value.epoch, Public(s, a));
  }
}
