/** The course of one job when every call succeeds, and what becomes of a job when one does not. */
module JobProgress {
  import opened Basics
  import opened Articles
  import opened VectorPoints
  import opened IndexRow
  import opened IndexWorker
  import opened IndexAgreement
  import Outbox

  // ----- the course -----

  function Found(s: State, a: ArticleId): Option<Article> {
    if a in s.articles then Some(s.articles[a]) else None
  }

  /** The positions processJob goes through: old points go first, then messages are hidden or new points come. */
  function Course(t: Text, s: State, a: ArticleId, op: Outbox.Op): seq<Pc> {
    if op == Outbox.Delete then [Start, Purge(Vanish), Confirm, Hide, Succeeded]
    else if Public(s, a).None? then [Start, Load, Judge(Found(s, a)), Purge(Vanish), Confirm, Hide, Succeeded]
    else
      var article := s.articles[a];
      if Chunks(t, article) == [] then [Start, Load, Judge(Some(article)), Purge(Bare), Succeeded]
      else [Start, Load, Judge(Some(article)), Purge(Keep(article)), Recheck(article), Embed(article),
            Embedded(article), Insert(article), Verify(article), Succeeded]
  }

  /** Who the points of the job are for in the end: a deletion leaves none, anything else the public article. */
  function Due(s: State, a: ArticleId, op: Outbox.Op): Option<Article> {
    if op == Outbox.Delete then None else Public(s, a)
  }

  function Cleared(points: Points, a: ArticleId, epoch: nat): Points {
    DeleteArticleAtEpoch(points, a, epoch)
  }

  function Indexed(t: Text, points: Points, due: Option<Article>, a: ArticleId, epoch: nat, fp: string): Points {
    if due.None? || Chunks(t, due.value) == [] then Cleared(points, a, epoch)
    else Upsert(Cleared(points, a, epoch), Batch(t, due.value, a, epoch, fp))
  }

  /** The points at the k-th position of the course. */
  function PointsAt(t: Text, s: State, points: Points, a: ArticleId, op: Outbox.Op, epoch: nat, fp: string,
                    k: nat): Points
    requires k < |Course(t, s, a, op)|
  {
    match Course(t, s, a, op)[k]
    case Start => points
    case Load => points
    case Judge(_) => points
    case Purge(_) => points
    case Verify(_) => Indexed(t, points, Due(s, a, op), a, epoch, fp)
    case Succeeded => Indexed(t, points, Due(s, a, op), a, epoch, fp)
    case _ => Cleared(points, a, epoch)
  }

  /** A step with everything in order takes the job from the k-th position of its course to the next. */
  ghost predicate Moves(t: Text, s: State, snap: Snapshot, fp: string, a: ArticleId, op: Outbox.Op, points: Points,
                        k: nat, s': State)
    requires k + 1 < |Course(t, s, a, op)|
  {
    JobNext(t, s', snap, fp, a, op, Course(t, s, a, op)[k], Done)
    == (Some(PointsAt(t, s, points, a, op, snap.epoch, fp, k + 1)), Course(t, s, a, op)[k + 1])
  }

  lemma RemovalNext(t: Text, s: State, snap: Snapshot, fp: string, a: ArticleId, op: Outbox.Op, points: Points,
                    k: nat, s': State)
    requires k + 1 < |Course(t, s, a, op)| && InForce(s, snap) && Due(s, a, op).None?
    requires s' == s.(collection := Some(PointsAt(t, s, points, a, op, snap.epoch, fp, k)), worker := s'.worker)
    ensures Moves(t, s, snap, fp, a, op, points, k, s')
  {
  }

  lemma InsertionNext(t: Text, s: State, snap: Snapshot, fp: string, a: ArticleId, op: Outbox.Op, points: Points,
                      k: nat, s': State)
    requires k + 1 < |Course(t, s, a, op)| && InForce(s, snap) && Due(s, a, op).Some?
    requires s' == s.(collection := Some(PointsAt(t, s, points, a, op, snap.epoch, fp, k)), worker := s'.worker)
    ensures Moves(t, s, snap, fp, a, op, points, k, s')
  {
  }

  lemma CourseNext(t: Text, s: State, snap: Snapshot, fp: string, a: ArticleId, op: Outbox.Op, points: Points,
                   k: nat, s': State)
    requires k + 1 < |Course(t, s, a, op)| && InForce(s, snap)
    requires s' == s.(collection := Some(PointsAt(t, s, points, a, op, snap.epoch, fp, k)), worker := s'.worker)
    ensures Moves(t, s, snap, fp, a, op, points, k, s')
  {
    if Due(s, a, op).None? {
      RemovalNext(t, s, snap, fp, a, op, points, k, s');
    } else {
      InsertionNext(t, s, snap, fp, a, op, points, k, s');
    }
  }

  lemma CourseWorks(t: Text, s: State, a: ArticleId, op: Outbox.Op, k: nat)
    requires k + 1 < |Course(t, s, a, op)|
    ensures !Course(t, s, a, op)[k].Succeeded? && !Course(t, s, a, op)[k].Broken?
  {
  }

  lemma CourseEnds(t: Text, s: State, a: ArticleId, op: Outbox.Op)
    ensures var course := Course(t, s, a, op);
            5 <= |course| <= 10 && course[0] == Start && course[|course| - 1] == Succeeded
  {
  }

  /** At the end the article's points are exactly what the job was to leave, and no other point has changed. */
  lemma IndexedMatches(t: Text, points: Points, due: Option<Article>, a: ArticleId, epoch: nat, fp: string)
    ensures Matches(t, Indexed(t, points, due, a, epoch, fp), a, epoch, due)
    ensures SameElsewhere(points, Indexed(t, points, due, a, epoch, fp), a, epoch)
  {
    var cleared := Cleared(points, a, epoch);
    assert Matches(t, cleared, a, epoch, None);
    if due.Some? && Chunks(t, due.value) != [] {
      InsertMatches(t, cleared, a, epoch, due.value, fp);
      InsertElsewhereSame(t, cleared, a, epoch, due.value, fp);
    }
  }

  /** With time an article comes out: a published one is public exactly once its schedule has come. */
  lemma ScheduleComes(t: Text, s: State, elapsed: nat, a: ArticleId)
    ensures var s' := Next(t, s, Tick(elapsed));
            && s' == s.(now := s.now + elapsed)
            && (Public(s', a).Some? <==>
                  && a in s.articles && s.articles[a].status.Published?
                  && (s.articles[a].scheduledAt.Some? ==> s.articles[a].scheduledAt.value <= s.now + elapsed))
  {
  }

  // ----- doing one thing again and again -----

  ghost predicate Repeats(t: Text, s: State, c: Cmd, n: nat, s': State)
  {
    Runs(t, s, seq(n, _ => c), s')
  }

  lemma RepeatsMore(t: Text, s: State, c: Cmd, n: nat, s': State, s'': State)
    requires Repeats(t, s, c, n, s') && Enabled(s', c) && Next(t, s', c) == s''
    ensures Repeats(t, s, c, n + 1, s'')
  {
    RunsOn(t, s, seq(n, _ => c), s', c);
    assert seq(n, _ => c) + [c] == seq(n + 1, _ => c);
  }

  lemma {:induction false} RepeatsThen(t: Text, s: State, c: Cmd, m: nat, s': State, n: nat, s'': State)
    requires Repeats(t, s, c, m, s') && Repeats(t, s', c, n, s'')
    ensures Repeats(t, s, c, m + n, s'')
    decreases m
  {
    if m > 0 {
      var one := Next(t, s, c);
      assert seq(m, _ => c)[1..] == seq(m - 1, _ => c);
      RepeatsThen(t, one, c, m - 1, s', n, s'');
      assert seq(m + n, _ => c)[0] == c && seq(m + n, _ => c)[1..] == seq(m - 1 + n, _ => c);
    } else {
      assert seq(m + n, _ => c) == seq(n, _ => c);
    }
  }

  // ----- when a call does not succeed -----

  /** Positions at which processJob makes a call: all but the end, and the look at an article not to be shown. */
  predicate Calls(s: State, pc: Pc) {
    match pc
    case Judge(found) => found.Some? && Visible(found.value, s.now)
    case Succeeded => false
    case Broken(_) => false
    case _ => true
  }

  predicate ChecksRow(pc: Pc) {
    pc.Start? || pc.Confirm? || pc.Recheck? || pc.Embedded? || pc.Verify?
  }

  /** A call whose answer is lost breaks the job off, and a check that finds another row breaks it off as stale. */
  lemma JobBreaks(t: Text, s: State, snap: Snapshot, fp: string, a: ArticleId, op: Outbox.Op, pc: Pc, o: Outcome)
    ensures Calls(s, pc) && o.Lost? ==> JobNext(t, s, snap, fp, a, op, pc, o).1 == Broken(false)
    ensures ChecksRow(pc) && o.Done? && !InForce(s, snap) ==>
              JobNext(t, s, snap, fp, a, op, pc, o) == (s.collection, Broken(true))
    ensures (pc.Purge? || pc.Insert?) && s.collection.None? ==>
              JobNext(t, s, snap, fp, a, op, pc, o) == (None, Broken(false))
  {
  }

  /**
   A lost call without effect changes the worker only; one with effect changes the rest just as an answered one
   does.
   */
  lemma LostCalls(t: Text, s: State, snap: Snapshot, fp: string, a: ArticleId, op: Outbox.Op, pc: Pc)
    ensures JobNext(t, s, snap, fp, a, op, pc, Lost(false)).0 == s.collection
    ensures JobNext(t, s, snap, fp, a, op, pc, Lost(true)).0 == JobNext(t, s, snap, fp, a, op, pc, Done).0
  {
  }

  lemma LostWork(t: Text, s: State)
    requires s.worker.Working? && s.worker.queue != []
    ensures Next(t, s, Work(Lost(false))) == s.(worker := Next(t, s, Work(Lost(false))).worker)
    ensures Next(t, s, Work(Lost(true))) == Next(t, s, Work(Done)).(worker := Next(t, s, Work(Lost(true))).worker)
  {
    var w := s.worker;
    LostCalls(t, s, w.snap, w.fingerprint, w.queue[0].article, w.queue[0].op, w.pc);
  }

  /** Positions from which a check still lies between the job and its insertion or its hiding of messages. */
  predicate Guarded(pc: Pc) {
    match pc
    case Purge(after) => !after.Bare?
    case Start => true
    case Load => true
    case Confirm => true
    case Recheck(_) => true
    case Embed(_) => true
    case Embedded(_) => true
    case Broken(_) => true
    case _ => false
  }

  /** The job while the row it started with is no longer in force: nothing is added, and it ends broken. */
  lemma StaleJobStep(t: Text, s: State, snap: Snapshot, fp: string, a: ArticleId, op: Outbox.Op, pc: Pc, o: Outcome)
    requires !InForce(s, snap) && Guarded(pc) && !pc.Load?
    ensures var (collection, pc') := JobNext(t, s, snap, fp, a, op, pc, o);
            && Guarded(pc') && !pc'.Load?
            && (s.collection.None? ==> collection.None?)
            && (collection.Some? ==> s.collection.Some? && forall k :: k in collection.value ==>
                  k in s.collection.value && collection.value[k] == s.collection.value[k])
  {
  }

  predicate StaleWork(s: State) {
    s.worker.Working? && !InForce(s, s.worker.snap) && Guarded(s.worker.pc) && !s.worker.pc.Load?
  }

  lemma StaleWorkStep(t: Text, s: State, o: Outcome)
    requires StaleWork(s) && Enabled(s, Work(o))
    ensures var s' := Next(t, s, Work(o));
            && (s'.worker.Idle? || StaleWork(s'))
            && s'.outbox.jobs.Keys == s.outbox.jobs.Keys && s'.row == s.row
            && forall k :: k in Stored(s') ==> k in Stored(s) && Stored(s')[k] == Stored(s)[k]
  {
    var w := s.worker;
    if !w.pc.Broken? {
      StaleJobStep(t, s, w.snap, w.fingerprint, w.queue[0].article, w.queue[0].op, w.pc, o);
    }
  }

  /**
   A batch whose row is no longer in force, whatever comes of its calls: it adds no point and removes no job, neither
   of the article at hand nor of those after it.
   */
  lemma {:induction false} StaleBatchIsHarmless(t: Text, s: State, cmds: seq<Cmd>, s': State)
    requires StaleWork(s) && Runs(t, s, cmds, s') && forall i :: 0 <= i < |cmds| ==> cmds[i].Work?
    ensures s'.outbox.jobs.Keys == s.outbox.jobs.Keys
    ensures forall k :: k in Stored(s') ==> k in Stored(s) && Stored(s')[k] == Stored(s)[k]
    decreases |cmds|
  {
    if cmds != [] {
      StaleWorkStep(t, s, cmds[0].o);
      if Next(t, s, cmds[0]).worker.Idle? {
        assert cmds[1..] == [];
      } else {
        StaleBatchIsHarmless(t, Next(t, s, cmds[0]), cmds[1..], s');
      }
    }
  }

  // ----- a job that broke off -----

  /**
   The due time of a job put off: at once if the index row had changed, else after a delay that grows with its
   attempts.
   */
  function PutOffTo(s: State): Time
    requires s.worker.Working? && s.worker.pc.Broken? && s.worker.queue != []
  {
    if s.worker.pc.stale then s.now else s.now + RetryDelay(s.worker.queue[0].attempts)
  }

  /** A broken job goes back unleased and as it was, due at that time; nothing else changes but the worker. */
  lemma BrokenIsPutOff(t: Text, s: State)
    requires Inv(t, s) && s.worker.Working? && s.worker.pc.Broken?
    ensures var s', job := Next(t, s, Work(Done)), s.worker.queue[0];
            && s' == s.(outbox := s'.outbox, worker := Advance(s.worker))
            && s'.outbox.nextId == s.outbox.nextId && s'.outbox.jobs.Keys == s.outbox.jobs.Keys
            && (forall a :: a in s.outbox.jobs && a != job.article ==> s'.outbox.jobs[a] == s.outbox.jobs[a])
            && (Held(s, s.worker.token, job) ==>
                  s'.outbox.jobs[job.article] == s.outbox.jobs[job.article].(runAfter := PutOffTo(s), lease := None))
            && (!Held(s, s.worker.token, job) ==> s'.outbox.jobs[job.article] == s.outbox.jobs[job.article])
  {
    var job := s.worker.queue[0];
    assert job.article in s.outbox.jobs && s.outbox.jobs[job.article].id == job.id;
  }

  /** So it can be claimed again exactly from that time on. */
  lemma PutOffIsDue(t: Text, s: State, later: Time)
    requires Inv(t, s) && s.worker.Working? && s.worker.pc.Broken? && Held(s, s.worker.token, s.worker.queue[0])
    ensures var a := s.worker.queue[0].article;
            && a in Next(t, s, Work(Done)).outbox.jobs
            && (Outbox.Eligible(Next(t, s, Work(Done)).outbox.jobs[a], later) <==> later >= PutOffTo(s))
  {
    BrokenIsPutOff(t, s);
  }
}
