/** Draining the outbox gets to its end: with every call answered, a batch removes all of its jobs and becomes idle. */
module BatchProgress {
  import opened Basics
  import opened VectorPoints
  import opened IndexRow
  import opened IndexWorker
  import opened IndexAgreement
  import opened JobProgress
  import Outbox

  // ----- one job -----

  /** A worker about to start a job, with the collection there and the row still the one it started with. */
  predicate Starting(s: State) {
    s.worker.Working? && s.worker.queue != [] && s.worker.pc.Start? && s.collection.Some? && InForce(s, s.worker.snap)
  }

  function CourseOf(t: Text, s: State): seq<Pc>
    requires Starting(s)
  {
    Course(t, s, s.worker.queue[0].article, s.worker.queue[0].op)
  }

  /** The state at the k-th position of the first job's course. */
  function On(t: Text, s: State, k: nat): State
    requires Starting(s) && k < |CourseOf(t, s)|
  {
    var w := s.worker;
    var job := w.queue[0];
    s.(collection := Some(PointsAt(t, s, s.collection.value, job.article, job.op, w.snap.epoch, w.fingerprint, k)),
       worker := w.(pc := CourseOf(t, s)[k]))
  }

  lemma OnNext(t: Text, s: State, k: nat)
    requires Starting(s) && k + 1 < |CourseOf(t, s)|
    ensures Enabled(On(t, s, k), Work(Done)) && Next(t, On(t, s, k), Work(Done)) == On(t, s, k + 1)
  {
    var w := s.worker;
    CourseWorks(t, s, w.queue[0].article, w.queue[0].op, k);
    CourseNext(t, s, w.snap, w.fingerprint, w.queue[0].article, w.queue[0].op, s.collection.value, k, On(t, s, k));
  }

  lemma {:induction false} OnRun(t: Text, s: State, k: nat)
    requires Starting(s) && k < |CourseOf(t, s)|
    ensures Repeats(t, s, Work(Done), k, On(t, s, k))
  {
    CourseEnds(t, s, s.worker.queue[0].article, s.worker.queue[0].op);
    if k == 0 {
      assert On(t, s, 0) == s;
      assert seq(0, _ => Work(Done)) == [];
    } else {
      OnRun(t, s, k - 1);
      OnNext(t, s, k - 1);
      RepeatsMore(t, s, Work(Done), k - 1, On(t, s, k - 1), On(t, s, k));
    }
  }

  /**
   The state once the first job is closed: its points are in place and its row is gone if the worker still held
   it.
   */
  function Closed(t: Text, s: State): State
    requires Starting(s)
  {
    var w := s.worker;
    var job := w.queue[0];
    s.(collection :=
       Some(Indexed(t, s.collection.value, Due(s, job.article, job.op), job.article, w.snap.epoch, w.fingerprint)),
       outbox := Outbox.Complete(s.outbox, job.id, w.token), worker := Advance(w))
  }

  /** A job takes one step for each position of its course, the last of which closes it. */
  lemma JobEnds(t: Text, s: State)
    requires Starting(s)
    ensures Repeats(t, s, Work(Done), |CourseOf(t, s)|, Closed(t, s))
    ensures Closed(t, s).worker.Idle? || (Starting(Closed(t, s)) && |Closed(t, s).worker.queue| == |s.worker.queue| - 1)
  {
    var last := |CourseOf(t, s)| - 1;
    CourseEnds(t, s, s.worker.queue[0].article, s.worker.queue[0].op);
    OnRun(t, s, last);
    RepeatsMore(t, s, Work(Done), last, On(t, s, last), Closed(t, s));
  }

  // ----- the batch -----

  function Drained(t: Text, s: State): State
    requires Starting(s)
    decreases |s.worker.queue|
  {
    JobEnds(t, s);
    if Closed(t, s).worker.Idle? then Closed(t, s) else Drained(t, Closed(t, s))
  }

  predicate Distinct(queue: seq<Claimed>) {
    forall i, j :: 0 <= i < j < |queue| ==> queue[i].article != queue[j].article
  }

  /** The row of one of the jobs, still leased to the worker. */
  predicate Removed(s: State, a: ArticleId, queue: seq<Claimed>, token: string)
    requires a in s.outbox.jobs
  {
    exists i :: 0 <= i < |queue| && Outbox.Named(s.outbox.jobs[a], queue[i].id, token)
  }

  predicate Of(queue: seq<Claimed>, k: Key, epoch: nat) {
    k.epoch == epoch && exists i :: 0 <= i < |queue| && queue[i].article == k.article
  }

  /** What a batch does to the outbox: exactly the rows it still holds are removed. */
  ghost predicate JobsGone(s: State, s': State, queue: seq<Claimed>, token: string) {
    && s'.outbox.nextId == s.outbox.nextId
    && (forall a :: a in s'.outbox.jobs <==> a in s.outbox.jobs && !Removed(s, a, queue, token))
    && (forall a :: a in s'.outbox.jobs ==> s'.outbox.jobs[a] == s.outbox.jobs[a])
  }

  /** What it does to the points: those of its articles match, all others are as they were. */
  ghost predicate PointsPlaced(t: Text, s: State, s': State, queue: seq<Claimed>, epoch: nat) {
    && (forall i :: 0 <= i < |queue| ==>
          Matches(t, Stored(s'), queue[i].article, epoch, Due(s, queue[i].article, queue[i].op)))
    && (forall k :: !Of(queue, k, epoch) ==>
          (k in Stored(s') <==> k in Stored(s)) && (k in Stored(s) ==> Stored(s')[k] == Stored(s)[k]))
  }

  lemma FirstJobGone(s: State, s': State, s'': State, queue: seq<Claimed>, token: string)
    requires queue != [] && s'.outbox == Outbox.Complete(s.outbox, queue[0].id, token)
    requires JobsGone(s', s'', queue[1..], token)
    ensures JobsGone(s, s'', queue, token)
  {
    forall a | a in s.outbox.jobs
      ensures Removed(s, a, queue, token) <==> a !in s'.outbox.jobs || Removed(s', a, queue[1..], token)
    {
      var job := s.outbox.jobs[a];
      if i :| 0 <= i < |queue| && Outbox.Named(job, queue[i].id, token) {
        assert i > 0 ==> queue[1..][i - 1] == queue[i];
      }
      if a in s'.outbox.jobs && Removed(s', a, queue[1..], token) {
        var i :| 0 <= i < |queue| - 1 && Outbox.Named(job, queue[1..][i].id, token);
        assert queue[i + 1] == queue[1..][i];
      }
    }
  }

  lemma OfTail(queue: seq<Claimed>, k: Key, epoch: nat)
    requires queue != []
    ensures Of(queue[1..], k, epoch) ==> Of(queue, k, epoch)
  {
    if i :| 0 <= i < |queue[1..]| && queue[1..][i].article == k.article {
      assert queue[i + 1].article == k.article;
    }
  }

  lemma FirstPointsPlaced(t: Text, s: State, s': State, s'': State, queue: seq<Claimed>, epoch: nat)
    requires queue != [] && Distinct(queue)
    requires s'.articles == s.articles && s'.now == s.now
    requires Matches(t, Stored(s'), queue[0].article, epoch, Due(s, queue[0].article, queue[0].op))
    requires SameElsewhere(Stored(s), Stored(s'), queue[0].article, epoch)
    requires PointsPlaced(t, s', s'', queue[1..], epoch)
    ensures PointsPlaced(t, s, s'', queue, epoch)
  {
    forall k | !Of(queue, k, epoch)
      ensures !Of(queue[1..], k, epoch) && !(k.article == queue[0].article && k.epoch == epoch)
    {
      OfTail(queue, k, epoch);
    }
    forall k: Key | k.article == queue[0].article ensures !Of(queue[1..], k, epoch) {
    }
    forall i | 0 <= i < |queue|
      ensures Matches(t, Stored(s''), queue[i].article, epoch, Due(s, queue[i].article, queue[i].op))
    {
      if i > 0 {
        assert queue[1..][i - 1] == queue[i];
      }
    }
  }

  /** Drained is where repeating the step leads, in at most ten steps a job. */
  lemma {:induction false} DrainRuns(t: Text, s: State) returns (n: nat)
    requires Starting(s)
    ensures Repeats(t, s, Work(Done), n, Drained(t, s)) && n <= 10 * |s.worker.queue|
    decreases |s.worker.queue|
  {
    JobEnds(t, s);
    CourseEnds(t, s, s.worker.queue[0].article, s.worker.queue[0].op);
    n := |CourseOf(t, s)|;
    if !Closed(t, s).worker.Idle? {
      var m := DrainRuns(t, Closed(t, s));
      RepeatsThen(t, s, Work(Done), n, Closed(t, s), m, Drained(t, s));
      n := n + m;
    }
  }

  lemma {:induction false} DrainEnds(t: Text, s: State)
    requires Starting(s) && Distinct(s.worker.queue)
    ensures var s', w := Drained(t, s), s.worker;
            && s' == s.(collection := s'.collection, outbox := s'.outbox, worker := Idle) && s'.collection.Some?
            && JobsGone(s, s', w.queue, w.token) && PointsPlaced(t, s, s', w.queue, w.snap.epoch)
    decreases |s.worker.queue|
  {
    var s', s'', w := Closed(t, s), Drained(t, s), s.worker;
    var job := w.queue[0];
    JobEnds(t, s);
    IndexedMatches(t, s.collection.value, Due(s, job.article, job.op), job.article, w.snap.epoch, w.fingerprint);
    if s'.worker.Idle? {
      assert w.queue[1..] == [];
    } else {
      DrainEnds(t, s');
    }
    FirstJobGone(s, s', s'', w.queue, w.token);
    FirstPointsPlaced(t, s, s', s'', w.queue, w.snap.epoch);
  }

  /**
   From every state a run can be in at the start of a job, steps that are all answered take the worker to idle:
   every job of the batch it still holds is removed, whatever became of its article, every other job stays as it
   is, and the points of the batch's articles are exactly those they should have.
   */
  lemma BatchEnds(t: Text, cmds: seq<Cmd>, s: State) returns (n: nat, s': State)
    requires Runs(t, INITIAL, cmds, s) && s.worker.Working? && s.worker.pc.Start?
    requires s.collection.Some? && InForce(s, s.worker.snap)
    ensures Repeats(t, s, Work(Done), n, s') && n <= 10 * |s.worker.queue|
    ensures s' == s.(collection := s'.collection, outbox := s'.outbox, worker := Idle)
    ensures forall i :: 0 <= i < |s.worker.queue| ==> !Held(s', s.worker.token, s.worker.queue[i])
    ensures forall a :: a in s.outbox.jobs && !Removed(s, a, s.worker.queue, s.worker.token) ==>
              a in s'.outbox.jobs && s'.outbox.jobs[a] == s.outbox.jobs[a]
    ensures PointsPlaced(t, s, s', s.worker.queue, s.worker.snap.epoch)
  {
    InvRun(t, INITIAL, cmds, s);
    var w := s.worker;
    n := DrainRuns(t, s);
    s' := Drained(t, s);
    DrainEnds(t, s);
    forall i | 0 <= i < |w.queue| ensures !Held(s', w.token, w.queue[i]) {
      NotHeld(s, s', w.queue, w.token, i);
    }
  }

  lemma NotHeld(s: State, s': State, queue: seq<Claimed>, token: string, i: nat)
    requires JobsGone(s, s', queue, token) && i < |queue|
    ensures !Held(s', token, queue[i])
  {
    var a := queue[i].article;
    if a in s'.outbox.jobs {
      assert !Removed(s, a, queue, token);
    }
  }

  // ----- a whole round of the worker -----

  /** A round can claim these jobs: RAG is on, the index is ready, and they are due. */
  predicate Claims(s: State, picked: seq<ArticleId>, token: string) {
    && s.worker.Idle? && s.settings.enabled && s.collection.Some? && s.row.Some? && s.row.value.status == IndexRow.Ready
    && picked != [] && Enabled(s.(worker := Armed("", Snapshot(IndexRow.Ready, 0, "", ""))), Claim(picked, token, Done))
  }

  /** Claiming as the worker does it: settings and row are read, then the jobs are leased. */
  function ClaimedBy(t: Text, s: State, picked: seq<ArticleId>, token: string): State
    requires Claims(s, picked, token)
  {
    var snap := Snapshot(IndexRow.Ready, s.row.value.epoch, s.row.value.fingerprint, "");
    ClaimNext(s.(worker := Armed(s.settings.fingerprint, snap)), picked, token, Done)
  }

  lemma RoundBegins(t: Text, s: State, picked: seq<ArticleId>, token: string)
    requires Claims(s, picked, token)
    ensures Runs(t, s, [Poll(Done), Arm(Done), Claim(picked, token, Done)], ClaimedBy(t, s, picked, token))
  {
    var snap := Snapshot(IndexRow.Ready, s.row.value.epoch, s.row.value.fingerprint, "");
    var polled := s.(worker := Polled(s.settings.fingerprint));
    var armed := s.(worker := Armed(s.settings.fingerprint, snap));
    assert Runs(t, s, [], s);
    RunsOn(t, s, [], s, Poll(Done));
    assert Next(t, s, Poll(Done)) == polled && [] + [Poll(Done)] == [Poll(Done)];
    RunsOn(t, s, [Poll(Done)], polled, Arm(Done));
    assert Next(t, polled, Arm(Done)) == armed && [Poll(Done)] + [Arm(Done)] == [Poll(Done), Arm(Done)];
    RunsOn(t, s, [Poll(Done), Arm(Done)], armed, Claim(picked, token, Done));
    assert [Poll(Done), Arm(Done)] + [Claim(picked, token, Done)] ==
             [Poll(Done), Arm(Done), Claim(picked, token, Done)];
  }

  lemma ClaimedStarts(t: Text, s: State, picked: seq<ArticleId>, token: string)
    requires Claims(s, picked, token)
    ensures Starting(ClaimedBy(t, s, picked, token)) && Distinct(ClaimedBy(t, s, picked, token).worker.queue)
  {
    var s1 := ClaimedBy(t, s, picked, token);
    assert |s1.worker.queue| == |picked|;
    assert forall i :: 0 <= i < |picked| ==> s1.worker.queue[i].article == picked[i];
  }

  /** The claimed rows, and no others, are the ones the batch removes. */
  lemma PickedAreRemoved(t: Text, s: State, picked: seq<ArticleId>, token: string, a: ArticleId)
    requires Inv(t, s) && Claims(s, picked, token) && a in s.outbox.jobs
    ensures var s1 := ClaimedBy(t, s, picked, token);
            && a in s1.outbox.jobs && (Removed(s1, a, s1.worker.queue, token) <==> a in picked)
            && (a !in picked ==> s1.outbox.jobs[a] == s.outbox.jobs[a])
  {
    var s1 := ClaimedBy(t, s, picked, token);
    if a in picked {
      var i :| 0 <= i < |picked| && picked[i] == a;
      assert Outbox.Named(s1.outbox.jobs[a], s1.worker.queue[i].id, token);
    }
    forall i | 0 <= i < |picked| && s1.worker.queue[i].id == s1.outbox.jobs[a].id ensures picked[i] == a {
      assert s.outbox.jobs[picked[i]].id == s.outbox.jobs[a].id;
    }
  }

  /** A job is claimed with the operation its article calls for, so what it leaves is what the public may see. */
  lemma DueIsPublic(t: Text, s: State, picked: seq<ArticleId>, token: string, i: nat)
    requires Inv(t, s) && Claims(s, picked, token) && i < |picked|
    ensures var s1 := ClaimedBy(t, s, picked, token);
            && s1.worker.queue[i].article == picked[i]
            && Due(s1, picked[i], s1.worker.queue[i].op) == Public(s, picked[i])
  {
    assert JobSound(s, picked[i]);
  }

  /**
   A round of the worker from any state a run can be in, with every call answered, removes exactly the jobs it
   claimed and leaves for each of their articles the chunks of its public content, and none if there is none.
   */
  lemma RoundEnds(t: Text, cmds: seq<Cmd>, s: State, picked: seq<ArticleId>, token: string) returns (n: nat, s': State)
    requires Runs(t, INITIAL, cmds, s) && Claims(s, picked, token)
    ensures Runs(t, s, [Poll(Done), Arm(Done), Claim(picked, token, Done)], ClaimedBy(t, s, picked, token))
    ensures Repeats(t, ClaimedBy(t, s, picked, token), Work(Done), n, s')
    ensures s' == s.(collection := s'.collection, outbox := s'.outbox)
    ensures forall a :: a in s'.outbox.jobs <==> a in s.outbox.jobs && a !in picked
    ensures forall a :: a in s'.outbox.jobs ==> s'.outbox.jobs[a] == s.outbox.jobs[a]
    ensures forall a :: a in picked ==> Matches(t, Stored(s'), a, s.row.value.epoch, Public(s, a))
  {
    InvRun(t, INITIAL, cmds, s);
    var s1 := ClaimedBy(t, s, picked, token);
    RoundBegins(t, s, picked, token);
    n, s' := ClaimedDrains(t, s, picked, token);
    RoundRemoves(t, s, picked, token, s');
    RoundPlaces(t, s, picked, token, s');
  }

  lemma ClaimedDrains(t: Text, s: State, picked: seq<ArticleId>, token: string) returns (n: nat, s': State)
    requires Claims(s, picked, token)
    ensures var s1 := ClaimedBy(t, s, picked, token);
            && Repeats(t, s1, Work(Done), n, s')
            && s' == s.(collection := s'.collection, outbox := s'.outbox)
            && JobsGone(s1, s', s1.worker.queue, token)
            && PointsPlaced(t, s1, s', s1.worker.queue, s.row.value.epoch)
  {
    var s1 := ClaimedBy(t, s, picked, token);
    ClaimedStarts(t, s, picked, token);
    n := DrainRuns(t, s1);
    s' := Drained(t, s1);
    DrainEnds(t, s1);
  }

  lemma RoundRemoves(t: Text, s: State, picked: seq<ArticleId>, token: string, s': State)
    requires Inv(t, s) && Claims(s, picked, token)
    requires var s1 := ClaimedBy(t, s, picked, token); JobsGone(s1, s', s1.worker.queue, token)
    ensures s'.outbox.nextId == s.outbox.nextId
    ensures forall a :: a in s'.outbox.jobs <==> a in s.outbox.jobs && a !in picked
    ensures forall a :: a in s'.outbox.jobs ==> s'.outbox.jobs[a] == s.outbox.jobs[a]
  {
    forall a | a in s.outbox.jobs
      ensures a in s'.outbox.jobs <==> a !in picked
      ensures a in s'.outbox.jobs ==> s'.outbox.jobs[a] == s.outbox.jobs[a]
    {
      PickedAreRemoved(t, s, picked, token, a);
    }
  }

  lemma RoundPlaces(t: Text, s: State, picked: seq<ArticleId>, token: string, s': State)
    requires Inv(t, s) && Claims(s, picked, token)
    requires var s1 := ClaimedBy(t, s, picked, token); PointsPlaced(t, s1, s', s1.worker.queue, s.row.value.epoch)
    ensures forall a :: a in picked ==> Matches(t, Stored(s'), a, s.row.value.epoch, Public(s, a))
  {
    var s1 := ClaimedBy(t, s, picked, token);
    forall a | a in picked ensures Matches(t, Stored(s'), a, s.row.value.epoch, Public(s, a)) {
      var i :| 0 <= i < |picked| && picked[i] == a;
      DueIsPublic(t, s, picked, token, i);
      assert s1.worker.queue[i].article == a;
    }
  }

  /**
   A claim without answer leaves the worker idle: nothing is leased if it had no effect, the same rows as ever
   if it had.
   */
  lemma LostClaim(t: Text, s: State, picked: seq<ArticleId>, token: string)
    requires Enabled(s, Claim(picked, token, Done))
    ensures Next(t, s, Claim(picked, token, Lost(false))) == s.(worker := Idle)
    ensures var lost, done := Next(t, s, Claim(picked, token, Lost(true))), Next(t, s, Claim(picked, token, Done));
            lost == s.(outbox := done.outbox, worker := Idle) && (picked == [] ==> done == lost)
  {
  }

  /** A round goes on only with RAG on and a ready row, whose values it takes; otherwise the worker is idle again. */
  lemma RoundNeedsReady(t: Text, s: State, o: Outcome)
    ensures s.worker.Idle? ==>
              Next(t, s, Poll(o)) ==
                s.(worker := if o == Done && s.settings.enabled then Polled(s.settings.fingerprint) else Idle)
    ensures s.worker.Polled? && (o.Lost? || s.row.None? || s.row.value.status != IndexRow.Ready) ==>
              Next(t, s, Arm(o)) == s.(worker := Idle)
    ensures s.worker.Polled? && o.Done? && s.row.Some? && s.row.value.status == IndexRow.Ready ==>
              && Next(t, s, Arm(o)).worker.Armed? && InForce(s, Next(t, s, Arm(o)).worker.snap)
              && Next(t, s, Arm(o)) == s.(worker := Next(t, s, Arm(o)).worker)
  {
  }
}
