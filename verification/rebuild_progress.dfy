/** A rebuild whose calls are all answered, with settings and target unchanged, gets to a ready row. */
module RebuildProgress {
  import opened Basics
  import opened VectorPoints
  import opened IndexRow
  import opened IndexWorker
  import opened IndexAgreement
  import opened JobProgress
  import Outbox

  function Listed(todo: seq<ArticleId>): set<ArticleId> {
    set a | a in todo
  }

  function AllPublic(s: State): set<ArticleId> {
    set a | a in s.articles && Public(s, a).Some?
  }

  lemma ListingIs(s: State, todo: seq<ArticleId>)
    requires ListingOf(s.articles, s.now, todo)
    ensures Listed(todo) == AllPublic(s)
  {
    forall a | a in Listed(todo) ensures a in AllPublic(s) {
      var i :| 0 <= i < |todo| && todo[i] == a;
    }
  }

  lemma ListingFrom(s: State, todo: seq<ArticleId>)
    requires Listed(todo) == AllPublic(s)
    ensures ListingOf(s.articles, s.now, todo)
  {
    forall a ensures a in todo <==> a in s.articles && Visible(s.articles[a], s.now) {
      assert a in Listed(todo) <==> a in AllPublic(s);
    }
    forall i | 0 <= i < |todo| ensures todo[i] in s.articles && Visible(s.articles[todo[i]], s.now) {
      assert todo[i] in todo;
    }
  }

  /** The listing is of exactly the public articles. */
  lemma ListingIff(s: State, todo: seq<ArticleId>)
    ensures ListingOf(s.articles, s.now, todo) <==> Listed(todo) == AllPublic(s)
  {
    if ListingOf(s.articles, s.now, todo) {
      ListingIs(s, todo);
    } else if Listed(todo) == AllPublic(s) {
      ListingFrom(s, todo);
    }
  }

  // ----- one article -----

  /** A rebuild between two of its steps, the row and the settings still those it was begun with. */
  predicate Rebuilds(s: State) {
    && s.worker.Rebuild? && InForce(s, s.worker.snap) && s.worker.snap.status == Rebuilding
    && s.settings == Settings(true, s.worker.snap.fingerprint)
  }

  function At(s: State, phase: Phase, points: Points): State
    requires s.worker.Rebuild?
  {
    s.(collection := Some(points), worker := s.worker.(phase := phase))
  }

  /** The k-th position in the course of the first article of the list. */
  function On(t: Text, s: State, todo: seq<ArticleId>, points: Points, k: nat): State
    requires s.worker.Rebuild? && todo != [] && k < |Course(t, s, todo[0], Outbox.Upsert)|
  {
    var snap := s.worker.snap;
    At(s, Index(todo, Course(t, s, todo[0], Outbox.Upsert)[k]),
       PointsAt(t, s, points, todo[0], Outbox.Upsert, snap.epoch, snap.fingerprint, k))
  }

  lemma OnNext(t: Text, s: State, todo: seq<ArticleId>, points: Points, k: nat, c: Cmd)
    requires Rebuilds(s) && c.Step? && c.o.Done? && todo != [] && k + 1 < |Course(t, s, todo[0], Outbox.Upsert)|
    ensures Enabled(On(t, s, todo, points, k), c)
              && Next(t, On(t, s, todo, points, k), c) == On(t, s, todo, points, k + 1)
  {
    var snap := s.worker.snap;
    CourseWorks(t, s, todo[0], Outbox.Upsert, k);
    CourseNext(t, s, snap, snap.fingerprint, todo[0], Outbox.Upsert, points, k, On(t, s, todo, points, k));
  }

  lemma {:induction false} OnRun(t: Text, s: State, todo: seq<ArticleId>, points: Points, k: nat, c: Cmd)
    requires Rebuilds(s) && c.Step? && c.o.Done? && todo != [] && k < |Course(t, s, todo[0], Outbox.Upsert)|
    ensures Repeats(t, On(t, s, todo, points, 0), c, k, On(t, s, todo, points, k))
  {
    if k == 0 {
      assert seq(0, _ => c) == [];
    } else {
      OnRun(t, s, todo, points, k - 1, c);
      OnNext(t, s, todo, points, k - 1, c);
      RepeatsMore(t, On(t, s, todo, points, 0), c, k - 1, On(t, s, todo, points, k - 1), On(t, s, todo, points, k));
    }
  }

  function Filled(t: Text, s: State, points: Points, a: ArticleId): Points
    requires s.worker.Rebuild?
  {
    Indexed(t, points, Public(s, a), a, s.worker.snap.epoch, s.worker.snap.fingerprint)
  }

  /** Check the lease, index one article, go on to the next. */
  lemma ArticleRuns(t: Text, s: State, todo: seq<ArticleId>, points: Points, c: Cmd) returns (n: nat)
    requires Rebuilds(s) && c.Step? && c.o.Done? && todo != []
    ensures Repeats(t, At(s, Check(Index(todo, Start)), points), c, n,
                    At(s, Loop(todo[1..]), Filled(t, s, points, todo[0])))
  {
    var from := At(s, Check(Index(todo, Start)), points);
    var last := |Course(t, s, todo[0], Outbox.Upsert)| - 1;
    CourseEnds(t, s, todo[0], Outbox.Upsert);
    var first, end := On(t, s, todo, points, 0), On(t, s, todo, points, last);
    assert seq(0, _ => c) == [] && Repeats(t, from, c, 0, from);
    RepeatsMore(t, from, c, 0, from, first);
    OnRun(t, s, todo, points, last, c);
    RepeatsThen(t, from, c, 1, first, last, end);
    ArticleIsThrough(t, s, todo, points, c);
    RepeatsMore(t, from, c, 1 + last, end, At(s, Loop(todo[1..]), Filled(t, s, points, todo[0])));
    n := last + 2;
  }

  lemma ArticleIsThrough(t: Text, s: State, todo: seq<ArticleId>, points: Points, c: Cmd)
    requires Rebuilds(s) && c.Step? && todo != []
    requires var course := Course(t, s, todo[0], Outbox.Upsert); course != [] && course[|course| - 1] == Succeeded
    ensures var end := On(t, s, todo, points, |Course(t, s, todo[0], Outbox.Upsert)| - 1);
            Enabled(end, c) && Next(t, end, c) == At(s, Loop(todo[1..]), Filled(t, s, points, todo[0]))
  {
  }

  // ----- all articles -----

  function FilledAll(t: Text, s: State, points: Points, todo: seq<ArticleId>): Points
    requires s.worker.Rebuild?
    decreases |todo|
  {
    if todo == [] then points else FilledAll(t, s, Filled(t, s, points, todo[0]), todo[1..])
  }

  lemma {:induction false} ListRuns(t: Text, s: State, todo: seq<ArticleId>, points: Points, c: Cmd) returns (n: nat)
    requires Rebuilds(s) && c.Step? && c.o.Done?
    ensures Repeats(t, At(s, Loop(todo), points), c, n, At(s, Check(Settle), FilledAll(t, s, points, todo)))
    decreases |todo|
  {
    if todo == [] {
      n := 0;
      assert seq(0, _ => c) == [];
    } else {
      var filled := Filled(t, s, points, todo[0]);
      n := ArticleRuns(t, s, todo, points, c);
      var m := ListRuns(t, s, todo[1..], filled, c);
      RepeatsThen(t, At(s, Loop(todo), points), c, n, At(s, Loop(todo[1..]), filled), m,
                  At(s, Check(Settle), FilledAll(t, s, points, todo)));
      n := n + m;
    }
  }

  /** Only the articles that are through, or were there before, have points, and all of them the right ones. */
  ghost predicate Holds(t: Text, s: State, points: Points, done: set<ArticleId>, epoch: nat) {
    && (forall k :: k in points ==> k.epoch == epoch)
    && (forall a :: Matches(t, points, a, epoch, if a in done then Public(s, a) else None))
  }

  lemma FilledHolds(t: Text, s: State, points: Points, done: set<ArticleId>, a: ArticleId)
    requires s.worker.Rebuild? && Holds(t, s, points, done, s.worker.snap.epoch)
    ensures Holds(t, s, Filled(t, s, points, a), done + {a}, s.worker.snap.epoch)
  {
    var snap, points' := s.worker.snap, Filled(t, s, points, a);
    IndexedMatches(t, points, Public(s, a), a, snap.epoch, snap.fingerprint);
    forall b ensures Matches(t, points', b, snap.epoch, if b in done + {a} then Public(s, b) else None) {
      if b != a {
        assert Matches(t, points, b, snap.epoch, if b in done then Public(s, b) else None);
      }
    }
  }

  lemma {:induction false} FilledAllHolds(t: Text, s: State, points: Points, done: set<ArticleId>, todo: seq<ArticleId>)
    requires s.worker.Rebuild? && Holds(t, s, points, done, s.worker.snap.epoch)
    ensures Holds(t, s, FilledAll(t, s, points, todo), done + (set a | a in todo), s.worker.snap.epoch)
    decreases |todo|
  {
    if todo == [] {
      assert done + (set a | a in todo) == done;
    } else {
      FilledHolds(t, s, points, done, todo[0]);
      FilledAllHolds(t, s, Filled(t, s, points, todo[0]), done + {todo[0]}, todo[1..]);
      assert done + (set a | a in todo) == done + {todo[0]} + (set a | a in todo[1..]);
    }
  }

  // ----- the whole rebuild -----

  /** From a fresh collection to the check before the settings are read again. */
  lemma EmptyRuns(t: Text, s: State, c: Cmd)
    requires Rebuilds(s) && c.Step? && c.o.Done? && ListingOf(s.articles, s.now, c.todo)
    ensures Repeats(t, s.(worker := s.worker.(phase := Check(Drop))), c, 6, At(s, Loop(c.todo), map[]))
  {
    var from := s.(worker := s.worker.(phase := Check(Drop)));
    var dropped := s.(collection := None, worker := s.worker.(phase := Check(Create)));
    assert seq(0, _ => c) == [] && Repeats(t, from, c, 0, from);
    RepeatsMore(t, from, c, 0, from, s.(worker := s.worker.(phase := Drop)));
    RepeatsMore(t, from, c, 1, s.(worker := s.worker.(phase := Drop)), dropped);
    RepeatsMore(t, from, c, 2, dropped, dropped.(worker := s.worker.(phase := Create)));
    RepeatsMore(t, from, c, 3, dropped.(worker := s.worker.(phase := Create)), At(s, Check(List), map[]));
    RepeatsMore(t, from, c, 4, At(s, Check(List), map[]), At(s, List, map[]));
    RepeatsMore(t, from, c, 5, At(s, List, map[]), At(s, Loop(c.todo), map[]));
  }

  /** The row the rebuild completes: ready, for the model and at the epoch it was claimed with. */
  function Completed(s: State, c: Cmd): Row
    requires Rebuilds(s) && c.Step?
  {
    s.row.value.(status := Ready, lastError := None, articleCount := c.articleCount, chunkCount := c.chunkCount,
                 completedAt := Some(s.now), token := None, expires := None)
  }

  lemma EndRuns(t: Text, s: State, points: Points, c: Cmd)
    requires Rebuilds(s) && c.Step? && c.o.Done?
    ensures Repeats(t, At(s, Check(Settle), points), c, 3,
                    s.(collection := Some(points), row := Some(Completed(s, c)), worker := Idle))
  {
    var from := At(s, Check(Settle), points);
    assert seq(0, _ => c) == [] && Repeats(t, from, c, 0, from);
    RepeatsMore(t, from, c, 0, from, At(s, Settle, points));
    RepeatsMore(t, from, c, 1, At(s, Settle, points), At(s, Finish, points));
    RepeatsMore(t, from, c, 2, At(s, Finish, points),
                s.(collection := Some(points), row := Some(Completed(s, c)), worker := Idle));
  }

  /** What a rebuild makes of the state it was claimed in. */
  function Rebuilt(t: Text, s: State, c: Cmd): State
    requires Rebuilds(s) && c.Step?
  {
    s.(collection := Some(FilledAll(t, s, map[], c.todo)), row := Some(Completed(s, c)), worker := Idle)
  }

  lemma RebuildRuns(t: Text, s: State, c: Cmd) returns (n: nat)
    requires Rebuilds(s) && s.worker.phase == Check(Drop) && c.Step? && c.o.Done?
               && ListingOf(s.articles, s.now, c.todo)
    ensures Repeats(t, s, c, n, Rebuilt(t, s, c))
  {
    EmptyRuns(t, s, c);
    assert s.(worker := s.worker.(phase := Check(Drop))) == s;
    n := ListRuns(t, s, c.todo, map[], c);
    var settling := At(s, Check(Settle), FilledAll(t, s, map[], c.todo));
    RepeatsThen(t, s, c, 6, At(s, Loop(c.todo), map[]), n, settling);
    EndRuns(t, s, FilledAll(t, s, map[], c.todo), c);
    RepeatsThen(t, s, c, 6 + n, settling, 3, Rebuilt(t, s, c));
    n := n + 9;
  }

  lemma RebuiltHolds(t: Text, s: State, c: Cmd)
    requires Rebuilds(s) && c.Step? && ListingOf(s.articles, s.now, c.todo)
    ensures var points := FilledAll(t, s, map[], c.todo);
            && (forall k :: k in points ==> k.epoch == s.worker.snap.epoch)
            && (forall a :: Matches(t, points, a, s.worker.snap.epoch, Public(s, a)))
  {
    FilledAllHolds(t, s, map[], {}, c.todo);
    var listed := {} + (set a | a in c.todo);
    forall a ensures Matches(t, FilledAll(t, s, map[], c.todo), a, s.worker.snap.epoch, Public(s, a)) {
      assert (if a in listed then Public(s, a) else None) == Public(s, a);
      assert Matches(t, FilledAll(t, s, map[], c.todo), a, s.worker.snap.epoch,
                     if a in listed then Public(s, a) else None);
    }
  }

  /**
   A claimed rebuild whose steps are all answered, under the settings it was begun with, makes the row ready at the
   next epoch and for that model, with the counts it was given, and leaves as points exactly the chunks of every
   public article.
   */
  lemma RebuildEnds(t: Text, s: State, fp: string, token: string, c: Cmd) returns (n: nat, s': State)
    requires s.worker.Idle? && s.settings == Settings(true, fp)
    requires BeginOutcome(s.row, fp, token, s.now, 16 * MINUTE).Granted?
    requires c.Step? && c.o.Done? && ListingOf(s.articles, s.now, c.todo)
    ensures Repeats(t, Next(t, s, Begin(fp, token, Done)), c, n, s')
    ensures s' == s.(collection := s'.collection, row := s'.row) && s'.collection.Some? && s'.row.Some?
    ensures s'.row.value.status == Ready && s'.row.value.fingerprint == fp && EpochOf(s'.row) == EpochOf(s.row) + 1
    ensures s'.row.value.articleCount == c.articleCount && s'.row.value.chunkCount == c.chunkCount
    ensures s'.row.value.completedAt == Some(s.now) && s'.row.value.token.None? && s'.row.value.expires.None?
    ensures forall k :: k in Stored(s') ==> k.epoch == EpochOf(s'.row)
    ensures forall a :: Matches(t, Stored(s'), a, EpochOf(s'.row), Public(s, a))
  {
    var s1 := Next(t, s, Begin(fp, token, Done));
    Begun(t, s, fp, token);
    n := RebuildRuns(t, s1, c);
    s' := Rebuilt(t, s1, c);
    RebuiltHolds(t, s1, c);
    forall a ensures Public(s1, a) == Public(s, a) {
    }
  }

  lemma Begun(t: Text, s: State, fp: string, token: string)
    requires s.worker.Idle? && s.settings == Settings(true, fp)
    requires BeginOutcome(s.row, fp, token, s.now, 16 * MINUTE).Granted?
    ensures var s1, epoch := Next(t, s, Begin(fp, token, Done)), EpochOf(s.row) + 1;
            && s1 == s.(row := s1.row, worker := Rebuild(Snapshot(Rebuilding, epoch, fp, token), Check(Drop)))
            && Rebuilds(s1) && s1.row.value.fingerprint == fp && EpochOf(s1.row) == epoch
  {
  }

  // ----- when a step of a rebuild does not succeed -----

  /** Every step whose answer is lost, and every check that finds another row, ends in the failure update. */
  lemma RebuildBreaks(t: Text, s: State, c: Cmd)
    requires c.Step? && Enabled(s, c)
    requires s.worker.phase.Check? || s.worker.phase.Drop? || s.worker.phase.Create? || s.worker.phase.List?
             || s.worker.phase.Settle?
             || (s.worker.phase.Index? && s.worker.phase.todo != [] && s.worker.phase.pc.Broken?)
    requires c.o.Lost? || (s.worker.phase.Check? && !InForce(s, s.worker.snap)) || s.worker.phase.Index?
    ensures Next(t, s, c).worker == s.worker.(phase := FailUpdate) && Next(t, s, c).row == s.row
  {
  }

  /** A lost call of a rebuild changes the worker only, or, if it took effect, the rest just as an answered one does. */
  lemma LostStep(t: Text, s: State, articles: nat, chunks: nat, todo: seq<ArticleId>)
    requires Enabled(s, Step(Done, articles, chunks, todo))
    ensures var lost := Next(t, s, Step(Lost(false), articles, chunks, todo)); lost == s.(worker := lost.worker)
    ensures var lost := Next(t, s, Step(Lost(true), articles, chunks, todo));
            lost == Next(t, s, Step(Done, articles, chunks, todo)).(worker := lost.worker)
  {
    if s.worker.phase.Index? && s.worker.phase.todo != [] {
      var snap := s.worker.snap;
      LostCalls(t, s, snap, snap.fingerprint, s.worker.phase.todo[0], Outbox.Upsert, s.worker.phase.pc);
    }
  }

  /**
   Such a rebuild, or one that finds other settings, leaves the row it still owns to the next one: failed if the
   target is still its own, otherwise waiting for a rebuild with the target kept.
   */
  lemma BrokenRebuildGivesUp(t: Text, s: State, c: Cmd) returns (n: nat, s': State)
    requires s.worker.Rebuild? && s.worker.phase.FailUpdate? && c.Step? && c.o.Done?
    requires Owns(s.row, s.worker.snap.epoch, s.worker.snap.token, s.now)
    ensures Repeats(t, s, c, n, s') && s' == s.(row := s'.row, worker := Idle) && s'.row.Some?
    ensures s'.row.value.epoch == s.row.value.epoch && s'.row.value.fingerprint == s.row.value.fingerprint
    ensures s'.row.value.token.None? && s'.row.value.expires.None? && s'.row.value.completedAt.None?
    ensures s'.row.value.status == if s.row.value.fingerprint == s.worker.snap.fingerprint then Failed else NeedsRebuild
  {
    assert seq(0, _ => c) == [] && Repeats(t, s, c, 0, s);
    var s1 := Next(t, s, c);
    RepeatsMore(t, s, c, 0, s, s1);
    n, s' := 1, s1;
    if s1.worker.Rebuild? {
      RepeatsMore(t, s, c, 1, s1, Next(t, s1, c));
      n, s' := 2, Next(t, s1, c);
    }
  }

  lemma OtherSettingsRelease(t: Text, s: State, c: Cmd) returns (s': State)
    requires s.worker.Rebuild? && s.worker.phase.Settle? && c.Step? && c.o.Done?
    requires !s.settings.enabled || s.settings.fingerprint != s.worker.snap.fingerprint
    requires Owns(s.row, s.worker.snap.epoch, s.worker.snap.token, s.now)
    ensures Repeats(t, s, c, 2, s') && s' == s.(row := s'.row, worker := Idle) && s'.row.Some?
    ensures s'.row.value == FRESH.(epoch := s.row.value.epoch, fingerprint := s.row.value.fingerprint)
  {
    assert seq(0, _ => c) == [] && Repeats(t, s, c, 0, s);
    var s1 := Next(t, s, c);
    RepeatsMore(t, s, c, 0, s, s1);
    s' := Next(t, s1, c);
    RepeatsMore(t, s, c, 1, s1, s');
  }

  /** A collection that is still there is not created again: the rebuild fails and leaves it. */
  lemma ExistingCollectionFails(t: Text, s: State, c: Cmd)
    requires s.worker.Rebuild? && s.worker.phase.Create? && s.collection.Some? && c.Step?
    ensures Next(t, s, c) == s.(worker := s.worker.(phase := FailUpdate))
  {
  }

  /**
   A claim of the row without answer, or one refused, starts no rebuild; the row is claimed exactly if it took
   effect.
   */
  lemma NoRebuildWithoutGrant(t: Text, s: State, fp: string, token: string)
    requires s.worker.Idle?
    ensures Next(t, s, Begin(fp, token, Lost(false))) == s
    ensures Next(t, s, Begin(fp, token, Lost(true))) == s.(row := BeginRow(s.row, fp, token, s.now, 16 * MINUTE))
    ensures !BeginOutcome(s.row, fp, token, s.now, 16 * MINUTE).Granted? ==>
              Next(t, s, Begin(fp, token, Done)).worker.Idle?
  {
  }
}
