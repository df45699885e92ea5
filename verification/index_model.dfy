/**
 Which embedding model the points of a ready index were made with. The row keeps the model it was
 claimed for, but a batch embeds with the settings it read itself, and saving new settings and
 recording the new target in the row are two separate steps.
 */
module IndexModel {
  import opened Basics
  import opened Articles
  import opened VectorPoints
  import opened IndexRow
  import opened IndexWorker
  import opened IndexAgreement
  import Outbox

  /** Every point a search at a ready row can return was embedded with the row's model. */
  ghost predicate OneModel(s: State) {
    s.row.Some? && s.row.value.status == Ready ==>
      forall k :: k in Stored(s) && k.epoch == s.row.value.epoch ==> Stored(s)[k].fingerprint == s.row.value.fingerprint
  }

  /** An insertion, with effect, into a ready index of another model than the worker embeds with. */
  predicate Mixes(t: Text, s: State, c: Cmd) {
    && c.Work? && s.worker.Working? && s.worker.pc.Insert? && c.o != Lost(false)
    && s.collection.Some? && Chunks(t, s.worker.pc.article) != []
    && s.row.Some? && s.row.value.status == Ready && s.worker.fingerprint != s.row.value.fingerprint
  }

  /** A rebuild has put points of its own model only into its epoch, which is new. */
  ghost predicate ModelInv(s: State) {
    && OneModel(s)
    && (s.worker.Rebuild? ==>
          forall k :: k in Stored(s) && k.epoch == s.worker.snap.epoch ==>
            Stored(s)[k].fingerprint == s.worker.snap.fingerprint)
  }

  /** The only new points of a job step carry the fingerprint the worker embeds with. */
  lemma JobModel(t: Text, s: State, snap: Snapshot, fp: string, a: ArticleId, op: Outbox.Op, pc: Pc, o: Outcome, k: Key)
    requires s.collection.Some?
    requires JobNext(t, s, snap, fp, a, op, pc, o).0.Some? && k in JobNext(t, s, snap, fp, a, op, pc, o).0.value
    ensures var body := JobNext(t, s, snap, fp, a, op, pc, o).0.value[k];
            body.fingerprint == fp || (k in s.collection.value && body == s.collection.value[k])
  {
    if pc.Insert? {
      var batch := Batch(t, pc.article, a, snap.epoch, fp);
      UpsertLookup(s.collection.value, batch);
      if i :| 0 <= i < |batch| && batch[i].key == k {
        assert batch[i].body.fingerprint == fp;
      }
    }
  }

  /** New points of a batch are the worker's; with an index of one model they are the row's too. */
  lemma WorkModel(t: Text, s: State, c: Cmd)
    requires Inv(t, s) && ModelInv(s) && Enabled(s, c) && c.Work? && !Mixes(t, s, c)
    ensures ModelInv(Next(t, s, c))
  {
    if s.worker.pc.Insert? {
      InsertModel(t, s, c);
    } else {
      NothingInserted(t, s, c);
    }
  }

  lemma NothingInserted(t: Text, s: State, c: Cmd)
    requires OneModel(s) && Enabled(s, c) && c.Work? && !s.worker.pc.Insert?
    ensures OneModel(Next(t, s, c)) && !Next(t, s, c).worker.Rebuild?
  {
    assert forall k :: k in Stored(Next(t, s, c)) ==> k in Stored(s) && Stored(Next(t, s, c))[k] == Stored(s)[k];
  }

  lemma InsertModel(t: Text, s: State, c: Cmd)
    requires Inv(t, s) && OneModel(s) && Enabled(s, c) && c.Work? && s.worker.pc.Insert? && !Mixes(t, s, c)
    ensures OneModel(Next(t, s, c)) && Next(t, s, c).worker.Working?
  {
    var s', w := Next(t, s, c), s.worker;
    if s.collection.Some? {
      forall k | k in Stored(s')
        ensures Stored(s')[k].fingerprint == w.fingerprint || (k in Stored(s) && Stored(s')[k] == Stored(s)[k])
      {
        JobModel(t, s, w.snap, w.fingerprint, w.queue[0].article, w.queue[0].op, w.pc, c.o, k);
      }
    }
  }

  lemma IndexPhaseModel(t: Text, s: State, c: Cmd)
    requires Inv(t, s) && ModelInv(s) && Enabled(s, c) && c.Step? && s.worker.phase.Index?
    ensures ModelInv(Next(t, s, c))
  {
    var s', snap, phase := Next(t, s, c), s.worker.snap, s.worker.phase;
    forall k | k in Stored(s') && !(k in Stored(s) && Stored(s')[k] == Stored(s)[k])
      ensures Stored(s')[k].fingerprint == snap.fingerprint
    {
      JobModel(t, s, snap, snap.fingerprint, phase.todo[0], Outbox.Upsert, phase.pc, c.o, k);
    }
  }

  /** Outside of its index loop a rebuild adds no points, and makes the row ready for its own model only. */
  lemma RebuildModel(t: Text, s: State, c: Cmd)
    requires Inv(t, s) && ModelInv(s) && Enabled(s, c) && c.Step? && !s.worker.phase.Index?
    ensures ModelInv(Next(t, s, c))
  {
    if s.worker.phase.Finish? || s.worker.phase.FailUpdate? || s.worker.phase.ReleaseUpdate? {
      ClosedModel(t, s, c);
    } else {
      assert forall k :: k in Stored(Next(t, s, c)) ==> k in Stored(s) && Stored(Next(t, s, c))[k] == Stored(s)[k];
    }
  }

  lemma ClosedModel(t: Text, s: State, c: Cmd)
    requires Inv(t, s) && ModelInv(s) && Enabled(s, c) && c.Step?
    requires s.worker.phase.Finish? || s.worker.phase.FailUpdate? || s.worker.phase.ReleaseUpdate?
    ensures ModelInv(Next(t, s, c))
  {
  }

  /** A claim opens an epoch without points; nothing else but a task ever changes points or readiness. */
  lemma OtherModel(t: Text, s: State, c: Cmd)
    requires Inv(t, s) && ModelInv(s) && Enabled(s, c) && !c.Work? && !c.Step?
    ensures ModelInv(Next(t, s, c))
  {
    var s' := Next(t, s, c);
    assert Stored(s') == Stored(s);
    if !c.Begin? {
      QuietModel(t, s, c);
    }
  }

  lemma QuietModel(t: Text, s: State, c: Cmd)
    requires ModelInv(s) && Enabled(s, c) && !c.Work? && !c.Step? && !c.Begin?
    ensures ModelInv(Next(t, s, c))
  {
  }

  lemma ModelStep(t: Text, s: State, c: Cmd)
    requires Inv(t, s) && ModelInv(s) && Enabled(s, c) && !Mixes(t, s, c)
    ensures ModelInv(Next(t, s, c))
  {
    if c.Work? {
      WorkModel(t, s, c);
    } else if c.Step? && s.worker.phase.Index? {
      IndexPhaseModel(t, s, c);
    } else if c.Step? {
      RebuildModel(t, s, c);
    } else {
      OtherModel(t, s, c);
    }
  }

  lemma InsertedPoint(t: Text, points: Points, article: Article, a: ArticleId, epoch: nat, fp: string) returns (k: Key)
    requires Chunks(t, article) != []
    ensures var points' := Upsert(points, Batch(t, article, a, epoch, fp));
            k in points' && k.epoch == epoch && points'[k].fingerprint == fp
  {
    var batch := Batch(t, article, a, epoch, fp);
    UpsertLookup(points, batch);
    k := batch[0].key;
    assert batch[0].body.fingerprint == fp;
  }

  /** An insertion that mixes ends the index of one model at once. */
  lemma MixingMixes(t: Text, s: State, c: Cmd)
    requires Inv(t, s) && Enabled(s, c) && Mixes(t, s, c)
    ensures !OneModel(Next(t, s, c))
  {
    var w := s.worker;
    var k := InsertedPoint(t, s.collection.value, w.pc.article, w.queue[0].article, w.snap.epoch, w.fingerprint);
    assert k in Stored(Next(t, s, c));
  }

  /** The exact point of failure: an insertion keeps a ready index of one model so iff the batch has the row's model. */
  lemma InsertionKeepsOneModelIff(t: Text, s: State, o: Outcome)
    requires Inv(t, s) && OneModel(s) && s.row.Some? && s.row.value.status == Ready
    requires s.worker.Working? && s.worker.pc.Insert? && s.collection.Some? && o != Lost(false)
    requires Chunks(t, s.worker.pc.article) != []
    ensures OneModel(Next(t, s, Work(o))) <==> s.worker.fingerprint == s.row.value.fingerprint
  {
    if s.worker.fingerprint == s.row.value.fingerprint {
      WorkModel(t, s, Work(o));
    } else {
      MixingMixes(t, s, Work(o));
    }
  }

  // ----- every run -----

  /** In every state of the run a ready index has one model. */
  ghost predicate AlwaysOneModel(t: Text, s: State, cmds: seq<Cmd>)
    decreases |cmds|
  {
    OneModel(s) && (cmds != [] && Enabled(s, cmds[0]) ==> AlwaysOneModel(t, Next(t, s, cmds[0]), cmds[1..]))
  }

  /** No insertion of the run meets a ready row of another model. */
  predicate NeverMixes(t: Text, s: State, cmds: seq<Cmd>)
    decreases |cmds|
  {
    cmds != [] && Enabled(s, cmds[0]) ==> !Mixes(t, s, cmds[0]) && NeverMixes(t, Next(t, s, cmds[0]), cmds[1..])
  }

  lemma {:induction false} OneModelFrom(t: Text, s: State, cmds: seq<Cmd>)
    requires Inv(t, s) && ModelInv(s)
    ensures AlwaysOneModel(t, s, cmds) <==> NeverMixes(t, s, cmds)
    decreases |cmds|
  {
    if cmds != [] && Enabled(s, cmds[0]) {
      if Mixes(t, s, cmds[0]) {
        MixingMixes(t, s, cmds[0]);
      } else {
        InvStep(t, s, cmds[0]);
        ModelStep(t, s, cmds[0]);
        OneModelFrom(t, Next(t, s, cmds[0]), cmds[1..]);
      }
    }
  }

  /** A ready index has one model throughout a run, exactly if no insertion of the run meets a row of another model. */
  lemma OneModelRunIff(t: Text, cmds: seq<Cmd>)
    ensures AlwaysOneModel(t, INITIAL, cmds) <==> NeverMixes(t, INITIAL, cmds)
  {
    OneModelFrom(t, INITIAL, cmds);
  }

  /** The batch about to start read settings for the model the row names: process holds both values. */
  predicate Matched(s: State, c: Cmd) {
    c.Arm? && s.worker.Polled? && s.row.Some? && s.row.value.status == Ready ==>
      s.worker.fingerprint == s.row.value.fingerprint
  }

  predicate MatchedRuns(t: Text, s: State, cmds: seq<Cmd>, s': State)
    decreases |cmds|
  {
    if cmds == [] then s == s'
    else Enabled(s, cmds[0]) && Matched(s, cmds[0]) && MatchedRuns(t, Next(t, s, cmds[0]), cmds[1..], s')
  }

  /** A batch that started matched embeds with the row's model as long as the row is ready. */
  predicate BatchMatches(s: State) {
    (s.worker.Armed? || s.worker.Working?) && s.row.Some? && s.row.value.status == Ready ==>
      s.worker.fingerprint == s.row.value.fingerprint
  }

  lemma MatchedStep(t: Text, s: State, c: Cmd)
    requires BatchMatches(s) && Enabled(s, c) && Matched(s, c)
    ensures BatchMatches(Next(t, s, c)) && !Mixes(t, s, c)
  {
  }

  lemma {:induction false} MatchedRun(t: Text, s: State, cmds: seq<Cmd>, s': State)
    requires Inv(t, s) && ModelInv(s) && BatchMatches(s) && MatchedRuns(t, s, cmds, s')
    ensures OneModel(s') && NeverMixes(t, s, cmds)
    decreases |cmds|
  {
    if cmds != [] {
      MatchedStep(t, s, cmds[0]);
      InvStep(t, s, cmds[0]);
      ModelStep(t, s, cmds[0]);
      MatchedRun(t, Next(t, s, cmds[0]), cmds[1..], s');
    }
  }

  /** If no batch ever starts with settings for another model, a ready index holds points of one model only. */
  lemma MatchedIndexHasOneModel(t: Text, cmds: seq<Cmd>, s: State)
    requires MatchedRuns(t, INITIAL, cmds, s)
    ensures OneModel(s) && AlwaysOneModel(t, INITIAL, cmds)
  {
    MatchedRun(t, INITIAL, cmds, s);
    OneModelRunIff(t, cmds);
  }

  // ----- a run that mixes models -----

  /** An empty index built for model "A" and ready at epoch 1. */
  const READY_A := State(0, map[], Outbox.Table(map[], 1),
    Some(Row(Ready, 1, "A", None, 0, 0, Some(0), Some(0), None, None)), Settings(true, "A"), Some(map[]), Idle)

  ghost predicate Reachable(t: Text, s: State) {
    exists cmds :: Runs(t, INITIAL, cmds, s)
  }

  lemma Reach(t: Text, s: State, c: Cmd, s': State)
    requires Reachable(t, s) && Enabled(s, c) && Next(t, s, c) == s'
    ensures Reachable(t, s')
  {
    var cmds :| Runs(t, INITIAL, cmds, s);
    RunsOn(t, INITIAL, cmds, s, c);
  }

  const CONFIGURED := INITIAL.(settings := Settings(true, "A"))

  /** The rebuild of the empty index, claimed at time zero. */
  function Building(phase: Phase, collection: Option<Points>): State {
    CONFIGURED.(row := Some(Row(Rebuilding, 1, "A", None, 0, 0, Some(0), None, Some("r"), Some(16 * MINUTE))),
                collection := collection, worker := Rebuild(Snapshot(Rebuilding, 1, "A", "r"), phase))
  }

  const GO := Step(Done, 0, 0, [])

  lemma BuildingBegins(t: Text)
    ensures Reachable(t, Building(Check(Drop), None))
  {
    assert Runs(t, INITIAL, [], INITIAL);
    Reach(t, INITIAL, Save(Settings(true, "A")), CONFIGURED);
    Reach(t, CONFIGURED, Begin("A", "r", Done), Building(Check(Drop), None));
  }

  lemma CheckPasses(t: Text, next: Phase, collection: Option<Points>)
    requires Reachable(t, Building(Check(next), collection))
    ensures Reachable(t, Building(next, collection))
  {
    Reach(t, Building(Check(next), collection), GO, Building(next, collection));
  }

  lemma CollectionIsRenewed(t: Text)
    requires Reachable(t, Building(Check(Drop), None))
    ensures Reachable(t, Building(Check(List), Some(map[])))
  {
    CheckPasses(t, Drop, None);
    Reach(t, Building(Drop, None), GO, Building(Check(Create), None));
    CheckPasses(t, Create, None);
    Reach(t, Building(Create, None), GO, Building(Check(List), Some(map[])));
  }

  lemma NothingIsListed(t: Text)
    requires Reachable(t, Building(Check(List), Some(map[])))
    ensures Reachable(t, Building(Check(Settle), Some(map[])))
  {
    CheckPasses(t, List, Some(map[]));
    Reach(t, Building(List, Some(map[])), GO, Building(Check(Settle), Some(map[])));
  }

  lemma SettingsAreUnchanged(t: Text)
    requires Reachable(t, Building(Check(Settle), Some(map[])))
    ensures Reachable(t, Building(Finish, Some(map[])))
  {
    CheckPasses(t, Settle, Some(map[]));
    Reach(t, Building(Settle, Some(map[])), GO, Building(Finish, Some(map[])));
  }

  lemma BuildingEnds(t: Text)
    requires Reachable(t, Building(Finish, Some(map[])))
    ensures Reachable(t, READY_A)
  {
    Reach(t, Building(Finish, Some(map[])), GO, READY_A);
  }

  lemma BuildEmptyIndex(t: Text)
    ensures Reachable(t, READY_A)
  {
    BuildingBegins(t);
    CollectionIsRenewed(t);
    NothingIsListed(t);
    SettingsAreUnchanged(t);
    BuildingEnds(t);
  }

  const ARTICLE := Article("t", "", "x", Published, None)
  const POINT := Key(1, 7, 0, "h")
  const QUEUED := READY_A.(articles := map[7 := ARTICLE],
                           outbox := Outbox.Table(map[7 := Outbox.Job(1, Outbox.Upsert, 1, 0, None, 0)], 2))
  const SAVED := QUEUED.(settings := Settings(true, "B"))
  const SNAP := Snapshot(Ready, 1, "A", "")
  const BATCH := Working("B", SNAP, "j", [Claimed(7, 1, Outbox.Upsert, 1)], Start)
  const HELD := SAVED.(outbox := Outbox.Table(
    map[7 := Outbox.Job(1, Outbox.Upsert, 1, 0, Some(Outbox.Lease("j", 24 * MINUTE)), 1)], 2))
  const WRITTEN := HELD.(collection := Some(map[POINT := Body("x", "B")]))
  const MIXED := WRITTEN.(outbox := Outbox.Table(map[], 2), worker := Idle)

  function WorkingOn(pc: Pc): State {
    HELD.(worker := BATCH.(pc := pc))
  }

  ghost predicate Tiny(t: Text) {
    t.split("x") == ["x"] && t.hash("t", "", "x") == "h"
  }

  lemma ClaimsTheArticle(t: Text)
    ensures Enabled(SAVED.(worker := Armed("B", SNAP)), Claim([7], "j", Done))
    ensures Next(t, SAVED.(worker := Armed("B", SNAP)), Claim([7], "j", Done)) == HELD.(worker := BATCH)
  {
    var s := SAVED.(worker := Armed("B", SNAP));
    var s' := Next(t, s, Claim([7], "j", Done));
    assert (set a | a in [7]) == {7};
    assert s'.outbox == HELD.outbox;
    assert s'.worker.queue == BATCH.queue;
  }

  lemma WorkOn(t: Text, pc: Pc, pc': Pc)
    requires Reachable(t, WorkingOn(pc)) && !pc.Succeeded? && !pc.Broken?
    requires JobNext(t, WorkingOn(pc), SNAP, "B", 7, Outbox.Upsert, pc, Done) == (Some(map[]), pc')
    ensures Reachable(t, WorkingOn(pc'))
  {
    Reach(t, WorkingOn(pc), Work(Done), WorkingOn(pc'));
  }

  lemma ReadsTheArticle(t: Text)
    requires Tiny(t) && Reachable(t, WorkingOn(Start))
    ensures Reachable(t, WorkingOn(Purge(Keep(ARTICLE))))
  {
    WorkOn(t, Start, Load);
    WorkOn(t, Load, Judge(Some(ARTICLE)));
    WorkOn(t, Judge(Some(ARTICLE)), Purge(Keep(ARTICLE)));
  }

  lemma PurgesNothing(t: Text)
    requires Reachable(t, WorkingOn(Purge(Keep(ARTICLE))))
    ensures Reachable(t, WorkingOn(Recheck(ARTICLE)))
  {
    assert DeleteArticleAtEpoch(map[], 7, 1) == map[];
    WorkOn(t, Purge(Keep(ARTICLE)), Recheck(ARTICLE));
  }

  lemma RowIsCurrent(pc: Pc)
    ensures InForce(WorkingOn(pc), SNAP)
  {
  }

  lemma RechecksTheRow(t: Text)
    requires Reachable(t, WorkingOn(Recheck(ARTICLE)))
    ensures Reachable(t, WorkingOn(Embed(ARTICLE)))
  {
    RowIsCurrent(Recheck(ARTICLE));
    WorkOn(t, Recheck(ARTICLE), Embed(ARTICLE));
  }

  lemma EmbedsTheArticle(t: Text)
    requires Reachable(t, WorkingOn(Embed(ARTICLE)))
    ensures Reachable(t, WorkingOn(Insert(ARTICLE)))
  {
    RowIsCurrent(Embedded(ARTICLE));
    WorkOn(t, Embed(ARTICLE), Embedded(ARTICLE));
    WorkOn(t, Embedded(ARTICLE), Insert(ARTICLE));
  }

  lemma Inserts(t: Text)
    requires Tiny(t) && Reachable(t, WorkingOn(Insert(ARTICLE)))
    ensures Reachable(t, WRITTEN.(worker := BATCH.(pc := Verify(ARTICLE))))
  {
    var p := Point(POINT, Body("x", "B"));
    assert [p][..0] == [];
    assert Batch(t, ARTICLE, 7, 1, "B") == [p];
    assert Upsert(map[], [p]) == map[POINT := Body("x", "B")];
    Reach(t, WorkingOn(Insert(ARTICLE)), Work(Done), WRITTEN.(worker := BATCH.(pc := Verify(ARTICLE))));
  }

  lemma Verifies(t: Text)
    requires Reachable(t, WRITTEN.(worker := BATCH.(pc := Verify(ARTICLE))))
    ensures Reachable(t, WRITTEN.(worker := BATCH.(pc := Succeeded)))
  {
    Reach(t, WRITTEN.(worker := BATCH.(pc := Verify(ARTICLE))), Work(Done),
          WRITTEN.(worker := BATCH.(pc := Succeeded)));
  }

  lemma Completes(t: Text)
    requires Reachable(t, WRITTEN.(worker := BATCH.(pc := Succeeded)))
    ensures Reachable(t, MIXED)
  {
    assert Outbox.Complete(WRITTEN.outbox, 1, "j").jobs == map[];
    Reach(t, WRITTEN.(worker := BATCH.(pc := Succeeded)), Work(Done), MIXED);
  }

  lemma ArticleIsQueued(t: Text)
    ensures Reachable(t, SAVED)
  {
    BuildEmptyIndex(t);
    Reach(t, READY_A, Write(7, ARTICLE), QUEUED);
    Reach(t, QUEUED, Save(Settings(true, "B")), SAVED);
  }

  lemma ClaimAfterSave(t: Text)
    ensures Reachable(t, WorkingOn(Start))
  {
    ArticleIsQueued(t);
    Reach(t, SAVED, Poll(Done), SAVED.(worker := Polled("B")));
    Reach(t, SAVED.(worker := Polled("B")), Arm(Done), SAVED.(worker := Armed("B", SNAP)));
    ClaimsTheArticle(t);
    Reach(t, SAVED.(worker := Armed("B", SNAP)), Claim([7], "j", Done), WorkingOn(Start));
  }

  /**
   The run: an article is published on a ready index of model "A"; new settings for model "B" are
   saved; before (or without) the target being recorded in the row, the worker drains the outbox.
   The row is ready for "A" and nothing is queued, yet the article's point was embedded with "B".
   */
  lemma MixedModelsExample(t: Text) returns (cmds: seq<Cmd>)
    requires Tiny(t)
    ensures Runs(t, INITIAL, cmds, MIXED)
    ensures MIXED.row.Some? && MIXED.row.value.status == Ready && MIXED.outbox.jobs == map[] && !OneModel(MIXED)
  {
    ClaimAfterSave(t);
    ReadsTheArticle(t);
    PurgesNothing(t);
    RechecksTheRow(t);
    EmbedsTheArticle(t);
    Inserts(t);
    Verifies(t);
    Completes(t);
    cmds :| Runs(t, INITIAL, cmds, MIXED);
    assert POINT in Stored(MIXED) && Stored(MIXED)[POINT].fingerprint == "B";
    assert "A" != "B" by { assert "A"[0] != "B"[0]; }
  }
}
