/** The target recorded in the index row decides whose claims are granted. */
module IndexTarget {
  import opened Basics
  import opened IndexRow

  // ----- one claim -----

  function Present(row: Option<Row>): Row {
    if row.Some? then row.value else FRESH
  }

  predicate ValidClaim(fp: string, token: string, duration: int) {
    fp != "" && token != "" && duration > 0
  }

  /** No rebuild is running, or the one that is has let its lease run out. */
  predicate Free(row: Option<Row>, now: Time) {
    Present(row).status == Rebuilding ==> Present(row).expires.None? || Present(row).expires.value <= now
  }

  /**
   A valid claim is granted exactly for the recorded target, or when there is none, on a free row with epochs
   left.
   */
  lemma GrantIff(row: Option<Row>, fp: string, token: string, now: Time, duration: int)
    ensures BeginOutcome(row, fp, token, now, duration).Granted? <==>
              && ValidClaim(fp, token, duration)
              && (Present(row).fingerprint == "" || Present(row).fingerprint == fp)
              && EpochOf(row) < MAX_EPOCH && Free(row, now)
  {
  }

  /** A claim that is not granted changes nothing, and says why. */
  lemma NoGrantNoChange(row: Option<Row>, fp: string, token: string, now: Time, duration: int)
    requires !BeginOutcome(row, fp, token, now, duration).Granted?
    ensures BeginRow(row, fp, token, now, duration) == row
    ensures BeginOutcome(row, fp, token, now, duration).InvalidRequest? <==> !ValidClaim(fp, token, duration)
    ensures BeginOutcome(row, fp, token, now, duration).EpochExhausted? ==> EpochOf(row) >= MAX_EPOCH
  {
  }

  /** The granted claim owns the row until its lease runs out, and nobody else is granted it before. */
  lemma GrantOwns(row: Option<Row>, fp: string, token: string, now: Time, duration: int, later: Time,
                  fp': string, token': string, duration': int)
    requires BeginOutcome(row, fp, token, now, duration).Granted?
    ensures var row' := BeginRow(row, fp, token, now, duration);
            && EpochOf(row') == EpochOf(row) + 1
            && (OwnsModel(row', EpochOf(row'), fp, token, later) <==> later < now + duration)
            && (later < now + duration ==> !BeginOutcome(row', fp', token', later, duration').Granted?)
  {
  }

  // ----- every run -----

  predicate Keeps(c: Call, fp: string) {
    !c.CallRestore? && (c.CallMark? ==> c.fp == fp || c.fp == "")
  }

  lemma TargetStep(row: Option<Row>, c: Call, fp: string)
    requires row.Some? && row.value.fingerprint == fp && fp != "" && Keeps(c, fp)
    ensures Apply(row, c).Some? && Apply(row, c).value.fingerprint == fp
    ensures IsGrant(row, c) ==> c.fp == fp
  {
  }

  /**
   Once a target is recorded, and as long as no site restore happens and no other target is recorded, it stays in
   the row whatever any instance calls, and every claim that is granted is for it.
   */
  lemma {:induction false} TargetIsKept(row: Option<Row>, calls: seq<Call>, fp: string, i: nat)
    requires fp != "" && i <= |calls| && forall k :: 0 <= k < |calls| ==> Keeps(calls[k], fp)
    ensures var marked := MarkRow(row, fp);
            && Before(marked, calls, i).Some? && Before(marked, calls, i).value.fingerprint == fp
            && (i < |calls| && IsGrant(Before(marked, calls, i), calls[i]) ==> calls[i].fp == fp)
  {
    var marked := MarkRow(row, fp);
    if i > 0 {
      TargetIsKept(row, calls, fp, i - 1);
      TargetStep(Before(marked, calls, i - 1), calls[i - 1], fp);
      BeforeNext(marked, calls, i - 1);
    } else {
      assert calls[..0] == [];
    }
    if i < |calls| {
      TargetStep(Before(marked, calls, i), calls[i], fp);
    }
  }

  /** And such a claim is granted as soon as the row is free and epochs are left. */
  lemma TargetIsClaimable(row: Option<Row>, calls: seq<Call>, fp: string, token: string, now: Time, duration: int)
    requires ValidClaim(fp, token, duration) && forall k :: 0 <= k < |calls| ==> Keeps(calls[k], fp)
    ensures var present := Exec(MarkRow(row, fp), calls);
            BeginOutcome(present, fp, token, now, duration).Granted? <==>
              EpochOf(present) < MAX_EPOCH && Free(present, now)
  {
    TargetIsKept(row, calls, fp, |calls|);
    assert calls[..|calls|] == calls;
    GrantIff(Exec(MarkRow(row, fp), calls), fp, token, now, duration);
  }

  // ----- what the owner's calls leave -----

  /**
   The owner's calls, each for its row as claimed: completing and failing end the claim, releasing waits for
   another.
   */
  lemma OwnerEnds(row: Option<Row>, epoch: nat, fp: string, token: string, articles: nat, chunks: nat,
                  error: Option<string>, now: Time)
    requires OwnsModel(row, epoch, fp, token, now)
    ensures var done := CompleteRow(row, epoch, fp, token, articles, chunks, now);
            && done.Some? && done.value == row.value.(status := Ready, lastError := None, articleCount := articles,
                                                      chunkCount := chunks, completedAt := Some(now),
                                                      token := None, expires := None)
    ensures var failed := FailRow(row, epoch, fp, token, error, now);
            && failed.Some? && failed.value.status == Failed && failed.value.epoch == epoch
            && failed.value.fingerprint == fp
            && failed.value.lastError == error && failed.value.token.None? && failed.value.completedAt.None?
            && failed.value.articleCount == 0 && failed.value.chunkCount == 0
    ensures ReleaseRow(row, epoch, token, now) == Some(FRESH.(epoch := epoch, fingerprint := fp))
  {
  }

  /** A renewal moves the end of the lease, so the owner still owns the row until then, and nothing else. */
  lemma RenewalExtends(row: Option<Row>, epoch: nat, fp: string, token: string, now: Time, duration: int, later: Time)
    requires OwnsModel(row, epoch, fp, token, now) && token != "" && duration > 0
    ensures var renewed := RenewRow(row, epoch, fp, token, now, duration);
            && (OwnsModel(renewed, epoch, fp, token, later) <==> later < now + duration)
            && renewed.Some? && renewed.value.(expires := row.value.expires) == row.value
    ensures forall none: int :: none <= 0 ==> RenewRow(row, epoch, fp, token, now, none) == row
    ensures RenewRow(row, epoch, fp, "", now, duration) == row
  {
  }

  /** New counts reach exactly a ready row of that epoch and change nothing else but the old error. */
  lemma StatsReachReady(row: Option<Row>, epoch: nat, articles: nat, chunks: nat)
    ensures var row' := StatsRow(row, epoch, articles, chunks);
            && (row.Some? && row.value.status == Ready && row.value.epoch == epoch ==>
                  row' == Some(row.value.(articleCount := articles, chunkCount := chunks, lastError := None)))
            && (row.None? || row.value.status != Ready || row.value.epoch != epoch ==> row' == row)
  {
  }

  // ----- epochs and snapshots -----

  /** Epochs end with the greatest one: no call goes beyond it, and a restore that would leaves the row alone. */
  lemma EpochStaysBounded(row: Option<Row>, c: Call)
    requires EpochOf(row) <= MAX_EPOCH
    ensures EpochOf(Apply(row, c)) <= MAX_EPOCH
    ensures EpochOf(row) == MAX_EPOCH ==> RestoreRow(row) == row
    ensures EpochOf(row) < MAX_EPOCH ==> RestoreRow(row) == Some(FRESH.(epoch := EpochOf(row) + 1))
  {
  }

  /**
   A snapshot is in force exactly while the row has its status, epoch and target and, in a rebuild, its live
   lease.
   */
  lemma CurrentIff(row: Option<Row>, status: Status, epoch: nat, fp: string, token: string, now: Time)
    ensures Current(row, status, epoch, fp, token, now) <==>
              && row.Some? && row.value.epoch == epoch && row.value.status == status && row.value.fingerprint == fp
              && (status == Rebuilding ==>
                  row.value.token == Some(token) && row.value.expires.Some? && row.value.expires.value > now)
  {
  }

  /** So it ends with the next claim, with another target, and with the end of the rebuild it belongs to. */
  lemma SnapshotEnds(row: Option<Row>, c: Call, status: Status, epoch: nat, fp: string, token: string, now: Time,
                     later: Time)
    requires Current(row, status, epoch, fp, token, now)
    requires || IsGrant(row, c) || (c.CallMark? && c.fp != "" && c.fp != fp)
             || (c.CallRestore? && EpochOf(row) < MAX_EPOCH)
             || (status == Rebuilding && (c.CallComplete? || c.CallFail? || c.CallRelease?) && Apply(row, c) != row)
    ensures !Current(Apply(row, c), status, epoch, fp, token, later)
  {
  }
}
