/**
 The single row of rag_index_state: a status, an epoch that never wraps, the embedding
 fingerprint the index is meant for, and the fencing lease of the running rebuild.

 Every SQL statement is one function from the stored row (None: no row yet) to the stored row.
 Class IndexTable is the imperative form; the run theorems below quantify over every sequence
 of calls made by any number of instances.
 */
module IndexRow {
  import opened Basics

  const MAX_EPOCH: nat := 0xFFFF_FFFF_FFFF_FFFF

  datatype Status = NeedsRebuild | Rebuilding | Ready | Failed

  datatype Row = Row(
    status: Status,
    epoch: nat,
    fingerprint: string,
    lastError: Option<string>,
    articleCount: nat,
    chunkCount: nat,
    startedAt: Option<Time>,
    completedAt: Option<Time>,
    token: Option<string>,
    expires: Option<Time>)

  /** What the migrations insert, and what BeginRAGIndexRebuild inserts when the row is missing. */
  const FRESH := Row(NeedsRebuild, 0, "", None, 0, 0, None, None, None, None)

  datatype BeginResult = Granted(claim: Row) | Refused | EpochExhausted | InvalidRequest

  function EpochOf(row: Option<Row>): nat {
    if row.Some? then row.value.epoch else 0
  }

  // ----- the statements -----

  /** The WHERE clause shared by complete, release, fail and renew. */
  predicate Owns(row: Option<Row>, epoch: nat, token: string, now: Time) {
    && row.Some?
    && row.value.status == Rebuilding
    && row.value.epoch == epoch
    && row.value.token == Some(token)
    && row.value.expires.Some?
    && row.value.expires.value > now
  }

  predicate OwnsModel(row: Option<Row>, epoch: nat, fingerprint: string, token: string, now: Time) {
    Owns(row, epoch, token, now) && row.value.fingerprint == fingerprint
  }

  predicate Claimable(row: Row, now: Time) {
    row.status != Rebuilding || row.expires.None? || row.expires.value <= now
  }

  function BeginOutcome(row: Option<Row>, fingerprint: string, token: string, now: Time, duration: int): BeginResult {
    var current := if row.Some? then row.value else FRESH;
    if fingerprint == "" || token == "" || duration <= 0 then InvalidRequest
    else if current.fingerprint != "" && current.fingerprint != fingerprint then Refused
    else if current.epoch >= MAX_EPOCH then EpochExhausted
    else if !Claimable(current, now) then Refused
    else Granted(Row(Rebuilding, current.epoch + 1, fingerprint, None, 0, 0, Some(now), None,
                     Some(token), Some(now + duration)))
  }

  /** An error rolls the transaction back; a refusal still commits the inserted first row. */
  function BeginRow(row: Option<Row>, fingerprint: string, token: string, now: Time, duration: int): Option<Row> {
    match BeginOutcome(row, fingerprint, token, now, duration)
    case Granted(claim) => Some(claim)
    case Refused => Some(if row.Some? then row.value else FRESH)
    case EpochExhausted => row
    case InvalidRequest => row
  }

  function MarkRow(row: Option<Row>, fingerprint: string): Option<Row> {
    if fingerprint == "" then row
    else if row.None? then Some(FRESH.(fingerprint := fingerprint))
    else if row.value.status == Rebuilding then Some(row.value.(fingerprint := fingerprint))
    else Some(Row(NeedsRebuild, row.value.epoch, fingerprint, None, 0, 0, None, None, None, None))
  }

  function CompleteRow(row: Option<Row>, epoch: nat, fingerprint: string, token: string,
                       articleCount: nat, chunkCount: nat, now: Time): Option<Row> {
    if OwnsModel(row, epoch, fingerprint, token, now) then
      Some(row.value.(status := Ready, lastError := None, articleCount := articleCount, chunkCount := chunkCount,
                      completedAt := Some(now), token := None, expires := None))
    else row
  }

  function ReleaseRow(row: Option<Row>, epoch: nat, token: string, now: Time): Option<Row> {
    if Owns(row, epoch, token, now) then
      Some(Row(NeedsRebuild, epoch, row.value.fingerprint, None, 0, 0, None, None, None, None))
    else row
  }

  function FailRow(row: Option<Row>, epoch: nat, fingerprint: string, token: string,
                   error: Option<string>, now: Time): Option<Row> {
    if OwnsModel(row, epoch, fingerprint, token, now) then
      Some(row.value.(status := Failed, lastError := error, articleCount := 0, chunkCount := 0,
                      completedAt := None, token := None, expires := None))
    else row
  }

  function RenewRow(row: Option<Row>, epoch: nat, fingerprint: string, token: string,
                    now: Time, duration: int): Option<Row> {
    if token != "" && duration > 0 && OwnsModel(row, epoch, fingerprint, token, now) then
      Some(row.value.(expires := Some(now + duration)))
    else row
  }

  function StatsRow(row: Option<Row>, epoch: nat, articleCount: nat, chunkCount: nat): Option<Row> {
    if row.Some? && row.value.status == Ready && row.value.epoch == epoch then
      Some(row.value.(articleCount := articleCount, chunkCount := chunkCount, lastError := None))
    else row
  }

  predicate RestoreAllowed(row: Option<Row>) {
    EpochOf(row) < MAX_EPOCH
  }

  /** A site restore deletes the row and inserts one with the next epoch; at the last epoch it rolls back. */
  function RestoreRow(row: Option<Row>): Option<Row> {
    if RestoreAllowed(row) then Some(FRESH.(epoch := EpochOf(row) + 1)) else row
  }

  /** IsRAGIndexStateCurrent: the check made before and after every vector-store call. */
  predicate Current(row: Option<Row>, status: Status, epoch: nat, fingerprint: string, token: string, now: Time) {
    && row.Some?
    && row.value.status == status && row.value.epoch == epoch && row.value.fingerprint == fingerprint
    && (status != Rebuilding || Owns(row, epoch, token, now))
  }

  // ----- the table, updated in place -----

  class IndexTable {
    var row: Option<Row>

    constructor ()
      ensures row == None
    {
      row := None;
    }

    method Begin(fp: string, leaseToken: string, now: Time, duration: int) returns (result: BeginResult)
      modifies this
      ensures result == BeginOutcome(old(row), fp, leaseToken, now, duration)
      ensures row == BeginRow(old(row), fp, leaseToken, now, duration)
    {
      if fp == "" || leaseToken == "" || duration <= 0 {
        return InvalidRequest;
      }
      var before := row;
      if row.None? {
        row := Some(FRESH);
      }
      var current := row.value;
      if current.fingerprint != "" && current.fingerprint != fp {
        return Refused;
      }
      if current.epoch >= MAX_EPOCH {
        row := before; // rollback
        return EpochExhausted;
      }
      if current.status == Rebuilding && current.expires.Some? && current.expires.value > now {
        return Refused;
      }
      var claim := Row(Rebuilding, current.epoch + 1, fp, None, 0, 0, Some(now), None, Some(leaseToken),
                       Some(now + duration));
      row := Some(claim);
      result := Granted(claim);
    }

    /**
     MySQL evaluates the assignments of one UPDATE from left to right, each seeing the columns
     already written. Written out in that order, the statement still equals the simultaneous MarkRow.
     */
    method Mark(fp: string)
      modifies this
      ensures row == MarkRow(old(row), fp)
    {
      if fp == "" {
        return;
      }
      if row.None? {
        row := Some(FRESH.(fingerprint := fp));
        return;
      }
      var r := row.value;
      r := r.(fingerprint := fp);
      r := r.(lastError := if r.status == Rebuilding then r.lastError else None);
      r := r.(articleCount := if r.status == Rebuilding then r.articleCount else 0);
      r := r.(chunkCount := if r.status == Rebuilding then r.chunkCount else 0);
      r := r.(startedAt := if r.status == Rebuilding then r.startedAt else None);
      r := r.(completedAt := if r.status == Rebuilding then r.completedAt else None);
      r := r.(token := if r.status == Rebuilding then r.token else None);
      r := r.(expires := if r.status == Rebuilding then r.expires else None);
      r := r.(status := if r.status == Rebuilding then r.status else NeedsRebuild);
      row := Some(r);
    }

    method Complete(e: nat, fp: string, leaseToken: string, articles: nat, chunks: nat, now: Time) returns (ok: bool)
      modifies this
      ensures row == CompleteRow(old(row), e, fp, leaseToken, articles, chunks, now)
      ensures ok <==> row != old(row)
      ensures ok <==> OwnsModel(old(row), e, fp, leaseToken, now)
    {
      ok := OwnsModel(row, e, fp, leaseToken, now);
      if ok {
        row := Some(row.value.(status := Ready, lastError := None, articleCount := articles, chunkCount := chunks,
                               completedAt := Some(now), token := None, expires := None));
      }
    }

    method Release(e: nat, leaseToken: string, now: Time) returns (ok: bool)
      modifies this
      ensures row == ReleaseRow(old(row), e, leaseToken, now)
      ensures ok <==> row != old(row)
      ensures ok <==> Owns(old(row), e, leaseToken, now)
    {
      ok := Owns(row, e, leaseToken, now);
      if ok {
        row := Some(row.value.(status := NeedsRebuild, lastError := None, articleCount := 0, chunkCount := 0,
                               startedAt := None, completedAt := None, token := None, expires := None));
      }
    }

    method Fail(e: nat, fp: string, leaseToken: string, error: Option<string>, now: Time) returns (ok: bool)
      modifies this
      ensures row == FailRow(old(row), e, fp, leaseToken, error, now)
      ensures ok <==> row != old(row)
      ensures ok <==> OwnsModel(old(row), e, fp, leaseToken, now)
    {
      ok := OwnsModel(row, e, fp, leaseToken, now);
      if ok {
        row := Some(row.value.(status := Failed, lastError := error, articleCount := 0, chunkCount := 0,
                               completedAt := None, token := None, expires := None));
      }
    }

    /** The driver reports changed rows, so a renewal to the very same expiry counts as lost. */
    method Renew(e: nat, fp: string, leaseToken: string, now: Time, duration: int) returns (renewed: bool)
      modifies this
      ensures row == RenewRow(old(row), e, fp, leaseToken, now, duration)
      ensures renewed <==> row != old(row)
      ensures renewed ==> OwnsModel(row, e, fp, leaseToken, now) && row.value.expires == Some(now + duration)
    {
      renewed := false;
      if leaseToken != "" && duration > 0 && OwnsModel(row, e, fp, leaseToken, now) {
        renewed := row.value.expires != Some(now + duration);
        row := Some(row.value.(expires := Some(now + duration)));
      }
    }
  }

  // ----- runs -----

  /** One call by some instance; owner calls carry what the caller remembers from its claim. */
  datatype Call =
    | CallBegin(fp: string, token: string, now: Time, duration: int)
    | CallMark(fp: string)
    | CallComplete(epoch: nat, fp: string, token: string, articleCount: nat, chunkCount: nat, now: Time)
    | CallRelease(epoch: nat, token: string, now: Time)
    | CallFail(epoch: nat, fp: string, token: string, error: Option<string>, now: Time)
    | CallRenew(epoch: nat, fp: string, token: string, now: Time, duration: int)
    | CallStats(epoch: nat, articleCount: nat, chunkCount: nat)
    | CallRestore

  function Apply(row: Option<Row>, c: Call): Option<Row> {
    match c
    case CallBegin(fp, token, now, duration) => BeginRow(row, fp, token, now, duration)
    case CallMark(fp) => MarkRow(row, fp)
    case CallComplete(epoch, fp, token, ac, cc, now) => CompleteRow(row, epoch, fp, token, ac, cc, now)
    case CallRelease(epoch, token, now) => ReleaseRow(row, epoch, token, now)
    case CallFail(epoch, fp, token, error, now) => FailRow(row, epoch, fp, token, error, now)
    case CallRenew(epoch, fp, token, now, duration) => RenewRow(row, epoch, fp, token, now, duration)
    case CallStats(epoch, ac, cc) => StatsRow(row, epoch, ac, cc)
    case CallRestore => RestoreRow(row)
  }

  function Exec(row: Option<Row>, calls: seq<Call>): Option<Row> {
    if calls == [] then row else Apply(Exec(row, calls[..|calls| - 1]), calls[|calls| - 1])
  }

  predicate IsGrant(row: Option<Row>, c: Call) {
    c.CallBegin? && BeginOutcome(row, c.fp, c.token, c.now, c.duration).Granted?
  }

  /** A call after which every earlier epoch is dead: a granted claim or a site restore that went through. */
  predicate Advances(row: Option<Row>, c: Call) {
    IsGrant(row, c) || (c.CallRestore? && RestoreAllowed(row))
  }

  predicate OwnerCall(c: Call) {
    c.CallComplete? || c.CallRelease? || c.CallFail? || c.CallRenew?
  }

  /** The i-th call acts on this row. */
  function Before(row: Option<Row>, calls: seq<Call>, i: nat): Option<Row>
    requires i <= |calls|
  {
    Exec(row, calls[..i])
  }

  lemma BeforeNext(row: Option<Row>, calls: seq<Call>, j: nat)
    requires j < |calls|
    ensures Before(row, calls, j + 1) == Apply(Before(row, calls, j), calls[j])
  {
    assert calls[..j + 1][..j] == calls[..j];
  }

  lemma PassedEpoch(row: Option<Row>, c: Call)
    requires OwnerCall(c) && c.epoch < EpochOf(row)
    ensures Apply(row, c) == row
  {
  }

  /** One call never lowers the epoch, and raises it exactly when it advances. */
  lemma StepEpoch(row: Option<Row>, c: Call)
    ensures EpochOf(Apply(row, c)) == EpochOf(row) + (if Advances(row, c) then 1 else 0)
  {
  }

  /** How many of the calls from the i-th to before the j-th advance the epoch. */
  function AdvanceCount(row: Option<Row>, calls: seq<Call>, i: nat, j: nat): nat
    requires i <= j <= |calls|
    decreases j - i
  {
    if i == j then 0
    else AdvanceCount(row, calls, i, j - 1) + (if Advances(Before(row, calls, j - 1), calls[j - 1]) then 1 else 0)
  }

  /** Over every interleaving the epoch is the starting epoch plus the number of claims and restores. */
  lemma {:induction false} EpochCounts(row: Option<Row>, calls: seq<Call>, i: nat, j: nat)
    requires i <= j <= |calls|
    ensures EpochOf(Before(row, calls, j)) == EpochOf(Before(row, calls, i)) + AdvanceCount(row, calls, i, j)
    decreases j - i
  {
    if i < j {
      EpochCounts(row, calls, i, j - 1);
      BeforeNext(row, calls, j - 1);
      StepEpoch(Before(row, calls, j - 1), calls[j - 1]);
    }
  }

  /** A claim or restore anywhere in between leaves a greater epoch. */
  lemma EpochGrows(row: Option<Row>, calls: seq<Call>, i: nat, k: nat, j: nat)
    requires i <= k < j <= |calls| && Advances(Before(row, calls, k), calls[k])
    ensures EpochOf(Before(row, calls, i)) < EpochOf(Before(row, calls, j))
  {
    EpochCounts(row, calls, i, k);
    BeforeNext(row, calls, k);
    StepEpoch(Before(row, calls, k), calls[k]);
    EpochCounts(row, calls, k + 1, j);
  }

  /** Each epoch has at most one claimant: two different granted claims are for different epochs. */
  lemma OneClaimantPerEpoch(row: Option<Row>, calls: seq<Call>, i: nat, j: nat)
    requires i < j < |calls|
    requires IsGrant(Before(row, calls, i), calls[i]) && IsGrant(Before(row, calls, j), calls[j])
    ensures EpochOf(Before(row, calls, i + 1)) < EpochOf(Before(row, calls, j + 1))
  {
    EpochCounts(row, calls, i + 1, j);
    BeforeNext(row, calls, j);
    StepEpoch(Before(row, calls, j), calls[j]);
  }

  /**
   Fencing. Whatever an instance that was granted its claim by call i tries after any later claim
   or restore (call k), its call j leaves the row as it is. Tokens need not even be distinct.
   */
  lemma FencedOut(row: Option<Row>, calls: seq<Call>, i: nat, k: nat, j: nat)
    requires i < k < j < |calls|
    requires IsGrant(Before(row, calls, i), calls[i])
    requires Advances(Before(row, calls, k), calls[k])
    requires OwnerCall(calls[j]) && calls[j].epoch == EpochOf(Before(row, calls, i + 1))
    ensures Before(row, calls, j + 1) == Before(row, calls, j)
  {
    EpochGrows(row, calls, i + 1, k, j);
    BeforeNext(row, calls, j);
    PassedEpoch(Before(row, calls, j), calls[j]);
  }

  /** A call by a non-owner, or by an owner whose lease has run out, changes nothing. */
  lemma NonOwnerChangesNothing(row: Option<Row>, c: Call)
    requires OwnerCall(c)
    requires !Owns(row, c.epoch, c.token, c.now)
    ensures Apply(row, c) == row
  {
  }

  // ----- ready means the right model -----

  datatype Grant = Grant(fingerprint: string, token: string)

  /** The row together with the history of granted claims. */
  datatype History = History(row: Option<Row>, grants: map<nat, Grant>)

  const EMPTY := History(None, map[])

  /** The worker hands complete, fail and renew the values of its own claim (worker.go:479-558, 690). */
  predicate Honest(h: History, c: Call) {
    (c.CallComplete? || c.CallFail? || c.CallRenew?) ==>
      c.epoch in h.grants && h.grants[c.epoch] == Grant(c.fp, c.token)
  }

  function Record(h: History, c: Call): History {
    var row := Apply(h.row, c);
    History(row, if IsGrant(h.row, c) then h.grants[EpochOf(row) := Grant(c.fp, c.token)] else h.grants)
  }

  predicate Reaches(h: History, calls: seq<Call>, h': History)
    decreases |calls|
  {
    if calls == [] then h == h'
    else Honest(h, calls[0]) && Reaches(Record(h, calls[0]), calls[1..], h')
  }

  ghost predicate HistoryInv(h: History) {
    && (forall e :: e in h.grants ==> e <= EpochOf(h.row))
    && (h.row.Some? && h.row.value.status == Ready ==>
          h.row.value.epoch in h.grants && h.grants[h.row.value.epoch].fingerprint == h.row.value.fingerprint)
    && (h.row.Some? && h.row.value.status == Rebuilding ==>
          h.row.value.epoch in h.grants && h.row.value.token == Some(h.grants[h.row.value.epoch].token))
    && (h.row.Some? && h.row.value.status != Rebuilding ==> h.row.value.token.None?)
  }

  lemma HistoryStep(h: History, c: Call)
    requires HistoryInv(h) && Honest(h, c)
    ensures HistoryInv(Record(h, c))
  {
    StepEpoch(h.row, c);
  }

  lemma {:induction false} HistoryRun(h: History, calls: seq<Call>, h': History)
    requires HistoryInv(h) && Reaches(h, calls, h')
    ensures HistoryInv(h')
    decreases |calls|
  {
    if calls != [] {
      HistoryStep(h, calls[0]);
      HistoryRun(Record(h, calls[0]), calls[1..], h');
    }
  }

  /** In every reachable state a ready row names the fingerprint its epoch was claimed with. */
  lemma ReadyMeansClaimedModel(calls: seq<Call>, h: History)
    requires Reaches(EMPTY, calls, h)
    requires h.row.Some? && h.row.value.status == Ready
    ensures h.row.value.epoch in h.grants
    ensures h.grants[h.row.value.epoch].fingerprint == h.row.value.fingerprint
  {
    HistoryRun(EMPTY, calls, h);
  }

  /**
   A new target recorded while a rebuild runs: as long as nobody records the old target again,
   no continuation makes that rebuild's epoch ready or failed, whatever any instance does.
   */
  lemma {:induction false} RetargetedNeverReady(h: History, calls: seq<Call>, h': History, epoch: nat)
    requires HistoryInv(h) && Reaches(h, calls, h')
    requires epoch in h.grants && h.row.Some? && h.row.value.epoch >= epoch
    requires h.row.value.epoch == epoch ==>
               && (h.row.value.status == Rebuilding ==> h.row.value.fingerprint != h.grants[epoch].fingerprint)
               && h.row.value.status != Ready && h.row.value.status != Failed
    requires forall i :: 0 <= i < |calls| && calls[i].CallMark? ==> calls[i].fp != h.grants[epoch].fingerprint
    ensures h'.row.Some?
    ensures h'.row.value.epoch == epoch ==> h'.row.value.status != Ready && h'.row.value.status != Failed
    decreases |calls|
  {
    if calls != [] {
      var next := Record(h, calls[0]);
      StepEpoch(h.row, calls[0]);
      HistoryStep(h, calls[0]);
      assert next.grants[epoch] == h.grants[epoch];
      RetargetedNeverReady(next, calls[1..], h', epoch);
    }
  }

  /** The fingerprint the row's epoch was claimed with. */
  function ClaimedFor(h: History): string {
    if h.row.Some? && h.row.value.epoch in h.grants then h.grants[h.row.value.epoch].fingerprint else ""
  }

  /**
   From the empty history: once another target is recorded during a rebuild, no run in which the old target is
   not recorded again makes the epoch of that rebuild ready or failed.
   */
  lemma RetargetedRun(before: seq<Call>, h: History, mark: Call, calls: seq<Call>, h': History)
    requires Reaches(EMPTY, before, h) && h.row.Some? && h.row.value.status == Rebuilding
    requires mark.CallMark? && mark.fp != "" && mark.fp != ClaimedFor(h)
    requires Reaches(Record(h, mark), calls, h')
    requires forall i :: 0 <= i < |calls| && calls[i].CallMark? ==> calls[i].fp != ClaimedFor(h)
    ensures h'.row.Some?
    ensures h'.row.value.epoch == h.row.value.epoch ==> h'.row.value.status != Ready && h'.row.value.status != Failed
  {
    HistoryRun(EMPTY, before, h);
    HistoryStep(h, mark);
    RetargetedNeverReady(Record(h, mark), calls, h', h.row.value.epoch);
  }

  /** What is left to the owner of a retargeted rebuild: only release, which keeps the new target. */
  lemma RetargetedLeavesOnlyRelease(row: Option<Row>, fp: string, other: string, c: Call)
    requires OwnerCall(c) && OwnsModel(row, c.epoch, fp, c.token, c.now)
    requires other != "" && other != fp
    requires c.CallRelease? || c.fp == fp
    ensures var marked := MarkRow(row, other);
            && (Apply(marked, c) != marked <==> c.CallRelease?)
            && (c.CallRelease? ==> Apply(marked, c) == Some(FRESH.(epoch := c.epoch, fingerprint := other)))
  {
  }
}
