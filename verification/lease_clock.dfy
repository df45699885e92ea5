/**
 The time arithmetic of a renewed lease: a holder whose ticker renews every `interval`, giving each
 renewal at most `timeout`, and who stops working as soon as one renewal fails. Used with the numbers
 of the index rebuild and of the site restore. Times are milliseconds.
 */
module LeaseClock {
  import opened Basics

  const SECOND: int := 1000
  const MINUTE: int := 60 * SECOND

  datatype Plan = Plan(ttl: int, interval: int, timeout: int) {
    predicate Valid() {
      0 < interval && 0 < timeout && 0 < ttl
    }

    /** The least lease time a live holder can have left, given how late its ticker was started. */
    function Floor(latency: nat): int {
      ttl - interval - timeout - latency
    }
  }

  const REQUEST_TIMEOUT: int := 8 * MINUTE
  const BATCH_SIZE: int := 2
  const BATCH_LEASE: int := REQUEST_TIMEOUT * (BATCH_SIZE + 1)
  const CALL_TIMEOUT: int := 30 * SECOND
  const REBUILD := Plan(2 * REQUEST_TIMEOUT, 2 * REQUEST_TIMEOUT / 3, 30 * SECOND)
  const RESTORE := Plan(30 * MINUTE, 10 * MINUTE, 5 * SECOND)

  // ----- the holder as a timed machine -----

  datatype Phase = Waiting(tick: Time) | Renewing(start: Time) | Stopped

  datatype Holder = Holder(now: Time, expires: Time, phase: Phase)

  datatype Event = Pass(elapsed: nat) | Fire | Renewed(expires: Time) | GiveUp

  /** The lease was stamped at `claimed`; the ticker starts `latency` later, when the claim call has returned. */
  function Started(p: Plan, claimed: Time, latency: nat): Holder {
    Holder(claimed + latency, claimed + p.ttl, Waiting(claimed + latency + p.interval))
  }

  /** A tick is served when it is due, and a renewal is decided within its timeout. */
  predicate Enabled(p: Plan, h: Holder, e: Event) {
    match e
    case Pass(elapsed) =>
      && (h.phase.Waiting? ==> h.now + elapsed <= h.phase.tick)
      && (h.phase.Renewing? ==> h.now + elapsed <= h.phase.start + p.timeout)
    case Fire => h.phase.Waiting? && h.now == h.phase.tick
    case Renewed(expires) => h.phase.Renewing? && expires >= h.phase.start + p.ttl
    case GiveUp => true
  }

  function Next(p: Plan, h: Holder, e: Event): Holder {
    match e
    case Pass(elapsed) => h.(now := h.now + elapsed)
    case Fire => h.(phase := Renewing(h.now))
    case Renewed(expires) =>
      if h.phase.Renewing? then Holder(h.now, expires, Waiting(h.phase.start + p.interval)) else h
    case GiveUp => h.(phase := Stopped)
  }

  predicate Reaches(p: Plan, h: Holder, events: seq<Event>, h': Holder)
    decreases |events|
  {
    if events == [] then h == h'
    else Enabled(p, h, events[0]) && Reaches(p, Next(p, h, events[0]), events[1..], h')
  }

  ghost predicate Inv(p: Plan, h: Holder, latency: nat) {
    match h.phase
    case Waiting(tick) => h.now <= tick && h.expires - tick >= p.ttl - p.interval - latency
    case Renewing(start) => h.now <= start + p.timeout && h.expires - start >= p.ttl - p.interval - latency
    case Stopped => true
  }

  lemma {:induction false} InvRun(p: Plan, h: Holder, events: seq<Event>, h': Holder, latency: nat)
    requires p.Valid() && p.timeout <= p.interval && Inv(p, h, latency) && Reaches(p, h, events, h')
    ensures Inv(p, h', latency)
    decreases |events|
  {
    if events != [] {
      InvRun(p, Next(p, h, events[0]), events[1..], h', latency);
    }
  }

  /** Work of this length begun under a live holder ends while the lease still runs. */
  predicate Fits(h: Holder, work: nat) {
    !h.phase.Stopped? ==> h.now + work < h.expires
  }

  ghost predicate AlwaysFits(p: Plan, claimed: Time, latency: nat, work: nat) {
    forall events, h :: Reaches(p, Started(p, claimed, latency), events, h) ==> Fits(h, work)
  }

  /**
   Exactly how long work under a live guard may take. At least Floor(latency) of the lease is left in
   every reachable live state, and some reachable live state has no more: so all work of a given
   length, begun at any moment the guard is live, ends before takeover is possible iff it is shorter.
   */
  lemma WorkFitsIff(p: Plan, claimed: Time, latency: nat, work: nat)
    requires p.Valid() && p.timeout <= p.interval
    ensures AlwaysFits(p, claimed, latency, work) <==> work < p.Floor(latency)
  {
    var h := Started(p, claimed, latency);
    if work < p.Floor(latency) {
      forall events, h' | Reaches(p, h, events, h') ensures Fits(h', work) {
        InvRun(p, h, events, h', latency);
      }
    } else {
      var h1 := Next(p, h, Pass(p.interval));
      var h2 := Next(p, h1, Fire);
      var h3 := Next(p, h2, Pass(p.timeout));
      assert Reaches(p, h3, [], h3);
      assert [Fire, Pass(p.timeout)][1..] == [Pass(p.timeout)] && Reaches(p, h2, [Pass(p.timeout)], h3);
      assert Reaches(p, h1, [Fire, Pass(p.timeout)], h3);
      var events := [Pass(p.interval), Fire, Pass(p.timeout)];
      assert events[1..] == [Fire, Pass(p.timeout)] && Reaches(p, h, events, h3);
      assert !Fits(h3, work);
    }
  }

  /**
   The rebuild's numbers: 10 min 10 s less the latency of the claim. An 8 min job always fits iff the
   claim took less than 2 min 10 s to return, a 30 s collection call iff it took less than 9 min 40 s.
   */
  lemma RebuildWorkFits(claimed: Time, latency: nat)
    ensures REBUILD.Floor(latency) == 610 * SECOND - latency
    ensures AlwaysFits(REBUILD, claimed, latency, REQUEST_TIMEOUT) <==> latency < 130 * SECOND
    ensures AlwaysFits(REBUILD, claimed, latency, CALL_TIMEOUT) <==> latency < 580 * SECOND
  {
    WorkFitsIff(REBUILD, claimed, latency, REQUEST_TIMEOUT);
    WorkFitsIff(REBUILD, claimed, latency, CALL_TIMEOUT);
  }

  /** The site restore's numbers: up to 19 min 55 s of work less the latency of the lock call. */
  lemma RestoreWorkFits(claimed: Time, latency: nat, work: nat)
    ensures AlwaysFits(RESTORE, claimed, latency, work) <==> work + latency < 1195 * SECOND
  {
    WorkFitsIff(RESTORE, claimed, latency, work);
  }

  // ----- a batch of outbox jobs under one lease -----

  /** How long a job ran and how long its completion or failure update took. */
  datatype Turn = Turn(run: nat, update: nat)

  function Total(turns: seq<Turn>): nat {
    if turns == [] then 0 else Total(turns[..|turns| - 1]) + turns[|turns| - 1].run + turns[|turns| - 1].update
  }

  function Updates(turns: seq<Turn>): nat {
    if turns == [] then 0 else Updates(turns[..|turns| - 1]) + turns[|turns| - 1].update
  }

  lemma {:induction false} TotalBound(turns: seq<Turn>)
    requires forall i :: 0 <= i < |turns| ==> turns[i].run <= REQUEST_TIMEOUT
    ensures Total(turns) <= REQUEST_TIMEOUT * |turns| + Updates(turns)
  {
    if turns != [] {
      TotalBound(turns[..|turns| - 1]);
    }
  }

  /** Two jobs of at most 8 min end inside their 24 min lease if all updates together take at most 8 min. */
  lemma BatchEndsInsideLease(turns: seq<Turn>)
    requires |turns| <= BATCH_SIZE && forall i :: 0 <= i < |turns| ==> turns[i].run <= REQUEST_TIMEOUT
    ensures Updates(turns) <= REQUEST_TIMEOUT ==> Total(turns) <= BATCH_LEASE
    ensures |turns| == BATCH_SIZE && (forall i :: 0 <= i < |turns| ==> turns[i].run == REQUEST_TIMEOUT) ==>
              (Total(turns) <= BATCH_LEASE <==> Updates(turns) <= REQUEST_TIMEOUT)
  {
    TotalBound(turns);
    if |turns| == 2 {
      assert turns[..1][..0] == [] && turns[..1][0] == turns[0];
      assert Total(turns[..1]) == turns[0].run + turns[0].update;
      assert Updates(turns[..1]) == turns[0].update;
    }
  }
}
