/**
 The lease guard of a rebuild joined with the stored row: one holder with its ticker, and any calls of any
 other instances in between. Work under a live guard is safe from takeover because of the renewals the guard
 itself made, whatever the others do.
 */
module LeaseFencing {
  import opened Basics
  import opened LeaseClock
  import IndexRow

  /** The claim of one rebuild and the fencing values it returned. */
  datatype Claim = Claim(plan: Plan, epoch: nat, fingerprint: string, token: string, claimed: Time) {
    predicate Valid() {
      plan.Valid() && plan.timeout <= plan.interval && plan.timeout < plan.ttl && token != ""
    }
  }

  /** The claim is on its way back, the guard runs, or the holder has ended its rebuild. */
  datatype Stage = Returning | Guarded(latency: nat, h: Holder, renewed: Option<Time>) | Ended

  datatype World = World(now: Time, row: Option<IndexRow.Row>, stage: Stage)

  datatype Event =
    | Pass(elapsed: nat)
    | Arrive
    | Fire
    | Renew(sent: Time)
    | Reply
    | GiveUp
    | End(call: IndexRow.Call)
    | Other(call: IndexRow.Call)

  /** The moment a call is executed at, where it matters. */
  predicate At(c: IndexRow.Call, now: Time) {
    match c
    case CallBegin(_, _, t, _) => t == now
    case CallComplete(_, _, _, _, _, t) => t == now
    case CallRelease(_, _, t) => t == now
    case CallFail(_, _, _, _, t) => t == now
    case CallRenew(_, _, _, t, _) => t == now
    case _ => true
  }

  /** A call of another instance: tokens are not shared, and no site restore takes place. */
  predicate Foreign(k: Claim, c: IndexRow.Call) {
    !c.CallRestore? && (IndexRow.OwnerCall(c) ==> c.token != k.token)
  }

  predicate Enabled(k: Claim, w: World, e: Event) {
    match e
    case Pass(elapsed) => w.stage.Guarded? ==> LeaseClock.Enabled(k.plan, w.stage.h, LeaseClock.Pass(elapsed))
    case Arrive => w.stage.Returning? && w.now >= k.claimed
    case Fire => w.stage.Guarded? && LeaseClock.Enabled(k.plan, w.stage.h, LeaseClock.Fire)
    case Renew(sent) =>
      && w.stage.Guarded? && w.stage.h.phase.Renewing? && w.stage.h.phase.start <= sent <= w.now
      && w.stage.renewed == None
    case Reply => w.stage.Guarded? && w.stage.h.phase.Renewing? && w.stage.renewed.Some?
    case GiveUp => w.stage.Guarded?
    case End(c) => At(c, w.now)
    case Other(c) => At(c, w.now) && Foreign(k, c)
  }

  /** A renewal is one statement; the guard believes only the reply that says a row was changed. */
  function Next(k: Claim, w: World, e: Event): World
    requires Enabled(k, w, e)
  {
    match e
    case Pass(elapsed) =>
      w.(now := w.now + elapsed,
         stage := if w.stage.Guarded?
                  then w.stage.(h := LeaseClock.Next(k.plan, w.stage.h, LeaseClock.Pass(elapsed)))
                  else w.stage)
    case Arrive => w.(stage := Guarded(w.now - k.claimed, Started(k.plan, k.claimed, w.now - k.claimed), None))
    case Fire => w.(stage := w.stage.(h := LeaseClock.Next(k.plan, w.stage.h, LeaseClock.Fire)))
    case Renew(sent) =>
      var row := IndexRow.RenewRow(w.row, k.epoch, k.fingerprint, k.token, w.now, sent + k.plan.ttl - w.now);
      w.(row := row, stage := w.stage.(renewed :=
           if IndexRow.OwnsModel(w.row, k.epoch, k.fingerprint, k.token, w.now) then Some(sent + k.plan.ttl) else None))
    case Reply =>
      w.(stage := Guarded(w.stage.latency, LeaseClock.Next(k.plan, w.stage.h, Renewed(w.stage.renewed.value)), None))
    case GiveUp => w.(stage := w.stage.(h := LeaseClock.Next(k.plan, w.stage.h, LeaseClock.GiveUp)))
    case End(c) => w.(row := IndexRow.Apply(w.row, c), stage := Ended)
    case Other(c) => w.(row := IndexRow.Apply(w.row, c))
  }

  predicate Reaches(k: Claim, w: World, events: seq<Event>, w': World)
    decreases |events|
  {
    if events == [] then w == w'
    else Enabled(k, w, events[0]) && Reaches(k, Next(k, w, events[0]), events[1..], w')
  }

  /** The claim was granted by a statement executed at `now`, its expiry stamped when it was sent. */
  predicate Granted(k: Claim, before: Option<IndexRow.Row>, w: World) {
    && k.Valid() && w.stage == Returning && k.claimed <= w.now
    && IndexRow.BeginOutcome(before, k.fingerprint, k.token, w.now, k.claimed + k.plan.ttl - w.now).Granted?
    && w.row == IndexRow.BeginRow(before, k.fingerprint, k.token, w.now, k.claimed + k.plan.ttl - w.now)
    && k.epoch == IndexRow.EpochOf(w.row)
  }

  // ----- what is stored -----

  /** The latest expiry the holder's own calls have stored. */
  function Stamp(k: Claim, w: World): Time
    requires !w.stage.Ended?
  {
    match w.stage
    case Returning => k.claimed + k.plan.ttl
    case Guarded(_, h, renewed) => if renewed.Some? then renewed.value else h.expires
  }

  /** The row is the holder's, and runs out no earlier than the holder's latest stamp. */
  predicate Held(k: Claim, row: Option<IndexRow.Row>, stamp: Time) {
    && row.Some? && row.value.status == IndexRow.Rebuilding && row.value.epoch == k.epoch
    && row.value.token == Some(k.token)
    && row.value.expires.Some? && row.value.expires.value >= stamp
  }

  ghost predicate Timed(k: Claim, w: World) {
    match w.stage
    case Returning => k.claimed <= w.now
    case Guarded(latency, h, renewed) =>
      && h.now == w.now && LeaseClock.Inv(k.plan, h, latency)
      && h.expires <= w.now + k.plan.ttl
      && (h.phase.Renewing? ==> h.phase.start <= w.now && h.expires <= h.phase.start + k.plan.ttl)
      && (renewed.Some? ==> !h.phase.Waiting? && h.expires <= renewed.value <= w.now + k.plan.ttl)
      && (renewed.Some? && h.phase.Renewing? ==> renewed.value >= h.phase.start + k.plan.ttl)
    case Ended => true
  }

  /** Until the holder ends, the row is held or the holder's own stamps have run out. */
  ghost predicate Inv(k: Claim, w: World) {
    Timed(k, w) && (!w.stage.Ended? ==> Held(k, w.row, Stamp(k, w)) || w.now >= Stamp(k, w))
  }

  lemma ForeignKeepsHeld(k: Claim, row: Option<IndexRow.Row>, stamp: Time, c: IndexRow.Call, now: Time)
    requires Held(k, row, stamp) && now < stamp && At(c, now) && Foreign(k, c)
    ensures Held(k, IndexRow.Apply(row, c), stamp)
  {
  }

  lemma RenewKeepsInv(k: Claim, w: World, sent: Time)
    requires k.Valid() && Inv(k, w) && Enabled(k, w, Renew(sent))
    ensures Inv(k, Next(k, w, Renew(sent)))
  {
    var h := w.stage.h;
    assert w.now <= h.phase.start + k.plan.timeout;
    assert sent + k.plan.ttl - w.now > 0;
  }

  lemma ForeignStep(k: Claim, w: World, c: IndexRow.Call)
    requires Inv(k, w) && Enabled(k, w, Other(c))
    ensures Inv(k, Next(k, w, Other(c)))
  {
    if !w.stage.Ended? && w.now < Stamp(k, w) {
      ForeignKeepsHeld(k, w.row, Stamp(k, w), c, w.now);
    }
  }

  /** The holder's own moves, which leave the row alone until it ends. */
  lemma GuardStep(k: Claim, w: World, e: Event)
    requires k.Valid() && Inv(k, w) && Enabled(k, w, e) && !e.Renew? && !e.Other?
    ensures Inv(k, Next(k, w, e))
  {
  }

  lemma StepKeepsInv(k: Claim, w: World, e: Event)
    requires k.Valid() && Inv(k, w) && Enabled(k, w, e)
    ensures Inv(k, Next(k, w, e))
  {
    match e
    case Renew(sent) => RenewKeepsInv(k, w, sent);
    case Other(c) => ForeignStep(k, w, c);
    case _ => GuardStep(k, w, e);
  }

  /** What the holder has stamped never gets earlier, and once it has ended it stays so. */
  lemma StampGrows(k: Claim, w: World, e: Event)
    requires k.Valid() && Inv(k, w) && Enabled(k, w, e) && !Next(k, w, e).stage.Ended?
    ensures !w.stage.Ended? && Stamp(k, w) <= Stamp(k, Next(k, w, e))
  {
  }

  lemma {:induction false} InvRun(k: Claim, w: World, events: seq<Event>, w': World)
    requires k.Valid() && Inv(k, w) && Reaches(k, w, events, w')
    ensures Inv(k, w')
    ensures !w'.stage.Ended? ==> !w.stage.Ended? && Stamp(k, w) <= Stamp(k, w')
    decreases |events|
  {
    if events != [] {
      StepKeepsInv(k, w, events[0]);
      InvRun(k, Next(k, w, events[0]), events[1..], w');
      if !w'.stage.Ended? {
        StampGrows(k, w, events[0]);
      }
    }
  }

  // ----- main results -----

  predicate Live(w: World) {
    w.stage.Guarded? && !w.stage.h.phase.Stopped?
  }

  /** While the holder has not ended, nobody can claim the row before the expiry the holder knows of. */
  lemma NoGrantBeforeExpiry(k: Claim, before: Option<IndexRow.Row>, w0: World, events: seq<Event>, w: World,
                            fp: string, token: string, duration: int)
    requires Granted(k, before, w0) && Reaches(k, w0, events, w) && w.stage.Guarded? && w.now < w.stage.h.expires
    ensures Held(k, w.row, w.stage.h.expires)
    ensures !IndexRow.BeginOutcome(w.row, fp, token, w.now, duration).Granted?
  {
    InvRun(k, w0, events, w);
  }

  /**
   Work begun at any moment of a live guard, and shorter than the floor of the lease, is over before any other
   instance can be granted the row: at every moment until then, in every run, a claim is refused.
   */
  lemma NoTakeoverDuringWork(k: Claim, before: Option<IndexRow.Row>, w0: World, events: seq<Event>, w: World, work: nat,
                             during: seq<Event>, w': World, fp: string, token: string, duration: int)
    requires Granted(k, before, w0) && Reaches(k, w0, events, w) && Live(w) && work < k.plan.Floor(w.stage.latency)
    requires Reaches(k, w, during, w') && !w'.stage.Ended? && w'.now <= w.now + work
    ensures Held(k, w'.row, w.stage.h.expires) && w.now + work < w.stage.h.expires
    ensures !IndexRow.BeginOutcome(w'.row, fp, token, w'.now, duration).Granted?
  {
    InvRun(k, w0, events, w);
    InvRun(k, w, during, w');
  }

  /** The rebuild's numbers: no takeover during an 8 minute job if the claim came back within 130 seconds. */
  lemma NoTakeoverDuringJob(k: Claim, before: Option<IndexRow.Row>, w0: World, events: seq<Event>, w: World,
                            during: seq<Event>, w': World, fp: string, token: string, duration: int)
    requires k.plan == REBUILD && Granted(k, before, w0) && Reaches(k, w0, events, w) && Live(w)
    requires w.stage.latency < 130 * SECOND
    requires Reaches(k, w, during, w') && !w'.stage.Ended? && w'.now <= w.now + REQUEST_TIMEOUT
    ensures !IndexRow.BeginOutcome(w'.row, fp, token, w'.now, duration).Granted?
  {
    NoTakeoverDuringWork(k, before, w0, events, w, REQUEST_TIMEOUT, during, w', fp, token, duration);
  }
}
