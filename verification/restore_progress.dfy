/** What the holder of the restore lock can rely on, and when the lock becomes free for others. */
module RestoreProgress {
  import opened Basics
  import opened RestoreLock

  // ----- the answers -----

  /**
   A check passes exactly for a live lease whose ownership the server confirms; otherwise the first reason is
   named.
   */
  lemma CheckPassesIff(key: Key, t: Time, l: Lease, owner: string, net: Net)
    ensures CheckError(key, t, l, owner, net).None? <==>
              !l.lost && !l.cancelled && net.Reply? && Owner(key, t) == Some(owner)
    ensures CheckError(key, t, l, owner, net) == Some(Cancelled) <==> !l.lost && l.cancelled
    ensures CheckError(key, t, l, owner, net).Some? && (l.lost || !l.cancelled) ==>
              CheckError(key, t, l, owner, net) == Some(LeaseLost)
  {
  }

  /** A live lease is lost by a check exactly if the check fails; a check does nothing else. */
  lemma CheckLosesIff(key: Key, t: Time, l: Lease, owner: string, net: Net)
    ensures !l.lost && !l.cancelled ==>
              CheckLease(key, t, l, owner, net)
              == if CheckError(key, t, l, owner, net).None? then l else Lease(true, true, l.released)
    ensures l.lost || l.cancelled ==> CheckLease(key, t, l, owner, net) == l
  {
  }

  /**
   When the answer is lost the lease is too, whether or not the renewal took place; a release leaves a lost
   answer alone.
   */
  lemma LostAnswers(key: Key, t: Time, l: Lease, owner: string, ttl: int, ran: bool)
    requires Owner(key, t) == Some(owner)
    ensures RenewLease(key, t, l, owner, Error(ran)) == Lease(true, true, l.released)
    ensures RenewKey(key, t, owner, ttl, Error(ran)) == if ran then Some(Held(owner, t + ttl)) else key
    ensures !l.released ==> ReleaseKey(key, t, l, owner, Error(ran), true) == if ran then None else key
    ensures ReleaseKey(key, t, l, owner, Reply, false) == key
  {
  }

  // ----- holding the lock -----

  /** The owner has the lock, and its lease object knows of nothing to the contrary. */
  predicate Holding(s: State, owner: string) {
    owner in s.leases && s.leases[owner] == FRESH && Owner(s.key, s.t) == Some(owner)
  }

  /** The lock is renewed in time, the owner's own calls are answered, and it does not give the lock back. */
  predicate Undisturbed(s: State, e: Event, owner: string) {
    match e
    case Pass(elapsed) => s.key.Some? && s.t + elapsed < s.key.value.expireAt
    case Renew(o, _, net) => o == owner ==> net.Reply?
    case Check(o, net) => o == owner ==> net.Reply?
    case Release(o, _, _) => o != owner
    case Acquire(_, _, _) => true
  }

  ghost predicate UndisturbedRun(s: State, events: seq<Event>, owner: string, s': State)
    decreases |events|
  {
    if events == [] then s == s'
    else Enabled(s, events[0]) && Undisturbed(s, events[0], owner)
         && UndisturbedRun(Next(s, events[0]), events[1..], owner, s')
  }

  lemma HoldingStep(s: State, e: Event, owner: string)
    requires Holding(s, owner) && Enabled(s, e) && Undisturbed(s, e, owner)
    ensures Holding(Next(s, e), owner) && Next(s, e).granted == s.granted
  {
  }

  /**
   So a holder that renews in time keeps the lock, passes every check, and nobody else is granted it, whatever
   others do.
   */
  lemma {:induction false} HolderGoesOn(s: State, events: seq<Event>, owner: string, s': State)
    requires Holding(s, owner) && UndisturbedRun(s, events, owner, s')
    ensures Holding(s', owner) && s'.granted == s.granted
    ensures CheckError(s'.key, s'.t, s'.leases[owner], owner, Reply).None?
    decreases |events|
  {
    if events != [] {
      HoldingStep(s, events[0], owner);
      HolderGoesOn(Next(s, events[0]), events[1..], owner, s');
    }
  }

  /** A renewal that is answered gives the holder a whole time to live from then on. */
  lemma RenewalLasts(s: State, owner: string, ttl: int, elapsed: nat)
    requires Holding(s, owner) && ttl > 0
    ensures var s' := Next(s, Renew(owner, ttl, Reply));
            && Holding(s', owner)
            && (Holding(Next(s', Pass(elapsed)), owner) <==> elapsed < ttl)
  {
  }

  // ----- taking the lock and giving it back -----

  /** Whoever asks for a free lock and is answered holds it; asking for a taken one changes nothing. */
  lemma AskingIff(s: State, owner: string, ttl: int)
    requires Enabled(s, Acquire(owner, ttl, Reply))
    ensures Owner(s.key, s.t).None? ==> Holding(Next(s, Acquire(owner, ttl, Reply)), owner)
    ensures Owner(s.key, s.t).Some? ==> Next(s, Acquire(owner, ttl, Reply)) == s
  {
  }

  /** If the answer is lost nobody has a lease on the lock, and it comes free when its time to live has passed. */
  lemma LostAskingExpires(s: State, owner: string, ttl: int, elapsed: nat)
    requires Enabled(s, Acquire(owner, ttl, Error(true))) && Owner(s.key, s.t).None?
    ensures var s' := Next(s, Acquire(owner, ttl, Error(true)));
            && s'.leases == s.leases && Owner(s'.key, s'.t) == Some(owner)
            && (Owner(s'.key, Next(s', Pass(elapsed)).t).None? <==> elapsed >= ttl)
    ensures Next(s, Acquire(owner, ttl, Error(false))) == s
  {
  }

  /** A holder that gives the lock back, and is answered, leaves it free; its own checks then fail as cancelled. */
  lemma GivingBackFrees(s: State, owner: string, next: string, ttl: int)
    requires Holding(s, owner) && ttl > 0 && next !in s.granted && next !in s.leases
    ensures var s' := Next(s, Release(owner, Reply, true));
            && Owner(s'.key, s'.t).None? && Holding(Next(s', Acquire(next, ttl, Reply)), next)
            && s'.leases[owner] == Lease(false, true, true)
            && CheckError(s'.key, s'.t, s'.leases[owner], owner, Reply) == Some(Cancelled)
            && Next(s', Release(owner, Reply, true)) == s'
  {
  }
}
