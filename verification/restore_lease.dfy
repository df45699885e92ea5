/**
 The maintenance lock of a site restore: one Redis key holding its owner's token, and the lease
 objects of any number of processes that took it, renew it in the background, check it before each
 destructive stage and give it back once.
 */
module RestoreLock {
  import opened Basics

  datatype Held = Held(owner: string, expireAt: Time)

  type Key = Option<Held>

  datatype Error = LeaseLost | Cancelled | RedisFailed | LoopDidNotStop

  /** A lease object's flags; `released` is the sync.Once. */
  datatype Lease = Lease(lost: bool, cancelled: bool, released: bool)

  const FRESH := Lease(false, false, false)

  /** The client sees a reply, or an error after which the script may or may not have run. */
  datatype Net = Reply | Error(ran: bool)

  function Owner(key: Key, t: Time): Option<string> {
    if key.Some? && t < key.value.expireAt then Some(key.value.owner) else None
  }

  // ----- commands and scripts -----

  function SetNX(key: Key, t: Time, owner: string, ttl: int): Key {
    if Owner(key, t).Some? then key else Some(Held(owner, t + ttl))
  }

  function RenewScript(key: Key, t: Time, owner: string, ttl: int): Key {
    if Owner(key, t) == Some(owner) then Some(Held(owner, t + ttl)) else key
  }

  function ReleaseScript(key: Key, t: Time, owner: string): Key {
    if Owner(key, t) == Some(owner) then None else key
  }

  // ----- the operations of a lease -----

  function CheckLocalError(l: Lease): Option<Error> {
    if l.lost then Some(LeaseLost) else if l.cancelled then Some(Cancelled) else None
  }

  function CheckError(key: Key, t: Time, l: Lease, owner: string, net: Net): Option<Error> {
    if CheckLocalError(l).Some? then CheckLocalError(l)
    else if net.Reply? && Owner(key, t) == Some(owner) then None
    else Some(LeaseLost)
  }

  function MarkedLost(l: Lease): Lease {
    l.(lost := true, cancelled := true)
  }

  function CheckLease(key: Key, t: Time, l: Lease, owner: string, net: Net): Lease {
    if CheckLocalError(l).None? && CheckError(key, t, l, owner, net).Some? then MarkedLost(l) else l
  }

  function RenewKey(key: Key, t: Time, owner: string, ttl: int, net: Net): Key {
    if net == Error(false) then key else RenewScript(key, t, owner, ttl)
  }

  function RenewLease(key: Key, t: Time, l: Lease, owner: string, net: Net): Lease {
    if net.Reply? && Owner(key, t) == Some(owner) then l else MarkedLost(l)
  }

  function ReleaseKey(key: Key, t: Time, l: Lease, owner: string, net: Net, stopped: bool): Key {
    if l.released || !stopped || net == Error(false) then key else ReleaseScript(key, t, owner)
  }

  class RedisKey {
    var key: Key

    constructor ()
      ensures key == None
    {
      key := None;
    }
  }

  class RestoreLease {
    const redis: RedisKey
    const owner: string
    const ttl: int
    var flags: Lease
    var releaseErr: Option<Error>

    constructor (redis: RedisKey, owner: string, ttl: int)
      ensures this.redis == redis && this.owner == owner && this.ttl == ttl && flags == FRESH && releaseErr == None
    {
      this.redis, this.owner, this.ttl := redis, owner, ttl;
      flags, releaseErr := FRESH, None;
    }

    method MarkLost()
      modifies this`flags
      ensures flags == MarkedLost(old(flags))
    {
      flags := flags.(lost := true);
      flags := flags.(cancelled := true);
    }

    method CheckLocal() returns (err: Option<Error>)
      ensures err == CheckLocalError(flags)
    {
      if flags.lost {
        return Some(LeaseLost);
      }
      if flags.cancelled {
        return if flags.lost then Some(LeaseLost) else Some(Cancelled);
      }
      err := None;
    }

    method Check(t: Time, net: Net) returns (err: Option<Error>)
      modifies this`flags
      ensures err == CheckError(redis.key, t, old(flags), owner, net)
      ensures flags == CheckLease(redis.key, t, old(flags), owner, net)
    {
      err := CheckLocal();
      if err.Some? {
        return;
      }
      if !net.Reply? || Owner(redis.key, t) != Some(owner) {
        MarkLost();
        err := Some(LeaseLost);
      }
    }

    /** One tick of renewLoop; false ends the loop. */
    method RenewTick(t: Time, net: Net) returns (running: bool)
      modifies this`flags, redis
      ensures redis.key == RenewKey(old(redis.key), t, owner, ttl, net)
      ensures flags == RenewLease(old(redis.key), t, old(flags), owner, net)
      ensures running <==> net.Reply? && Owner(old(redis.key), t) == Some(owner)
    {
      running := net.Reply? && Owner(redis.key, t) == Some(owner);
      if net != Error(false) && Owner(redis.key, t) == Some(owner) {
        redis.key := Some(redis.key.value.(expireAt := t + ttl));
      }
      if !running {
        MarkLost();
      }
    }

    /** Runs its body once; later calls return the recorded error. */
    method Release(t: Time, net: Net, stopped: bool) returns (err: Option<Error>)
      modifies this, redis
      ensures redis.key == ReleaseKey(old(redis.key), t, old(flags), owner, net, stopped)
      ensures flags == if old(flags).released then old(flags) else old(flags).(cancelled := true, released := true)
      ensures err == releaseErr
      ensures old(flags).released ==> releaseErr == old(releaseErr)
      ensures !old(flags).released ==>
                releaseErr == if !stopped then Some(LoopDidNotStop) else if net.Reply? then None else Some(RedisFailed)
    {
      if !flags.released {
        flags := flags.(cancelled := true, released := true);
        if !stopped {
          releaseErr := Some(LoopDidNotStop);
        } else {
          if net != Error(false) && Owner(redis.key, t) == Some(owner) {
            redis.key := None;
          }
          releaseErr := if net.Reply? then None else Some(RedisFailed);
        }
      }
      err := releaseErr;
    }
  }

  // ----- runs of any number of processes -----

  /** `granted` is history: the owners that ever took the key, in order. */
  datatype State = State(t: Time, key: Key, leases: map<string, Lease>, granted: seq<string>)

  const START := State(0, None, map[], [])

  datatype Event =
    | Pass(elapsed: nat)
    | Acquire(owner: string, ttl: int, net: Net)
    | Renew(owner: string, ttl: int, net: Net)
    | Check(owner: string, net: Net)
    | Release(owner: string, net: Net, stopped: bool)

  /** Owner tokens are fresh; a renewal may still be under way when the lease is already lost or given back. */
  predicate Enabled(s: State, e: Event) {
    match e
    case Pass(_) => true
    case Acquire(owner, ttl, _) => ttl > 0 && owner !in s.granted && owner !in s.leases
    case Renew(owner, ttl, _) => ttl > 0 && owner in s.leases
    case Check(owner, _) => owner in s.leases
    case Release(owner, _, _) => owner in s.leases
  }

  function Next(s: State, e: Event): State
    requires Enabled(s, e)
  {
    match e
    case Pass(elapsed) => s.(t := s.t + elapsed)
    case Acquire(owner, ttl, net) =>
      if net == Error(false) || Owner(s.key, s.t).Some? then s
      else s.(key := SetNX(s.key, s.t, owner, ttl), granted := s.granted + [owner],
              leases := if net.Reply? then s.leases[owner := FRESH] else s.leases)
    case Renew(owner, ttl, net) =>
      s.(key := RenewKey(s.key, s.t, owner, ttl, net),
         leases := s.leases[owner := RenewLease(s.key, s.t, s.leases[owner], owner, net)])
    case Check(owner, net) =>
      s.(leases := s.leases[owner := CheckLease(s.key, s.t, s.leases[owner], owner, net)])
    case Release(owner, net, stopped) =>
      s.(key := ReleaseKey(s.key, s.t, s.leases[owner], owner, net, stopped),
         leases := s.leases[owner := if s.leases[owner].released then s.leases[owner]
                                     else s.leases[owner].(cancelled := true, released := true)])
  }

  predicate Reaches(s: State, events: seq<Event>, s': State)
    decreases |events|
  {
    if events == [] then s == s'
    else Enabled(s, events[0]) && Reaches(Next(s, events[0]), events[1..], s')
  }

  ghost predicate Inv(s: State) {
    && (s.key.Some? ==> s.granted != [] && s.key.value.owner == s.granted[|s.granted| - 1])
    && (forall o :: o in s.leases ==> o in s.granted)
    && (forall i, j :: 0 <= i < j < |s.granted| ==> s.granted[i] != s.granted[j])
    && (forall o :: o in s.leases && s.leases[o].lost ==> s.leases[o].cancelled)
  }

  lemma InvStep(s: State, e: Event)
    requires Inv(s) && Enabled(s, e)
    ensures Inv(Next(s, e))
    ensures s.granted <= Next(s, e).granted
    ensures forall o :: o in s.leases ==> o in Next(s, e).leases && (s.leases[o].lost ==> Next(s, e).leases[o].lost)
  {
  }

  lemma {:induction false} InvRun(s: State, events: seq<Event>, s': State)
    requires Inv(s) && Reaches(s, events, s')
    ensures Inv(s')
    ensures s.granted <= s'.granted
    ensures forall o :: o in s.leases ==> o in s'.leases && (s.leases[o].lost ==> s'.leases[o].lost)
    decreases |events|
  {
    if events != [] {
      InvStep(s, events[0]);
      InvRun(Next(s, events[0]), events[1..], s');
    }
  }

  /** A stale owner, one after whom somebody else took the key, neither renews nor deletes it nor passes a check. */
  lemma StaleOwnerIsPowerless(events: seq<Event>, s: State, e: Event)
    requires Reaches(START, events, s) && Enabled(s, e)
    requires e.Renew? || e.Release? || e.Check?
    requires s.granted != [] && e.owner in s.granted[..|s.granted| - 1]
    ensures Next(s, e).key == s.key
    ensures CheckError(s.key, s.t, s.leases[e.owner], e.owner, Reply).Some?
  {
    InvRun(START, events, s);
  }

  /**
   A check that passes proves more than ownership at that moment: since the lease was granted, no
   other process was granted the lock, whatever expired, failed or was retried in between.
   */
  lemma PassedCheckIsLatestGrant(events: seq<Event>, s: State, owner: string, net: Net)
    requires Reaches(START, events, s)
    requires owner in s.leases && CheckError(s.key, s.t, s.leases[owner], owner, net).None?
    ensures s.granted != [] && s.granted[|s.granted| - 1] == owner && owner !in s.granted[..|s.granted| - 1]
    ensures forall other, net' :: other in s.leases && other != owner ==>
              CheckError(s.key, s.t, s.leases[other], other, net').Some?
  {
    InvRun(START, events, s);
    var last := |s.granted| - 1;
    assert Owner(s.key, s.t) == Some(owner) && s.granted[last] == owner;
    assert forall i :: 0 <= i < last ==> s.granted[..last][i] == s.granted[i] != s.granted[last];
  }

  /** Once lost, a lease never passes a check again, local or remote, and its context stays cancelled. */
  lemma LostStaysLost(before: seq<Event>, s: State, after: seq<Event>, s': State, owner: string, net: Net)
    requires Reaches(START, before, s) && Reaches(s, after, s')
    requires owner in s.leases && s.leases[owner].lost
    ensures owner in s'.leases && s'.leases[owner].cancelled
    ensures CheckLocalError(s'.leases[owner]) == Some(LeaseLost)
    ensures CheckError(s'.key, s'.t, s'.leases[owner], owner, net) == Some(LeaseLost)
  {
    InvRun(START, before, s);
    InvRun(s, after, s');
  }

  // ----- what each operation leaves -----

  /** The lock is taken exactly when nobody has it, until its time to live has passed. */
  lemma AcquireTakes(key: Key, t: Time, owner: string, ttl: int, later: Time)
    requires ttl > 0 && t <= later
    ensures Owner(key, t).None? ==>
              Owner(SetNX(key, t, owner, ttl), later) == if later < t + ttl then Some(owner) else None
    ensures Owner(key, t).Some? ==> SetNX(key, t, owner, ttl) == key
  {
  }

  /** An answered renewal by the owner keeps the lock its own until a whole time to live later, and the lease alive. */
  lemma RenewalKeeps(key: Key, t: Time, l: Lease, owner: string, ttl: int, later: Time)
    requires ttl > 0 && Owner(key, t) == Some(owner) && t <= later
    ensures Owner(RenewKey(key, t, owner, ttl, Reply), later) == if later < t + ttl then Some(owner) else None
    ensures RenewLease(key, t, l, owner, Reply) == l
  {
  }

  /** Anybody else's renewal changes nothing and loses the lease. */
  lemma RenewalOfOthers(key: Key, t: Time, l: Lease, owner: string, ttl: int, net: Net)
    requires Owner(key, t) != Some(owner)
    ensures RenewKey(key, t, owner, ttl, net) == key && RenewLease(key, t, l, owner, net).lost
  {
  }

  /** An answered release by the owner frees the lock for the next; a second one does nothing. */
  lemma ReleaseFrees(key: Key, t: Time, l: Lease, owner: string, next: string, ttl: int)
    requires ttl > 0 && Owner(key, t) == Some(owner)
    ensures !l.released ==>
              && Owner(ReleaseKey(key, t, l, owner, Reply, true), t).None?
              && Owner(SetNX(ReleaseKey(key, t, l, owner, Reply, true), t, next, ttl), t) == Some(next)
    ensures l.released ==> ReleaseKey(key, t, l, owner, Reply, true) == key
  {
  }
}
