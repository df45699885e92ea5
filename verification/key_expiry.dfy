/** When the key of the sorted set expires, compared with the leases stored in it. */
module KeyExpiry {
  import opened Basics
  import opened StreamLimiter

  // ----- one script -----

  lemma PurgeKeepsTop(scores: Scores, now: Time, top: Time)
    requires IsTop(scores, top)
    ensures Purge(scores, now) != map[] ==> IsTop(Purge(scores, now), top)
  {
    if k :| k in Purge(scores, now) {
      var l :| l in scores && scores[l] == top;
      assert l in Purge(scores, now);
    }
  }

  /** Renewing sets the expiry to the greatest score, late by as much as the script ran after its clock reading. */
  lemma RenewSets(key: Option<Key>, t: Time, now: Time, expiresAt: Time, token: string)
    requires expiresAt > now && RenewScript(key, t, now, expiresAt, token).1
    ensures var key' := RenewScript(key, t, now, expiresAt, token).0;
            key'.Some? && IsTop(key'.value.scores, key'.value.expireAt - (t - now))
  {
    var renewed := Purge(Members(key, t), now)[token := expiresAt];
    assert forall k :: k in renewed ==> renewed[k] > now;
    assert Latest(renewed) in renewed.Values;
  }

  lemma ReleaseSets(key: Option<Key>, t: Time, now: Time, token: string)
    ensures var key' := ReleaseScript(key, t, now, token);
            key'.Some? ==> IsTop(key'.value.scores, key'.value.expireAt - (t - now))
  {
    var rest := Purge(Members(key, t), now) - {token};
    assert forall k :: k in rest ==> rest[k] > now;
    if rest != map[] {
      assert Latest(rest) in rest.Values;
    }
  }

  /** Acquiring does the same exactly if no later lease is stored: it looks at no score but its own. */
  lemma AcquireSetsIff(key: Option<Key>, t: Time, now: Time, expiresAt: Time, limit: nat, token: string)
    requires expiresAt > now && AcquireScript(key, t, now, expiresAt, limit, token).1
    requires token !in Purge(Members(key, t), now)
    ensures var key' := AcquireScript(key, t, now, expiresAt, limit, token).0;
            && key'.Some?
            && (IsTop(key'.value.scores, key'.value.expireAt - (t - now)) <==>
                forall k :: k in Purge(Members(key, t), now) ==> Purge(Members(key, t), now)[k] <= expiresAt)
  {
    var live := Purge(Members(key, t), now);
    var scores := live[token := expiresAt];
    assert scores[token] == expiresAt && expiresAt in scores.Values;
    assert forall k :: k in live ==> k in scores && scores[k] == live[k];
  }

  lemma KeptFollows(key: Option<Key>, t: Time, now: Time, delay: int)
    requires key.Some? ==> IsTop(key.value.scores, key.value.expireAt - delay)
    ensures var key' := Kept(key, Purge(Members(key, t), now));
            key'.Some? ==> IsTop(key'.value.scores, key'.value.expireAt - delay)
  {
    if key.Some? && t < key.value.expireAt {
      PurgeKeepsTop(key.value.scores, now, key.value.expireAt - delay);
    }
  }

  // ----- every run -----

  /** The delay of the script that set the expiry last. */
  function DelayAfter(c: Conf, s: State, e: Event, delay: int): int {
    match e
    case Acquire(token, now, o) =>
      if o != Lost(false) && AcquireScript(s.key, s.t, now, now + c.ttl, c.limit, token).1 then s.t - now else delay
    case Heartbeat(token, now, o) =>
      if o != Lost(false) && RenewScript(s.key, s.t, now, now + c.ttl, token).1 then s.t - now else delay
    case End(token, now, o) => if o != Lost(false) then s.t - now else delay
    case _ => delay
  }

  /** The key expires with its greatest score, late by the delay. */
  ghost predicate Follows(s: State, delay: int) {
    s.key.Some? ==> IsTop(s.key.value.scores, s.key.value.expireAt - delay)
  }

  /** An acquire goes through although a lease beyond its own is stored: its clock was read before that lease's. */
  ghost predicate Overtaken(c: Conf, s: State, e: Event) {
    && e.Acquire? && e.o != Lost(false)
    && AcquireScript(s.key, s.t, e.now, e.now + c.ttl, c.limit, e.token).1
    && exists k :: k in Purge(Members(s.key, s.t), e.now) && Purge(Members(s.key, s.t), e.now)[k] > e.now + c.ttl
  }

  lemma AcquireFollowsIff(c: Conf, s: State, e: Event, delay: int)
    requires c.Valid() && Follows(s, delay) && Enabled(c, s, e) && e.Acquire?
    ensures Follows(Next(c, s, e), DelayAfter(c, s, e, delay)) <==> !Overtaken(c, s, e)
  {
    if AcquireScript(s.key, s.t, e.now, e.now + c.ttl, c.limit, e.token).1 {
      AcquireSetsIff(s.key, s.t, e.now, e.now + c.ttl, c.limit, e.token);
    } else {
      KeptFollows(s.key, s.t, e.now, delay);
    }
  }

  lemma HeartbeatFollows(c: Conf, s: State, e: Event, delay: int)
    requires c.Valid() && Follows(s, delay) && Enabled(c, s, e) && e.Heartbeat?
    ensures Follows(Next(c, s, e), DelayAfter(c, s, e, delay))
  {
    if RenewScript(s.key, s.t, e.now, e.now + c.ttl, e.token).1 {
      RenewSets(s.key, s.t, e.now, e.now + c.ttl, e.token);
    } else {
      KeptFollows(s.key, s.t, e.now, delay);
    }
  }

  lemma FollowsStepIff(c: Conf, s: State, e: Event, delay: int)
    requires c.Valid() && Follows(s, delay) && Enabled(c, s, e)
    ensures Follows(Next(c, s, e), DelayAfter(c, s, e, delay)) <==> !Overtaken(c, s, e)
  {
    if e.Acquire? {
      AcquireFollowsIff(c, s, e, delay);
    } else if e.Heartbeat? {
      HeartbeatFollows(c, s, e, delay);
    } else if e.End? {
      ReleaseSets(s.key, s.t, e.now, e.token);
    }
  }

  ghost predicate AlwaysFollows(c: Conf, s: State, events: seq<Event>, delay: int)
    decreases |events|
  {
    && Follows(s, delay)
    && (events != [] && Enabled(c, s, events[0]) ==>
          AlwaysFollows(c, Next(c, s, events[0]), events[1..], DelayAfter(c, s, events[0], delay)))
  }

  ghost predicate NeverOvertaken(c: Conf, s: State, events: seq<Event>)
    decreases |events|
  {
    events != [] && Enabled(c, s, events[0]) ==>
      !Overtaken(c, s, events[0]) && NeverOvertaken(c, Next(c, s, events[0]), events[1..])
  }

  lemma {:induction false} FollowsFrom(c: Conf, s: State, events: seq<Event>, delay: int)
    requires c.Valid() && Follows(s, delay)
    ensures AlwaysFollows(c, s, events, delay) <==> NeverOvertaken(c, s, events)
    decreases |events|
  {
    if events != [] && Enabled(c, s, events[0]) {
      FollowsStepIff(c, s, events[0], delay);
      if !Overtaken(c, s, events[0]) {
        FollowsFrom(c, Next(c, s, events[0]), events[1..], DelayAfter(c, s, events[0], delay));
      }
    }
  }

  /**
   However late the calls arrive: throughout a run the key expires with its greatest score, late by the delay
   of the script that set it, exactly if no acquire of the run goes through beside a lease beyond its own.
   */
  lemma ExpiryFollowsRunIff(c: Conf, events: seq<Event>)
    requires c.Valid()
    ensures AlwaysFollows(c, START, events, 0) <==> NeverOvertaken(c, START, events)
  {
    FollowsFrom(c, START, events, 0);
  }

  /** Overtaking is possible with two clocks 200 ms apart: the key then expires 200 ms before the formula says. */
  lemma OvertakenExample(c: Conf, a: string, b: string) returns (s: State)
    requires c.Valid() && c.limit >= 2 && a != b
    ensures Reaches(c, START, [Acquire(a, 0, Answered)], s)
    ensures var e := Acquire(b, -REDIS_TIMEOUT, Answered); Enabled(c, s, e) && Overtaken(c, s, e)
  {
    var e := Acquire(a, 0, Answered);
    s := Next(c, START, e);
    assert Purge(map[], 0) == map[];
    assert [e][1..] == [] && Reaches(c, s, [], s);
    assert s.key == Some(Key(map[a := c.ttl], AtLeastOne(c.ttl)));
    var live := Purge(Members(s.key, 0), -REDIS_TIMEOUT);
    assert live == map[a := c.ttl] && |live| == 1;
    assert a in live && live[a] > -REDIS_TIMEOUT + c.ttl;
  }

  // ----- calls without delay -----

  /** Every script carries the Redis time itself. */
  predicate Prompt(s: State, e: Event) {
    e.Acquire? || e.Heartbeat? || e.End? ==> e.now == s.t
  }

  ghost predicate PromptRun(c: Conf, s: State, events: seq<Event>, s': State)
    decreases |events|
  {
    if events == [] then s == s'
    else Enabled(c, s, events[0]) && Prompt(s, events[0]) && PromptRun(c, Next(c, s, events[0]), events[1..], s')
  }

  ghost predicate ExpiryIsLatest(c: Conf, s: State) {
    s.key.Some? ==> IsTop(s.key.value.scores, s.key.value.expireAt) && s.key.value.expireAt <= s.t + c.ttl
  }

  lemma PromptStep(c: Conf, s: State, e: Event)
    requires c.Valid() && ExpiryIsLatest(c, s) && Enabled(c, s, e) && Prompt(s, e)
    ensures ExpiryIsLatest(c, Next(c, s, e))
  {
    FollowsStepIff(c, s, e, 0);
    ScoresBound(c, s, e);
    var s' := Next(c, s, e);
    if s'.key.Some? {
      assert s'.key.value.expireAt in s'.key.value.scores.Values;
    }
  }

  lemma ScoresBound(c: Conf, s: State, e: Event)
    requires c.Valid() && ExpiryIsLatest(c, s) && Enabled(c, s, e) && Prompt(s, e)
    ensures !Overtaken(c, s, e)
    ensures var s' := Next(c, s, e);
            s'.key.Some? ==> forall k :: k in s'.key.value.scores ==> s'.key.value.scores[k] <= s'.t + c.ttl
  {
  }

  /** When calls arrive without delay the key expires exactly with its latest lease. */
  lemma {:induction false} KeyExpiresWithLatestLease(c: Conf, s: State, events: seq<Event>, s': State)
    requires c.Valid() && ExpiryIsLatest(c, s) && PromptRun(c, s, events, s')
    ensures ExpiryIsLatest(c, s')
    decreases |events|
  {
    if events != [] {
      PromptStep(c, s, events[0]);
      KeyExpiresWithLatestLease(c, Next(c, s, events[0]), events[1..], s');
    }
  }
}
