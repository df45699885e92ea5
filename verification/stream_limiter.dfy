/**
 The Redis sorted set that bounds concurrent streams. Each member is a stream's token, its score the
 time its lease runs out; the key as a whole carries an expiry of its own. A script runs at Redis
 time `t` with the clock reading `now` its client took up to 200 ms earlier; readings of different
 clients may reach Redis out of order. Times are milliseconds.
 */
module StreamLimiter {
  import opened Basics

  const REDIS_TIMEOUT: int := 200

  type Scores = map<string, Time>

  datatype Key = Key(scores: Scores, expireAt: Time)

  /** An expired key is gone; so is one whose last member was removed. */
  function Members(key: Option<Key>, t: Time): Scores {
    if key.Some? && t < key.value.expireAt then key.value.scores else map[]
  }

  /** ZREMRANGEBYSCORE key -inf now */
  function Purge(scores: Scores, now: Time): Scores {
    map k | k in scores && scores[k] > now :: scores[k]
  }

  function AtLeastOne(d: int): int {
    if d < 1 then 1 else d
  }

  predicate IsTop(scores: Scores, top: Time) {
    top in scores.Values && forall k :: k in scores ==> scores[k] <= top
  }

  lemma {:induction false} TopExists(scores: Scores)
    requires scores != map[]
    ensures exists top :: IsTop(scores, top)
    decreases |scores|
  {
    var k :| k in scores;
    var rest := scores - {k};
    if rest == map[] {
      assert scores == map[k := scores[k]];
      assert IsTop(scores, scores[k]);
    } else {
      assert |rest.Keys| < |scores.Keys| by { assert rest.Keys == scores.Keys - {k}; }
      TopExists(rest);
      var top :| IsTop(rest, top);
      var l :| l in rest && rest[l] == top;
      assert scores[l] == top;
      assert forall x :: x in scores ==> x == k || (x in rest && scores[x] == rest[x]);
      assert IsTop(scores, if scores[k] > top then scores[k] else top);
    }
  }

  /** ZRANGE key -1 -1 WITHSCORES */
  function Latest(scores: Scores): (top: Time)
    requires scores != map[]
    ensures IsTop(scores, top)
  {
    TopExists(scores);
    var top :| top in scores.Values && IsTop(scores, top);
    top
  }

  function Kept(key: Option<Key>, scores: Scores): Option<Key> {
    if scores == map[] || key.None? then None else Some(Key(scores, key.value.expireAt))
  }

  // ----- the scripts -----

  function AcquireScript(key: Option<Key>, t: Time, now: Time, expiresAt: Time, limit: nat,
                         token: string): (Option<Key>, bool) {
    var live := Purge(Members(key, t), now);
    if |live| >= limit then (Kept(key, live), false)
    else (Some(Key(live[token := expiresAt], t + AtLeastOne(expiresAt - now))), true)
  }

  function ReleaseScript(key: Option<Key>, t: Time, now: Time, token: string): Option<Key> {
    var rest := Purge(Members(key, t), now) - {token};
    if rest == map[] then None else Some(Key(rest, t + AtLeastOne(Latest(rest) - now)))
  }

  function RenewScript(key: Option<Key>, t: Time, now: Time, expiresAt: Time, token: string): (Option<Key>, bool) {
    var live := Purge(Members(key, t), now);
    if token !in live then (Kept(key, live), false)
    else
      var renewed := live[token := expiresAt];
      assert token in renewed;
      (Some(Key(renewed, t + AtLeastOne(Latest(renewed) - now))), true)
  }

  // ----- the key, changed command by command -----

  class SortedSet {
    var key: Option<Key>

    constructor ()
      ensures key == None
    {
      key := None;
    }

    method RemoveUpTo(t: Time, now: Time)
      modifies this
      ensures key == Kept(old(key), Purge(Members(old(key), t), now))
      ensures Members(key, t) == Purge(Members(old(key), t), now)
    {
      key := Kept(key, Purge(Members(key, t), now));
    }

    method Acquire(t: Time, now: Time, expiresAt: Time, limit: nat, token: string) returns (acquired: bool)
      modifies this
      ensures (key, acquired) == AcquireScript(old(key), t, now, expiresAt, limit, token)
    {
      RemoveUpTo(t, now);
      var live := Members(key, t);
      if |live| >= limit {
        return false;
      }
      key := Some(Key(live[token := expiresAt], t + AtLeastOne(expiresAt - now)));
      acquired := true;
    }

    method Release(t: Time, now: Time, token: string)
      modifies this
      ensures key == ReleaseScript(old(key), t, now, token)
    {
      RemoveUpTo(t, now);
      var rest := Members(key, t) - {token};
      if rest == map[] {
        key := None;
      } else {
        key := Some(Key(rest, t + AtLeastOne(Latest(rest) - now)));
      }
    }

    method Renew(t: Time, now: Time, expiresAt: Time, token: string) returns (renewed: bool)
      modifies this
      ensures (key, renewed) == RenewScript(old(key), t, now, expiresAt, token)
    {
      RemoveUpTo(t, now);
      var live := Members(key, t);
      if token !in live {
        return false;
      }
      live := live[token := expiresAt];
      key := Some(Key(live, t + AtLeastOne(Latest(live) - now)));
      renewed := true;
    }
  }

  // ----- runs -----

  /** `renewedAt` is the clock reading of the stream's last successful acquire or renewal. */
  datatype Stream = Stream(renewedAt: Time, cancelled: bool)

  datatype Conf = Conf(limit: nat, ttl: int) {
    function Interval(): int {
      if ttl / 3 < 1 then 1 else ttl / 3
    }

    predicate Valid() {
      limit >= 1 && ttl > 0
    }

    /** Time for the acquire call to return, one heartbeat period and one renewal call. */
    predicate Roomy() {
      Valid() && Interval() + 2 * REDIS_TIMEOUT < ttl
    }
  }

  datatype State = State(t: Time, key: Option<Key>, streams: map<string, Stream>)

  const START := State(0, None, map[])

  /** A call either is answered, or the client sees an error and the script may or may not have run. */
  datatype Outcome = Answered | Lost(ran: bool)

  datatype Event =
    | Pass(elapsed: nat)
    | Acquire(token: string, now: Time, o: Outcome)
    | Heartbeat(token: string, now: Time, o: Outcome)
    | Cancel(token: string)
    | End(token: string, now: Time, o: Outcome)

  predicate Open(s: State, token: string) {
    token in s.streams && !s.streams[token].cancelled
  }

  function Deadline(c: Conf, stream: Stream): Time {
    stream.renewedAt + c.Interval() + 2 * REDIS_TIMEOUT
  }

  predicate Recent(s: State, now: Time) {
    s.t - REDIS_TIMEOUT <= now <= s.t
  }

  /** Time may not run past the moment by which an open stream's next heartbeat is decided. */
  ghost predicate Enabled(c: Conf, s: State, e: Event) {
    match e
    case Pass(elapsed) => forall k :: Open(s, k) ==> s.t + elapsed <= Deadline(c, s.streams[k])
    case Acquire(token, now, _) =>
      Recent(s, now) && token !in s.streams && (s.key.Some? ==> token !in s.key.value.scores)
    case Heartbeat(token, now, _) => Recent(s, now) && Open(s, token)
    case Cancel(token) => token in s.streams
    case End(token, now, _) => Recent(s, now) && token in s.streams
  }

  function Next(c: Conf, s: State, e: Event): State {
    match e
    case Pass(elapsed) => s.(t := s.t + elapsed)
    case Acquire(token, now, o) =>
      var (key, acquired) := AcquireScript(s.key, s.t, now, now + c.ttl, c.limit, token);
      if o == Lost(false) then s
      else s.(key := key,
              streams := if o.Answered? && acquired then s.streams[token := Stream(now, false)] else s.streams)
    case Heartbeat(token, now, o) =>
      var (key, renewed) := RenewScript(s.key, s.t, now, now + c.ttl, token);
      var stream := if o.Answered? && renewed then Stream(now, false) else Stream(now, true);
      s.(key := if o == Lost(false) then s.key else key, streams := s.streams[token := stream])
    case Cancel(token) =>
      if token in s.streams then s.(streams := s.streams[token := s.streams[token].(cancelled := true)]) else s
    case End(token, now, o) =>
      s.(key := if o == Lost(false) then s.key else ReleaseScript(s.key, s.t, now, token),
         streams := s.streams - {token})
  }

  ghost predicate Reaches(c: Conf, s: State, events: seq<Event>, s': State)
    decreases |events|
  {
    if events == [] then s == s'
    else Enabled(c, s, events[0]) && Reaches(c, Next(c, s, events[0]), events[1..], s')
  }

  ghost predicate Bounded(c: Conf, s: State) {
    s.key.Some? ==>
      && |s.key.value.scores| <= c.limit
      && (forall k :: k in s.key.value.scores ==> s.key.value.scores[k] <= s.key.value.expireAt)
      && (forall k :: k in s.key.value.scores ==> s.key.value.scores[k] <= s.t + c.ttl)
  }

  /** An open stream's lease is stored, unexpired for any reading a script may carry. */
  ghost predicate Backed(c: Conf, s: State, k: string)
    requires k in s.streams
  {
    && s.t <= Deadline(c, s.streams[k])
    && s.key.Some? && k in s.key.value.scores && s.key.value.scores[k] >= s.streams[k].renewedAt + c.ttl
  }

  ghost predicate AllBacked(c: Conf, s: State) {
    forall k :: Open(s, k) ==> Backed(c, s, k)
  }

  lemma PurgeShrinks(scores: Scores, now: Time)
    ensures |Purge(scores, now)| <= |scores|
  {
    SubsetSize(Purge(scores, now).Keys, scores.Keys);
  }

  lemma {:induction false} SubsetSize<T>(a: set<T>, b: set<T>)
    requires a <= b
    ensures |a| <= |b|
  {
    if a != {} {
      var x :| x in a;
      SubsetSize(a - {x}, b - {x});
    }
  }

  lemma ScriptsKeepBounded(c: Conf, s: State, e: Event)
    requires c.Valid() && Bounded(c, s) && Enabled(c, s, e)
    ensures Bounded(c, Next(c, s, e))
  {
    if e.Acquire? {
      AcquireKeepsBounded(c, s, e);
    } else if e.Heartbeat? {
      HeartbeatKeepsBounded(c, s, e);
    } else if e.End? {
      EndKeepsBounded(c, s, e);
    }
  }

  lemma AcquireKeepsBounded(c: Conf, s: State, e: Event)
    requires c.Valid() && Bounded(c, s) && Enabled(c, s, e) && e.Acquire?
    ensures Bounded(c, Next(c, s, e))
  {
    PurgeShrinks(Members(s.key, s.t), e.now);
  }

  lemma HeartbeatKeepsBounded(c: Conf, s: State, e: Event)
    requires c.Valid() && Bounded(c, s) && Enabled(c, s, e) && e.Heartbeat?
    ensures Bounded(c, Next(c, s, e))
  {
    var live := Purge(Members(s.key, s.t), e.now);
    PurgeShrinks(Members(s.key, s.t), e.now);
    assert e.token in live ==> live[e.token := e.now + c.ttl].Keys == live.Keys;
  }

  lemma EndKeepsBounded(c: Conf, s: State, e: Event)
    requires c.Valid() && Bounded(c, s) && Enabled(c, s, e) && e.End?
    ensures Bounded(c, Next(c, s, e))
  {
    if e.o != Lost(false) {
      ReleaseShrinks(s.key, s.t, e.now, e.token);
    }
  }

  lemma ReleaseShrinks(key: Option<Key>, t: Time, now: Time, token: string)
    requires now <= t
    ensures var key' := ReleaseScript(key, t, now, token);
            key'.Some? ==>
              && key.Some? && |key'.value.scores| <= |key.value.scores|
              && (forall k :: k in key'.value.scores ==>
                  k in key.value.scores && key'.value.scores[k] == key.value.scores[k])
              && (forall k :: k in key'.value.scores ==> key'.value.scores[k] <= key'.value.expireAt)
  {
    var rest := Purge(Members(key, t), now) - {token};
    if rest != map[] {
      SubsetSize(rest.Keys, key.value.scores.Keys);
      assert IsTop(rest, Latest(rest));
    }
  }

  lemma ScriptsKeepBacked(c: Conf, s: State, e: Event)
    requires c.Roomy() && AllBacked(c, s) && Bounded(c, s) && Enabled(c, s, e)
    ensures AllBacked(c, Next(c, s, e))
  {
    var s' := Next(c, s, e);
    forall k | Open(s', k) ensures Backed(c, s', k) {
      if Open(s, k) {
        assert Backed(c, s, k);
        assert k in Members(s.key, s.t);
        if e.Acquire? || e.Heartbeat? {
          assert k in Purge(Members(s.key, s.t), e.now);
        } else if e.End? {
          assert k in Purge(Members(s.key, s.t), e.now) - {e.token};
        }
      }
    }
  }

  lemma {:induction false} InvRun(c: Conf, s: State, events: seq<Event>, s': State)
    requires c.Valid() && Bounded(c, s) && Reaches(c, s, events, s')
    ensures Bounded(c, s')
    ensures c.Roomy() && AllBacked(c, s) ==> AllBacked(c, s')
    decreases |events|
  {
    if events != [] {
      ScriptsKeepBounded(c, s, events[0]);
      if c.Roomy() && AllBacked(c, s) {
        ScriptsKeepBacked(c, s, events[0]);
      }
      InvRun(c, Next(c, s, events[0]), events[1..], s');
    }
  }

  // ----- main results -----

  /**
   However late and in whatever order the calls arrive, at most `limit` tokens are stored, and the key never
   expires before one of them.
   */
  lemma NeverMoreTokensThanLimit(c: Conf, events: seq<Event>, s: State)
    requires c.Valid() && Reaches(c, START, events, s)
    ensures |Members(s.key, s.t)| <= c.limit
    ensures s.key.Some? ==> forall k :: k in s.key.value.scores && s.key.value.scores[k] > s.t ==>
              k in Members(s.key, s.t)
  {
    InvRun(c, START, events, s);
  }

  /** With room for one heartbeat inside the ttl, streams whose context is not cancelled never exceed the limit. */
  lemma NeverMoreStreamsThanLimit(c: Conf, events: seq<Event>, s: State)
    requires c.Roomy() && Reaches(c, START, events, s)
    ensures |set k | k in s.streams && !s.streams[k].cancelled| <= c.limit
  {
    InvRun(c, START, events, s);
    var open := set k | k in s.streams && !s.streams[k].cancelled;
    forall k | k in open ensures k in Members(s.key, s.t) {
      assert Open(s, k) && Backed(c, s, k);
    }
    SubsetSize(open, Members(s.key, s.t).Keys);
  }

  /** The limiter of the chat route (two streams, 12 min) has that room. */
  const CHAT := Conf(2, 720_000)

  lemma ChatStreamsAtMostTwo(events: seq<Event>, s: State)
    requires Reaches(CHAT, START, events, s)
    ensures |set k | k in s.streams && !s.streams[k].cancelled| <= 2
  {
    NeverMoreStreamsThanLimit(CHAT, events, s);
  }

  // ----- who is left -----

  /** A release removes its own token and the expired ones, and keeps every other with its score. */
  lemma ReleaseRemoves(key: Option<Key>, t: Time, now: Time, token: string, k: string)
    requires now <= t
    ensures var left := Members(ReleaseScript(key, t, now, token), t);
            && (k in left <==> k in Members(key, t) && Members(key, t)[k] > now && k != token)
            && (k in left ==> left[k] == Members(key, t)[k])
  {
    var rest := Purge(Members(key, t), now) - {token};
    if rest != map[] {
      assert IsTop(rest, Latest(rest));
    }
  }

  /** An acquire adds its own token exactly below the limit, with its lease, and keeps every other unexpired one. */
  lemma AcquireAdds(key: Option<Key>, t: Time, now: Time, expiresAt: Time, limit: nat, token: string, k: string)
    requires now < expiresAt && now <= t && forall m :: m in Members(key, t) ==>
               Members(key, t)[m] <= key.value.expireAt
    ensures var (key', granted) := AcquireScript(key, t, now, expiresAt, limit, token);
            var live, left := Purge(Members(key, t), now), Members(key', t);
            && (granted <==> |live| < limit)
            && (k in left <==> k in live || (granted && k == token))
            && (k in left ==> left[k] == if granted && k == token then expiresAt else live[k])
  {
  }

  /** A renewal extends its own token exactly if it is still there, and keeps every other unexpired one. */
  lemma RenewExtends(key: Option<Key>, t: Time, now: Time, expiresAt: Time, token: string, k: string)
    requires now < expiresAt && now <= t
    ensures var (key', renewed) := RenewScript(key, t, now, expiresAt, token);
            var live, left := Purge(Members(key, t), now), Members(key', t);
            && (renewed <==> token in live)
            && (k in left <==> k in live)
            && (k in left ==> left[k] == if renewed && k == token then expiresAt else live[k])
  {
    var live := Purge(Members(key, t), now);
    if token in live {
      var renewed := live[token := expiresAt];
      assert token in renewed;
      assert IsTop(renewed, Latest(renewed));
    }
  }
}
