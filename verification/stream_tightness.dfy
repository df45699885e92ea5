/** The bound on concurrent streams holds exactly for the configurations that leave room for a heartbeat. */
module StreamTightness {
  import opened Basics
  import opened Decimals
  import opened StreamLimiter

  function OpenStreams(s: State): set<string> {
    set k | k in s.streams && !s.streams[k].cancelled
  }

  // ----- filling the limiter -----

  function Tokens(n: nat): set<string> {
    set i | 0 <= i < n :: Decimal(i)
  }

  lemma NewToken(n: nat)
    ensures Decimal(n) !in Tokens(n)
  {
    if Decimal(n) in Tokens(n) {
      var i :| 0 <= i < n && Decimal(i) == Decimal(n);
      DecimalInjective(i, n);
    }
  }

  lemma TokensMore(n: nat)
    ensures Tokens(n + 1) == Tokens(n) + {Decimal(n)}
  {
  }

  lemma {:induction false} TokenCount(n: nat)
    ensures |Tokens(n)| == n && Decimal(n) !in Tokens(n) && Tokens(n + 1) == Tokens(n) + {Decimal(n)}
  {
    NewToken(n);
    TokensMore(n);
    if n > 0 {
      TokenCount(n - 1);
    }
  }

  function Uniform<T>(keys: set<string>, value: T): map<string, T> {
    map k | k in keys :: value
  }

  lemma UniformMore<T>(keys: set<string>, value: T, key: string)
    ensures Uniform(keys, value)[key := value] == Uniform(keys + {key}, value)
    ensures Uniform(keys, value).Keys == keys
  {
  }

  /** After n streams were opened at time zero, and `elapsed` later. */
  function Filled(c: Conf, n: nat, elapsed: nat): State {
    State(elapsed,
          if n == 0 then None else Some(Key(Uniform(Tokens(n), c.ttl), c.ttl)),
          Uniform(Tokens(n), Stream(0, false)))
  }

  ghost predicate CanStep(c: Conf, s: State, s': State) {
    exists e :: Enabled(c, s, e) && Next(c, s, e) == s'
  }

  lemma FillOne(c: Conf, n: nat)
    requires c.Valid() && n < c.limit
    ensures CanStep(c, Filled(c, n, 0), Filled(c, n + 1, 0))
  {
    var e := Acquire(Decimal(n), 0, Answered);
    var s := Filled(c, n, 0);
    TokenCount(n);
    UniformMore(Tokens(n), c.ttl, Decimal(n));
    UniformMore(Tokens(n), Stream(0, false), Decimal(n));
    assert Purge(Members(s.key, 0), 0) == Uniform(Tokens(n), c.ttl);
    assert Enabled(c, s, e) && Next(c, s, e) == Filled(c, n + 1, 0);
  }

  /** Without room the leases may run out before the first heartbeats are decided. */
  lemma WaitOut(c: Conf)
    requires c.Valid() && !c.Roomy()
    ensures CanStep(c, Filled(c, c.limit, 0), Filled(c, c.limit, c.ttl))
  {
    assert Enabled(c, Filled(c, c.limit, 0), Pass(c.ttl));
  }

  lemma OpenMore(s: State, s': State, n: nat, renewedAt: Time)
    requires OpenStreams(s) == Tokens(n) && Tokens(n + 1) == Tokens(n) + {Decimal(n)}
    requires s'.streams == s.streams[Decimal(n) := Stream(renewedAt, false)]
    ensures OpenStreams(s') == Tokens(n + 1)
  {
  }

  lemma OneMore(c: Conf) returns (s: State)
    requires c.Valid()
    ensures CanStep(c, Filled(c, c.limit, c.ttl), s) && OpenStreams(s) == Tokens(c.limit + 1)
  {
    var token, full := Decimal(c.limit), Filled(c, c.limit, c.ttl);
    var e := Acquire(token, c.ttl, Answered);
    s := Next(c, full, e);
    TokenCount(c.limit);
    assert Members(full.key, c.ttl) == map[];
    assert Enabled(c, full, e);
    assert s.streams == full.streams[token := Stream(c.ttl, false)];
    OpenMore(full, s, c.limit, c.ttl);
  }

  lemma {:induction false} Append(c: Conf, s: State, events: seq<Event>, s': State, e: Event)
    requires Reaches(c, s, events, s') && Enabled(c, s', e)
    ensures Reaches(c, s, events + [e], Next(c, s', e))
    decreases |events|
  {
    if events == [] {
      assert [e][1..] == [] && [] + [e] == [e];
    } else {
      Append(c, Next(c, s, events[0]), events[1..], s', e);
      assert (events + [e])[1..] == events[1..] + [e];
    }
  }

  ghost predicate Chained(c: Conf, states: seq<State>) {
    forall i :: 0 <= i < |states| - 1 ==> CanStep(c, states[i], states[i + 1])
  }

  /** States that follow from one another make a run. */
  lemma {:induction false} RunOf(c: Conf, states: seq<State>) returns (events: seq<Event>)
    requires states != [] && Chained(c, states)
    ensures Reaches(c, states[0], events, states[|states| - 1])
  {
    if |states| == 1 {
      events := [];
    } else {
      var n := |states| - 1;
      events := RunOf(c, states[..n]);
      assert CanStep(c, states[n - 1], states[n - 1 + 1]);
      var e :| Enabled(c, states[n - 1], e) && Next(c, states[n - 1], e) == states[n];
      Append(c, states[0], events, states[n - 1], e);
      events := events + [e];
    }
  }

  lemma ChainMore(c: Conf, states: seq<State>, s: State)
    requires states != [] && Chained(c, states) && CanStep(c, states[|states| - 1], s)
    ensures Chained(c, states + [s])
  {
  }

  lemma {:induction false} Filling(c: Conf, n: nat) returns (states: seq<State>)
    requires c.Valid() && n <= c.limit
    ensures states != [] && Chained(c, states) && states[0] == START && states[|states| - 1] == Filled(c, n, 0)
  {
    if n == 0 {
      states := [START];
    } else {
      states := Filling(c, n - 1);
      FillOne(c, n - 1);
      ChainMore(c, states, Filled(c, n, 0));
      states := states + [Filled(c, n, 0)];
    }
  }

  /** The streams are opened one by one, their leases run out, and one more stream is opened. */
  lemma Overfilling(c: Conf) returns (states: seq<State>)
    requires c.Valid() && !c.Roomy()
    ensures states != [] && Chained(c, states) && states[0] == START
    ensures OpenStreams(states[|states| - 1]) == Tokens(c.limit + 1)
  {
    states := Filling(c, c.limit);
    WaitOut(c);
    ChainMore(c, states, Filled(c, c.limit, c.ttl));
    states := states + [Filled(c, c.limit, c.ttl)];
    var last := OneMore(c);
    ChainMore(c, states, last);
    states := states + [last];
  }

  /** For every limit: without room a run has one uncancelled stream more than the limit. */
  lemma TooTightExample(c: Conf) returns (events: seq<Event>, s: State)
    requires c.Valid() && !c.Roomy()
    ensures Reaches(c, START, events, s) && |OpenStreams(s)| == c.limit + 1
  {
    var states := Overfilling(c);
    events := RunOf(c, states);
    s := states[|states| - 1];
    TokenCount(c.limit + 1);
  }

  ghost predicate AlwaysWithinLimit(c: Conf) {
    forall events, s :: Reaches(c, START, events, s) ==> |OpenStreams(s)| <= c.limit
  }

  /** The limit is kept in every run exactly when a third of the ttl and two Redis timeouts are less than the ttl. */
  lemma WithinLimitIff(c: Conf)
    requires c.Valid()
    ensures AlwaysWithinLimit(c) <==> c.Roomy()
  {
    if c.Roomy() {
      forall events, s | Reaches(c, START, events, s) ensures |OpenStreams(s)| <= c.limit {
        NeverMoreStreamsThanLimit(c, events, s);
      }
    } else {
      var events, s := TooTightExample(c);
    }
  }
}
