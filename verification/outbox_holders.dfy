/** Exactly when a job of the outbox gets a second unexpired holder. */
module OutboxHolders {
  import opened Outbox

  /** While a row lives, its version and its article's enqueues grow together. */
  ghost predicate CountsMatch(w: World) {
    forall k :: k in w.tickets && k.1 in w.table.jobs && w.table.jobs[k.1].id == w.tickets[k].id ==>
      w.table.jobs[k.1].version - w.tickets[k].version == EnqueueCount(w, k.1) - w.tickets[k].enqueues
  }

  lemma ClaimCounts(w: World, c: Call, w': World)
    requires Inv(w) && CountsMatch(w) && Enabled(w, c) && c.CallClaim? && Claimed(w, c, w')
    ensures CountsMatch(w')
  {
    forall k | k in w'.tickets && k.1 in w'.table.jobs && w'.table.jobs[k.1].id == w'.tickets[k].id
      ensures w'.table.jobs[k.1].version - w'.tickets[k].version == EnqueueCount(w', k.1) - w'.tickets[k].enqueues
    {
    }
  }

  lemma EnqueueCounts(w: World, c: Call)
    requires Inv(w) && CountsMatch(w) && c.CallEnqueue?
    ensures CountsMatch(Apply(w, c))
  {
  }

  lemma OtherCounts(w: World, c: Call)
    requires CountsMatch(w) && (c.CallTick? || c.CallComplete? || c.CallFail?)
    ensures CountsMatch(Apply(w, c))
  {
  }

  lemma CountsStep(w: World, c: Call)
    requires Inv(w) && CountsMatch(w) && Enabled(w, c)
    ensures CountsMatch(Apply(w, c))
  {
    if c.CallClaim? {
      ClaimIs(w, c);
      ClaimCounts(w, c, Apply(w, c));
    } else if c.CallEnqueue? {
      EnqueueCounts(w, c);
    } else {
      OtherCounts(w, c);
    }
  }

  lemma {:induction false} CountsRun(w: World, calls: seq<Call>, w': World)
    requires Inv(w) && CountsMatch(w) && Reaches(w, calls, w')
    ensures Inv(w') && CountsMatch(w')
    decreases |calls|
  {
    if calls != [] {
      InvStep(w, calls[0]);
      CountsStep(w, calls[0]);
      CountsRun(Apply(w, calls[0]), calls[1..], w');
    }
  }

  predicate Holds(w: World, k: (string, ArticleId), a: ArticleId)
    requires a in w.table.jobs
  {
    Live(w, k) && w.tickets[k].id == w.table.jobs[a].id
  }

  /** A due job can be claimed exactly when every unexpired holder of it claimed an older version. */
  lemma EligibleIff(calls: seq<Call>, w: World, a: ArticleId)
    requires Reaches(START, calls, w) && a in w.table.jobs
    ensures Eligible(w.table.jobs[a], w.now) <==>
              && w.table.jobs[a].runAfter <= w.now
              && forall k :: Holds(w, k, a) ==> w.tickets[k].version < w.table.jobs[a].version
  {
    InvRun(START, calls, w);
    var job := w.table.jobs[a];
    if job.lease.Some? {
      assert Backed(w, a);
      if job.lease.value.expires > w.now {
        assert Holds(w, (job.lease.value.token, a), a);
      }
    }
    forall k | Holds(w, k, a) && Eligible(job, w.now) ensures w.tickets[k].version < job.version {
      assert Stored(w, k);
    }
  }

  /** A sole holder can be joined by a second one exactly when the article was enqueued again since its claim. */
  lemma SecondClaimIff(calls: seq<Call>, w: World, k: (string, ArticleId))
    requires Reaches(START, calls, w)
    requires k.1 in w.table.jobs && Holds(w, k, k.1) && forall l :: Holds(w, l, k.1) ==> l == k
    ensures Eligible(w.table.jobs[k.1], w.now) <==>
              w.tickets[k].version < w.table.jobs[k.1].version && w.table.jobs[k.1].runAfter <= w.now
    ensures w.tickets[k].version < w.table.jobs[k.1].version <==> w.tickets[k].enqueues < EnqueueCount(w, k.1)
  {
    CountsRun(START, calls, w);
    EligibleIff(calls, w, k.1);
  }

  ghost predicate OneHolder(w: World) {
    forall k, l :: Live(w, k) && Live(w, l) && w.tickets[k].id == w.tickets[l].id ==> k == l
  }

  /** A claim of a job that somebody still holds for an older version. */
  ghost predicate TakesOver(w: World, c: Call) {
    c.CallClaim? && exists k: (string, ArticleId) ::
      && k.1 in c.picked && k.1 in w.table.jobs && Holds(w, k, k.1)
      && w.tickets[k].version < w.table.jobs[k.1].version && w.tickets[k].enqueues < EnqueueCount(w, k.1)
  }

  lemma PickedHolderIsOlder(calls: seq<Call>, w: World, c: Call, k: (string, ArticleId))
    requires Reaches(START, calls, w) && Enabled(w, c) && c.CallClaim?
    requires k.1 in c.picked && Holds(w, k, k.1)
    ensures TakesOver(w, c)
  {
    CountsRun(START, calls, w);
    EligibleIff(calls, w, k.1);
  }

  lemma TakeoverMakesTwo(w: World, c: Call)
    requires Inv(w) && Enabled(w, c) && TakesOver(w, c)
    ensures !OneHolder(Apply(w, c))
  {
    var w' := Apply(w, c);
    var k: (string, ArticleId) :| k.1 in c.picked && k.1 in w.table.jobs && Holds(w, k, k.1);
    var l := (c.token, k.1);
    ClaimIs(w, c);
    assert l in w'.tickets && l !in w.tickets;
    assert Live(w', k) && Live(w', l);
  }

  /** Of two holders after a claim, at most one is new; the other held the job before. */
  lemma ClaimKeepsOnePair(calls: seq<Call>, w: World, c: Call, k: (string, ArticleId), l: (string, ArticleId))
    requires Reaches(START, calls, w) && OneHolder(w) && Enabled(w, c) && c.CallClaim? && !TakesOver(w, c)
    requires var w' := Apply(w, c); Live(w', k) && Live(w', l) && w'.tickets[k].id == w'.tickets[l].id
    ensures k == l
  {
    InvRun(START, calls, w);
    ClaimIs(w, c);
    if k.0 == c.token && l.0 == c.token {
      SameRow(w, k.1, l.1);
    } else if k.0 == c.token {
      PickedHolder(calls, w, c, k.1, l);
    } else if l.0 == c.token {
      PickedHolder(calls, w, c, l.1, k);
    } else {
      StillHolds(w, c, k);
      StillHolds(w, c, l);
    }
  }

  lemma SameRow(w: World, a: ArticleId, b: ArticleId)
    requires Inv(w) && a in w.table.jobs && b in w.table.jobs && w.table.jobs[a].id == w.table.jobs[b].id
    ensures a == b
  {
  }

  lemma StillHolds(w: World, c: Call, k: (string, ArticleId))
    requires Enabled(w, c) && c.CallClaim? && k in w.tickets && Live(Apply(w, c), k)
    requires Apply(w, c).tickets[k] == w.tickets[k]
    ensures Live(w, k)
  {
  }

  lemma ClaimKeepsOne(calls: seq<Call>, w: World, c: Call)
    requires Reaches(START, calls, w) && OneHolder(w) && Enabled(w, c) && c.CallClaim? && !TakesOver(w, c)
    ensures OneHolder(Apply(w, c))
  {
    var w' := Apply(w, c);
    forall k, l | Live(w', k) && Live(w', l) && w'.tickets[k].id == w'.tickets[l].id ensures k == l {
      ClaimKeepsOnePair(calls, w, c, k, l);
    }
  }

  lemma PickedHolder(calls: seq<Call>, w: World, c: Call, a: ArticleId, k: (string, ArticleId))
    requires Reaches(START, calls, w) && Enabled(w, c) && c.CallClaim?
    requires a in c.picked && Live(w, k) && w.tickets[k].id == w.table.jobs[a].id
    ensures TakesOver(w, c)
  {
    InvRun(START, calls, w);
    PickedHolderIsOlder(calls, w, c, k);
  }

  /** Exactly the claims that take over an older version make a second holder; no other call ever does. */
  lemma SecondHolderIff(calls: seq<Call>, w: World, c: Call)
    requires Reaches(START, calls, w) && OneHolder(w) && Enabled(w, c)
    ensures OneHolder(Apply(w, c)) <==> !TakesOver(w, c)
  {
    InvRun(START, calls, w);
    if TakesOver(w, c) {
      TakeoverMakesTwo(w, c);
    } else if c.CallClaim? {
      ClaimKeepsOne(calls, w, c);
    }
  }

  ghost predicate AlwaysOneHolder(w: World, calls: seq<Call>)
    decreases |calls|
  {
    OneHolder(w) && (calls != [] && Enabled(w, calls[0]) ==> AlwaysOneHolder(Apply(w, calls[0]), calls[1..]))
  }

  ghost predicate NeverTakesOver(w: World, calls: seq<Call>)
    decreases |calls|
  {
    calls != [] && Enabled(w, calls[0]) ==> !TakesOver(w, calls[0]) && NeverTakesOver(Apply(w, calls[0]), calls[1..])
  }

  /** No job of a run ever has two unexpired holders, exactly if no claim of the run takes one over. */
  lemma OneHolderRunIff(calls: seq<Call>)
    ensures AlwaysOneHolder(START, calls) <==> NeverTakesOver(START, calls)
  {
    OneHolderFrom([], START, calls);
  }

  lemma {:induction false} OneHolderFrom(before: seq<Call>, w: World, calls: seq<Call>)
    requires Reaches(START, before, w) && OneHolder(w)
    ensures AlwaysOneHolder(w, calls) <==> NeverTakesOver(w, calls)
    decreases |calls|
  {
    if calls != [] && Enabled(w, calls[0]) {
      SecondHolderIff(before, w, calls[0]);
      if OneHolder(Apply(w, calls[0])) {
        ReachesSnoc(START, before, w, calls[0]);
        OneHolderFrom(before + [calls[0]], Apply(w, calls[0]), calls[1..]);
      }
    }
  }

  lemma {:induction false} ReachesSnoc(w: World, calls: seq<Call>, w': World, c: Call)
    requires Reaches(w, calls, w') && Enabled(w', c)
    ensures Reaches(w, calls + [c], Apply(w', c))
    decreases |calls|
  {
    if calls == [] {
      assert [c][1..] == [] && [] + [c] == [c];
    } else {
      ReachesSnoc(Apply(w, calls[0]), calls[1..], w', c);
      assert (calls + [c])[1..] == calls[1..] + [c];
    }
  }
}
