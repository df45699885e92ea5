/** Which rows a claim gets, and why claims that overlap are as good as claims one after the other. */
module OutboxClaims {
  import opened Basics
  import opened Ordering
  import opened Outbox

  function FreeRows(jobs: Jobs, locked: set<ArticleId>, now: Time): set<ArticleId> {
    set a | a in jobs && Free(jobs, locked, now, a)
  }

  /** ORDER BY run_after, id */
  function DueOrder(jobs: Jobs): (ArticleId, ArticleId) -> bool {
    (a: ArticleId, b: ArticleId) => a in jobs && b in jobs && Sooner(jobs[a], jobs[b])
  }

  /** The id is the primary key of the table. */
  ghost predicate DistinctIds(jobs: Jobs) {
    forall a, b :: a in jobs && b in jobs && jobs[a].id == jobs[b].id ==> a == b
  }

  lemma DueOrderIs(jobs: Jobs, a: ArticleId, b: ArticleId)
    ensures DueOrder(jobs)(a, b) <==> a in jobs && b in jobs && Sooner(jobs[a], jobs[b])
  {
  }

  lemma DueOrderIsTotal(jobs: Jobs, rows: set<ArticleId>)
    requires DistinctIds(jobs) && rows <= jobs.Keys
    ensures StrictTotal(rows, DueOrder(jobs))
  {
    forall a, b ensures DueOrder(jobs)(a, b) <==> a in jobs && b in jobs && Sooner(jobs[a], jobs[b]) {
      DueOrderIs(jobs, a, b);
    }
    forall a, b | a in rows && b in rows && a != b ensures DueOrder(jobs)(a, b) || DueOrder(jobs)(b, a) {
      assert a in jobs.Keys && b in jobs.Keys;
      assert jobs[a].id != jobs[b].id;
    }
  }

  /** Every free row in order. */
  ghost function FreeInOrder(jobs: Jobs, locked: set<ArticleId>, now: Time): (rows: seq<ArticleId>)
    requires DistinctIds(jobs)
    ensures SetOf(rows) == FreeRows(jobs, locked, now) && Ascending(rows, DueOrder(jobs))
  {
    DueOrderIsTotal(jobs, FreeRows(jobs, locked, now));
    Ordered(FreeRows(jobs, locked, now), DueOrder(jobs))
  }

  lemma InSet<T>(s: seq<T>, i: nat)
    requires i < |s|
    ensures s[i] in SetOf(s)
  {
  }

  /** A selection goes on with the free rows it left out. */
  lemma SelectionContinues(jobs: Jobs, locked: set<ArticleId>, now: Time, limit: nat, order: seq<ArticleId>)
    returns (rest: seq<ArticleId>)
    requires DistinctIds(jobs) && Selection(jobs, locked, now, limit, order)
    ensures order + rest == FreeInOrder(jobs, locked, now) && (rest != [] ==> |order| == limit)
  {
    var less, rows := DueOrder(jobs), FreeRows(jobs, locked, now);
    var left := rows - SetOf(order);
    DueOrderIsTotal(jobs, rows);
    rest := Ordered(left, less);
    var all := order + rest;
    forall i, j | 0 <= i < j < |all| ensures less(all[i], all[j]) {
      if i < |order| <= j {
        InSet(rest, j - |order|);
        assert Free(jobs, locked, now, all[j]) && all[j] !in order;
        assert all[i] != all[j];
      } else if j < |order| {
        assert Sooner(jobs[order[i]], jobs[order[j]]);
      } else {
        assert less(rest[i - |order|], rest[j - |order|]);
      }
    }
    SetOfAppend(order, rest);
    assert SetOf(all) == rows;
    OrderedIs(all, FreeInOrder(jobs, locked, now), less);
    if rest != [] {
      InSet(rest, 0);
      assert Free(jobs, locked, now, rest[0]) && rest[0] !in order;
    }
  }

  lemma SetOfAppend<T>(s: seq<T>, t: seq<T>)
    ensures SetOf(s + t) == SetOf(s) + SetOf(t)
  {
    forall x | x in SetOf(s) + SetOf(t) ensures x in SetOf(s + t) {
      if x in s {
        var i :| 0 <= i < |s| && s[i] == x;
        assert (s + t)[i] == x;
      } else {
        var i :| 0 <= i < |t| && t[i] == x;
        assert (s + t)[|s| + i] == x;
      }
    }
  }

  lemma FrontIsSelection(jobs: Jobs, locked: set<ArticleId>, now: Time, n: nat)
    requires DistinctIds(jobs) && n <= |FreeInOrder(jobs, locked, now)|
    ensures Selection(jobs, locked, now, n, FreeInOrder(jobs, locked, now)[..n])
  {
    var all := FreeInOrder(jobs, locked, now);
    var order := all[..n];
    forall i | 0 <= i < |all| ensures Free(jobs, locked, now, all[i]) {
      InSet(all, i);
    }
    forall a | Free(jobs, locked, now, a) && a !in order
      ensures |order| == n && forall i :: 0 <= i < |order| ==> !Sooner(jobs[a], jobs[order[i]])
    {
      assert a in SetOf(all);
      var k :| 0 <= k < |all| && all[k] == a;
      assert forall m :: 0 <= m < n ==> all[m] == order[m];
      assert k >= n;
      forall i | 0 <= i < |order| ensures !Sooner(jobs[a], jobs[order[i]]) {
        assert DueOrder(jobs)(all[i], all[k]);
        DueOrderIs(jobs, all[i], all[k]);
      }
    }
    forall i, j | 0 <= i < j < |order| ensures Sooner(jobs[order[i]], jobs[order[j]]) {
      assert DueOrder(jobs)(all[i], all[j]);
      DueOrderIs(jobs, all[i], all[j]);
    }
  }

  function Least(a: nat, b: nat): nat {
    if a < b then a else b
  }

  /** The answer of the claim query leaves no choice: it is the first `limit` of the free rows, in order. */
  lemma SelectionIff(jobs: Jobs, locked: set<ArticleId>, now: Time, limit: nat, order: seq<ArticleId>)
    requires DistinctIds(jobs)
    ensures var all := FreeInOrder(jobs, locked, now);
            Selection(jobs, locked, now, limit, order) <==> order == all[..Least(limit, |all|)]
  {
    var all := FreeInOrder(jobs, locked, now);
    var n := Least(limit, |all|);
    if Selection(jobs, locked, now, limit, order) {
      var rest := SelectionContinues(jobs, locked, now, limit, order);
      assert (order + rest)[..|order|] == order;
    }
    FrontIsSelection(jobs, locked, now, n);
    if n < limit {
      forall a | Free(jobs, locked, now, a) ensures a in all[..n] {
        assert a in SetOf(all) && all[..n] == all;
      }
      assert Selection(jobs, locked, now, limit, all[..n]);
    }
  }

  // ----- overlapping claims -----

  /**
   A claim that skips the rows another one has locked gets what it would have got after the other's commit,
   none of the other's rows, and the order in which the two commit makes no difference.
   */
  lemma OverlappingClaimsAreSerial(t: Table, locked: set<ArticleId>, now: Time, limit: nat, first: seq<ArticleId>,
                                   token: string, expires: Time, limit': nat,
                                   second: seq<ArticleId>, token': string, expires': Time)
    requires Selection(t.jobs, locked, now, limit, first) && now < expires
    ensures Selection(t.jobs, locked + SetOf(first), now, limit', second)
            <==> Selection(Claim(t, SetOf(first), token, expires).jobs, locked, now, limit', second)
    ensures Selection(t.jobs, locked + SetOf(first), now, limit', second) ==>
              && SetOf(first) !! SetOf(second)
              && Claim(Claim(t, SetOf(first), token, expires), SetOf(second), token', expires')
                 == Claim(Claim(t, SetOf(second), token', expires'), SetOf(first), token, expires)
  {
  }
}
