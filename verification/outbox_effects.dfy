/** What each statement on the outbox does to a job, and from when on the job can be claimed afterwards. */
module OutboxEffects {
  import opened Basics
  import opened Outbox

  predicate OthersSame(t: Table, t': Table, a: ArticleId) {
    && t'.jobs.Keys - {a} == t.jobs.Keys - {a}
    && forall b :: b in t.jobs && b != a ==> b in t'.jobs && t'.jobs[b] == t.jobs[b]
  }

  /** After an enqueue the article has a job of that kind, unleased, claimable exactly from the given time on. */
  lemma EnqueueLeaves(t: Table, a: ArticleId, op: Op, runAfter: Time, later: Time)
    ensures var t' := Enqueue(t, a, op, runAfter);
            && a in t'.jobs && OthersSame(t, t', a) && t'.nextId == t.nextId + 1
            && t'.jobs[a].op == op && t'.jobs[a].lease.None? && (Eligible(t'.jobs[a], later) <==> later >= runAfter)
            && (a !in t.jobs ==> t'.jobs[a].id == t.nextId && t'.jobs[a].version == 1 && t'.jobs[a].attempts == 0)
            && (a in t.jobs ==> t'.jobs[a].id == t.jobs[a].id && t'.jobs[a].version == t.jobs[a].version + 1
                                && t'.jobs[a].attempts == t.jobs[a].attempts)
  {
  }

  /** A claimed job carries the token and one more attempt, and cannot be claimed again before its lease has run out. */
  lemma ClaimLeaves(t: Table, picked: set<ArticleId>, token: string, expires: Time, a: ArticleId, now: Time,
                    later: Time)
    requires picked <= t.jobs.Keys && a in t.jobs
    requires a in picked ==> Eligible(t.jobs[a], now) && now <= later
    ensures var t' := Claim(t, picked, token, expires);
            && t'.nextId == t.nextId && t'.jobs.Keys == t.jobs.Keys && (a !in picked ==> t'.jobs[a] == t.jobs[a])
            && (a in picked ==>
                  && Named(t'.jobs[a], t.jobs[a].id, token) && t'.jobs[a].attempts == t.jobs[a].attempts + 1
                  && t'.jobs[a].(lease := t.jobs[a].lease, attempts := t.jobs[a].attempts) == t.jobs[a]
                  && (Eligible(t'.jobs[a], later) <==> later >= expires))
  {
  }

  /** Its holder's completion removes it; with another id or token nothing happens. */
  lemma CompleteLeaves(t: Table, id: nat, token: string, a: ArticleId)
    requires a in t.jobs
    ensures var t' := Complete(t, id, token);
            && t'.nextId == t.nextId
            && (a in t'.jobs <==>
                !(t.jobs[a].id == id && t.jobs[a].lease.Some? && t.jobs[a].lease.value.token == token))
            && (a in t'.jobs ==> t'.jobs[a] == t.jobs[a]) && t'.jobs.Keys <= t.jobs.Keys
  {
  }

  /** Its holder's failure gives it back, as it was, claimable exactly from the given time on. */
  lemma ReleaseLeaves(t: Table, id: nat, token: string, runAfter: Time, a: ArticleId, later: Time)
    requires a in t.jobs
    ensures var t' := Release(t, id, token, runAfter);
            && t'.nextId == t.nextId && t'.jobs.Keys == t.jobs.Keys
            && (!Named(t.jobs[a], id, token) ==> t'.jobs[a] == t.jobs[a])
            && (Named(t.jobs[a], id, token) ==>
                  && t'.jobs[a].(runAfter := t.jobs[a].runAfter, lease := t.jobs[a].lease) == t.jobs[a]
                  && t'.jobs[a].lease.None? && (Eligible(t'.jobs[a], later) <==> later >= runAfter))
  {
  }

  // ----- in a run -----

  /** A holder whose claim is of the job's present version closes it by completing it. */
  lemma HolderCloses(calls: seq<Call>, w: World, k: (string, ArticleId))
    requires Reaches(START, calls, w) && Live(w, k) && k.1 in w.table.jobs
    requires w.tickets[k].id == w.table.jobs[k.1].id && w.tickets[k].version == w.table.jobs[k.1].version
    ensures k.1 !in Apply(w, CallComplete(w.tickets[k].id, k.0)).table.jobs
  {
    InvRun(START, calls, w);
    assert Stored(w, k);
  }

  /** A job comes free again with time: when it is due and its lease, if it has one, has run out. */
  lemma TimeFrees(w: World, a: ArticleId, elapsed: nat)
    requires a in w.table.jobs
    ensures var w', job := Apply(w, CallTick(elapsed)), w.table.jobs[a];
            && w' == w.(now := w.now + elapsed)
            && (Eligible(w'.table.jobs[a], w'.now) <==>
                  job.runAfter <= w.now + elapsed && (job.lease.Some? ==> job.lease.value.expires <= w.now + elapsed))
  {
  }
}
