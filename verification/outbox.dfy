/**
 The rag_sync_jobs table: at most one row per article (unique key on article_id), claimed by
 lease token, removed or released only by the token that is stored in it.
 */
module Outbox {
  import opened Basics
  import opened TextLines
  import opened Articles

  type ArticleId = nat

  datatype Op = Upsert | Delete

  datatype Lease = Lease(token: string, expires: Time)

  datatype Job = Job(id: nat, op: Op, version: nat, runAfter: Time, lease: Option<Lease>, attempts: nat)

  type Jobs = map<ArticleId, Job>

  /** The table and its auto-increment counter. */
  datatype Table = Table(jobs: Jobs, nextId: nat)

  // ----- the statements -----

  /** INSERT ... ON DUPLICATE KEY UPDATE: a second enqueue bumps the version and takes the lease away. */
  function Enqueue(t: Table, article: ArticleId, op: Op, runAfter: Time): Table {
    var job := if article in t.jobs
               then t.jobs[article].(op := op, version := t.jobs[article].version + 1,
                                     runAfter := runAfter, lease := None)
               else Job(t.nextId, op, 1, runAfter, None, 0);
    Table(t.jobs[article := job], t.nextId + 1)
  }

  /** enqueueArticleRAGSyncTx: a published article is to be indexed, no sooner than scheduled, any other removed. */
  function EnqueueArticle(t: Table, article: ArticleId, status: ArticleStatus, scheduledAt: Option<Time>,
                          now: Time): Table {
    if status != Published then Enqueue(t, article, Delete, now)
    else if scheduledAt.Some? && scheduledAt.value > now then Enqueue(t, article, Upsert, scheduledAt.value)
    else Enqueue(t, article, Upsert, now)
  }

  /**
   The job asks for what the article is: it is due only once a published article is visible, and removes any
   other.
   */
  lemma JobMatchesVisibility(t: Table, article: ArticleId, status: ArticleStatus, scheduledAt: Option<Time>,
                             now: Time, later: Time)
    requires now <= later
    ensures var job := EnqueueArticle(t, article, status, scheduledAt, now).jobs[article];
            && (job.op == Upsert <==> status == Published)
            && (job.op == Upsert ==> (job.runAfter <= later <==> VisibleAt(status, scheduledAt, later)))
            && (job.op == Delete ==> job.runAfter <= later && !VisibleAt(status, scheduledAt, later))
            && job.runAfter >= now && (job.op == Delete || scheduledAt.None? ==> job.runAfter == now)
  {
  }

  predicate Eligible(job: Job, now: Time) {
    job.runAfter <= now && (job.lease.None? || job.lease.value.expires <= now)
  }

  function Leased(job: Job, token: string, expires: Time): Job {
    job.(lease := Some(Lease(token, expires)), attempts := job.attempts + 1)
  }

  /** The claim transaction on the rows it picked. */
  function Claim(t: Table, picked: set<ArticleId>, token: string, expires: Time): Table
    requires picked <= t.jobs.Keys
  {
    t.(jobs := map a | a in t.jobs :: if a in picked then Leased(t.jobs[a], token, expires) else t.jobs[a])
  }

  /** The row that `WHERE id = ? AND lease_token = ?` names. */
  predicate Named(job: Job, id: nat, token: string) {
    job.id == id && job.lease.Some? && job.lease.value.token == token
  }

  function Complete(t: Table, id: nat, token: string): Table {
    t.(jobs := map a | a in t.jobs && !Named(t.jobs[a], id, token) :: t.jobs[a])
  }

  function Release(t: Table, id: nat, token: string, runAfter: Time): Table {
    t.(jobs := map a | a in t.jobs ::
         if Named(t.jobs[a], id, token) then t.jobs[a].(runAfter := runAfter, lease := None) else t.jobs[a])
  }

  // ----- the claim loop -----

  predicate Sooner(x: Job, y: Job) {
    x.runAfter < y.runAfter || (x.runAfter == y.runAfter && x.id < y.id)
  }

  /** The rows the SELECT may return: due, without a lease in force, and not locked by another transaction. */
  predicate Free(jobs: Jobs, locked: set<ArticleId>, now: Time, a: ArticleId) {
    a in jobs && Eligible(jobs[a], now) && a !in locked
  }

  /** What SELECT ... ORDER BY run_after, id LIMIT ? FOR UPDATE SKIP LOCKED returns. */
  ghost predicate Selection(jobs: Jobs, locked: set<ArticleId>, now: Time, limit: nat, order: seq<ArticleId>) {
    && |order| <= limit
    && (forall i :: 0 <= i < |order| ==> Free(jobs, locked, now, order[i]))
    && (forall i, j :: 0 <= i < j < |order| ==> Sooner(jobs[order[i]], jobs[order[j]]))
    && (forall a :: Free(jobs, locked, now, a) && a !in order ==>
          |order| == limit && forall i :: 0 <= i < |order| ==> !Sooner(jobs[a], jobs[order[i]]))
  }

  function First(order: seq<ArticleId>, n: nat): set<ArticleId>
    requires n <= |order|
  {
    set i | 0 <= i < n :: order[i]
  }

  lemma LeaseMore(t: Table, order: seq<ArticleId>, n: nat, token: string, expires: Time)
    requires n < |order| && forall i :: 0 <= i < |order| ==> order[i] in t.jobs
    requires forall i, j :: 0 <= i < j < |order| ==> order[i] != order[j]
    ensures First(order, n) <= t.jobs.Keys && First(order, n + 1) <= t.jobs.Keys
    ensures var jobs := Claim(t, First(order, n), token, expires).jobs;
            && jobs[order[n]] == t.jobs[order[n]]
            && jobs[order[n] := Leased(t.jobs[order[n]], token, expires)] ==
                 Claim(t, First(order, n + 1), token, expires).jobs
  {
    assert First(order, n + 1) == First(order, n) + {order[n]};
    assert order[n] !in First(order, n);
  }

  class JobStore {
    var table: Table

    constructor ()
      ensures table == Table(map[], 1)
    {
      table := Table(map[], 1);
    }

    /** The upsert of enqueueRAGSyncJobTx: a new row, or the columns of ON DUPLICATE KEY UPDATE from left to right. */
    method EnqueueJob(article: ArticleId, op: Op, runAfter: Time)
      modifies this
      ensures table == Enqueue(old(table), article, op, runAfter)
    {
      var job := Job(table.nextId, op, 1, runAfter, None, 0);
      if article in table.jobs {
        job := table.jobs[article].(op := op);
        job := job.(version := job.version + 1);
        job := job.(runAfter := runAfter);
        job := job.(lease := None);
      }
      table := Table(table.jobs[article := job], table.nextId + 1);
    }

    /** The loop of ClaimRAGSyncJobs: the k-th answer row is the k-th updated row. */
    method LeaseJobs(order: seq<ArticleId>, token: string, expires: Time) returns (jobs: seq<Job>)
      requires forall i :: 0 <= i < |order| ==> order[i] in table.jobs
      requires forall i, j :: 0 <= i < j < |order| ==> order[i] != order[j]
      modifies this
      ensures forall a :: a in order ==> a in old(table.jobs)
      ensures table == Claim(old(table), (set a | a in order), token, expires)
      ensures |jobs| == |order| && forall k :: 0 <= k < |order| ==> jobs[k] == table.jobs[order[k]]
    {
      jobs := [];
      ghost var start := table;
      assert table.jobs == Claim(start, {}, token, expires).jobs;
      while |jobs| < |order|
        invariant |jobs| <= |order|
        invariant table == Claim(start, First(order, |jobs|), token, expires)
        invariant forall k :: 0 <= k < |jobs| ==> jobs[k] == table.jobs[order[k]]
      {
        var a := order[|jobs|];
        LeaseMore(start, order, |jobs|, token, expires);
        var job := Leased(table.jobs[a], token, expires);
        table := table.(jobs := table.jobs[a := job]);
        jobs := jobs + [job];
      }
      assert First(order, |order|) == (set a | a in order);
    }

    /** `order` is what the database answers: by OutboxClaims.SelectionIff the first free rows, whatever is locked. */
    method ClaimJobs(order: seq<ArticleId>, ghost locked: set<ArticleId>, limit: int, token: string, now: Time,
                     duration: int)
      returns (claimed: Option<seq<Job>>)
      requires 0 < limit <= 100 ==> Selection(table.jobs, locked, now, limit, order)
      requires limit > 100 ==> Selection(table.jobs, locked, now, 100, order)
      modifies this
      ensures claimed.None? <==> limit >= 1 && (IsBlank(token) || duration <= 0)
      ensures limit < 1 ==> claimed == Some([])
      ensures limit < 1 || claimed.None? ==> table == old(table)
      ensures limit >= 1 && claimed.Some? ==>
                && |claimed.value| == |order| <= 100
                && (forall a :: a in order ==> a in old(table.jobs))
                && table == Claim(old(table), (set a | a in order), token, now + duration)
                && forall k :: 0 <= k < |order| ==> claimed.value[k] == table.jobs[order[k]]
    {
      if limit < 1 {
        return Some([]);
      }
      if IsBlank(token) || duration <= 0 {
        return None;
      }
      var jobs := LeaseJobs(order, token, now + duration);
      claimed := Some(jobs);
    }

    /** False stands for the ErrNotFound of requireAffected. */
    method CompleteJob(id: nat, token: string) returns (ok: bool)
      modifies this
      ensures table == Complete(old(table), id, token)
      ensures ok <==> exists a :: a in old(table.jobs) && Named(old(table.jobs)[a], id, token)
      ensures !ok ==> table == old(table)
    {
      ok := exists a :: a in table.jobs && Named(table.jobs[a], id, token);
      table := Complete(table, id, token);
      assert !ok ==> table.jobs == old(table.jobs);
    }

    /** The job is put off and its lease given back, under the same condition. */
    method FailJob(id: nat, token: string, runAfter: Time) returns (ok: bool)
      modifies this
      ensures table == Release(old(table), id, token, runAfter)
      ensures ok <==> exists a :: a in old(table.jobs) && Named(old(table.jobs)[a], id, token)
      ensures !ok ==> table == old(table)
    {
      ok := exists a :: a in table.jobs && Named(table.jobs[a], id, token);
      table := Release(table, id, token, runAfter);
      assert !ok ==> table.jobs == old(table.jobs);
    }
  }

  // ----- runs by any number of workers -----

  /** What a worker remembers of a job it claimed, with the number of enqueues of that article so far. */
  datatype Ticket = Ticket(id: nat, version: nat, enqueues: nat, expires: Time)

  /** `tickets` and `enqueues` are history; `returned` holds the tickets given back by a failure update. */
  datatype World = World(
    table: Table,
    now: Time,
    enqueues: map<ArticleId, nat>,
    tickets: map<(string, ArticleId), Ticket>,
    returned: set<(string, ArticleId)>)

  const START := World(Table(map[], 1), 0, map[], map[], {})

  datatype Call =
    | CallTick(elapsed: nat)
    | CallEnqueue(article: ArticleId, op: Op, runAfter: Time)
    | CallClaim(picked: set<ArticleId>, token: string, duration: nat)
    | CallComplete(id: nat, token: string)
    | CallFail(id: nat, token: string, runAfter: Time)

  /** Rows locked by a concurrent claim are skipped, so a claim may pick any eligible rows; tokens are fresh. */
  predicate Enabled(w: World, c: Call) {
    c.CallClaim? ==>
      && c.duration > 0
      && (forall a :: a in c.picked ==> a in w.table.jobs && Eligible(w.table.jobs[a], w.now))
      && (forall k :: k in w.tickets ==> k.0 != c.token)
  }

  function EnqueueCount(w: World, article: ArticleId): nat {
    if article in w.enqueues then w.enqueues[article] else 0
  }

  function Apply(w: World, c: Call): World
    requires Enabled(w, c)
  {
    match c
    case CallTick(elapsed) => w.(now := w.now + elapsed)
    case CallEnqueue(a, op, runAfter) =>
      w.(table := Enqueue(w.table, a, op, runAfter), enqueues := w.enqueues[a := EnqueueCount(w, a) + 1])
    case CallClaim(picked, token, duration) =>
      w.(table := Claim(w.table, picked, token, w.now + duration),
         tickets := w.tickets + (map k | k in (set a | a in picked :: (token, a)) ::
           Ticket(w.table.jobs[k.1].id, w.table.jobs[k.1].version, EnqueueCount(w, k.1), w.now + duration)))
    case CallComplete(id, token) => w.(table := Complete(w.table, id, token))
    case CallFail(id, token, runAfter) =>
      w.(table := Release(w.table, id, token, runAfter),
         returned := w.returned + (set a | a in w.table.jobs && Named(w.table.jobs[a], id, token) :: (token, a)))
  }

  predicate Reaches(w: World, calls: seq<Call>, w': World)
    decreases |calls|
  {
    if calls == [] then w == w'
    else Enabled(w, calls[0]) && Reaches(Apply(w, calls[0]), calls[1..], w')
  }

  /** Row ids come from the counter and are never shared. */
  ghost predicate IdsDistinct(w: World) {
    && (forall a :: a in w.table.jobs ==> w.table.jobs[a].id < w.table.nextId)
    && (forall a, b :: a in w.table.jobs && b in w.table.jobs && w.table.jobs[a].id == w.table.jobs[b].id ==> a == b)
  }

  ghost predicate TicketsBounded(w: World) {
    forall k :: k in w.tickets ==> w.tickets[k].id < w.table.nextId && w.tickets[k].enqueues <= EnqueueCount(w, k.1)
  }

  ghost predicate TicketsNameRows(w: World) {
    forall k, a :: k in w.tickets && a in w.table.jobs && w.table.jobs[a].id == w.tickets[k].id ==> a == k.1
  }

  ghost predicate TicketsAgree(w: World) {
    forall k, l :: k in w.tickets && l in w.tickets && w.tickets[k].id == w.tickets[l].id ==> k.1 == l.1
  }

  /** A ticket names a row id that belongs to its article for good. */
  ghost predicate TicketsKnown(w: World) {
    w.returned <= w.tickets.Keys && TicketsBounded(w) && TicketsNameRows(w) && TicketsAgree(w)
  }

  /** The ticket behind the lease stored in a row: unreturned, for this version, taken after the latest enqueue. */
  ghost predicate Backed(w: World, a: ArticleId)
    requires a in w.table.jobs && w.table.jobs[a].lease.Some?
  {
    var job := w.table.jobs[a];
    var k := (job.lease.value.token, a);
    && k in w.tickets && k !in w.returned
    && w.tickets[k] == Ticket(job.id, job.version, EnqueueCount(w, a), job.lease.value.expires)
  }

  ghost predicate LeasesBacked(w: World) {
    forall a :: a in w.table.jobs && w.table.jobs[a].lease.Some? ==> Backed(w, a)
  }

  /** A ticket for the current version of its row is stored in the row, unless it was returned or has run out. */
  ghost predicate Stored(w: World, k: (string, ArticleId))
    requires k in w.tickets
  {
    k.1 in w.table.jobs && w.table.jobs[k.1].id == w.tickets[k].id ==>
      && w.tickets[k].version <= w.table.jobs[k.1].version
      && (w.tickets[k].version == w.table.jobs[k.1].version && k !in w.returned && w.tickets[k].expires > w.now ==>
            w.table.jobs[k.1].lease == Some(Lease(k.0, w.tickets[k].expires)))
  }

  ghost predicate TicketsStored(w: World) {
    forall k :: k in w.tickets ==> Stored(w, k)
  }

  predicate Live(w: World, k: (string, ArticleId)) {
    k in w.tickets && k !in w.returned && w.tickets[k].expires > w.now
  }

  predicate SameVersion(w: World, k: (string, ArticleId), l: (string, ArticleId))
    requires k in w.tickets && l in w.tickets
  {
    w.tickets[k].id == w.tickets[l].id && w.tickets[k].version == w.tickets[l].version
  }

  ghost predicate OneLivePerVersion(w: World) {
    forall k, l :: Live(w, k) && Live(w, l) && SameVersion(w, k, l) ==> k == l
  }

  ghost predicate Inv(w: World) {
    IdsDistinct(w) && TicketsKnown(w) && LeasesBacked(w) && TicketsStored(w) && OneLivePerVersion(w)
  }

  lemma QuietStep(w: World, w': World)
    requires OneLivePerVersion(w)
    requires w'.tickets == w.tickets && w.returned <= w'.returned && w.now <= w'.now
    ensures OneLivePerVersion(w')
  {
    forall k, l | Live(w', k) && Live(w', l) && SameVersion(w', k, l) ensures k == l {
      assert SameVersion(w, k, l);
    }
  }

  lemma EnqueueKeepsIds(w: World, c: Call)
    requires Inv(w) && c.CallEnqueue?
    ensures IdsDistinct(Apply(w, c)) && TicketsKnown(Apply(w, c))
  {
  }

  lemma EnqueueKeepsLeases(w: World, c: Call)
    requires Inv(w) && c.CallEnqueue?
    ensures LeasesBacked(Apply(w, c)) && TicketsStored(Apply(w, c))
  {
    var w' := Apply(w, c);
    forall a | a in w'.table.jobs && w'.table.jobs[a].lease.Some? ensures Backed(w', a) {
      assert Backed(w, a);
    }
    forall k | k in w'.tickets ensures Stored(w', k) {
      assert Stored(w, k);
    }
  }

  lemma EnqueueStep(w: World, c: Call)
    requires Inv(w) && c.CallEnqueue?
    ensures Inv(Apply(w, c))
  {
    EnqueueKeepsIds(w, c);
    EnqueueKeepsLeases(w, c);
    QuietStep(w, Apply(w, c));
  }

  /** A claim row by row and ticket by ticket: the old tickets, none with the new token, and one for each picked row. */
  ghost predicate Claimed(w: World, c: Call, w': World)
    requires Enabled(w, c) && c.CallClaim?
  {
    var expires := w.now + c.duration;
    && w' == w.(table := w.table.(jobs := w'.table.jobs), tickets := w'.tickets)
    && (forall a :: a in w'.table.jobs <==> a in w.table.jobs)
    && (forall a :: a in w.table.jobs ==>
          w'.table.jobs[a] == if a in c.picked then Leased(w.table.jobs[a], c.token, expires) else w.table.jobs[a])
    && (forall k :: k in w'.tickets <==> k in w.tickets || (k.0 == c.token && k.1 in c.picked))
    && (forall k :: k in w.tickets ==> k.0 != c.token && w'.tickets[k] == w.tickets[k])
    && (forall k :: k in w'.tickets && k.0 == c.token ==>
          w'.tickets[k] == Ticket(w.table.jobs[k.1].id, w.table.jobs[k.1].version, EnqueueCount(w, k.1), expires))
  }

  lemma ClaimIs(w: World, c: Call)
    requires Enabled(w, c) && c.CallClaim?
    ensures Claimed(w, c, Apply(w, c))
  {
    forall k ensures k in Apply(w, c).tickets <==> k in w.tickets || (k.0 == c.token && k.1 in c.picked) {
      assert k in (set a | a in c.picked :: (c.token, a)) <==> k.0 == c.token && k.1 in c.picked;
    }
  }

  lemma ClaimKeepsLease(w: World, c: Call, w': World, a: ArticleId)
    requires LeasesBacked(w) && w.returned <= w.tickets.Keys
    requires Enabled(w, c) && c.CallClaim? && Claimed(w, c, w')
    requires a in w'.table.jobs && w'.table.jobs[a].lease.Some?
    ensures Backed(w', a)
  {
    if a in c.picked {
      assert (c.token, a) in w'.tickets && (c.token, a) !in w.tickets;
    } else {
      assert Backed(w, a);
    }
  }

  lemma ClaimKeepsLeases(w: World, c: Call, w': World)
    requires LeasesBacked(w) && w.returned <= w.tickets.Keys
    requires Enabled(w, c) && c.CallClaim? && Claimed(w, c, w')
    ensures LeasesBacked(w')
  {
    forall a | a in w'.table.jobs && w'.table.jobs[a].lease.Some? ensures Backed(w', a) {
      ClaimKeepsLease(w, c, w', a);
    }
  }

  lemma ClaimStores(w: World, c: Call, w': World, k: (string, ArticleId))
    requires LeasesBacked(w) && TicketsStored(w) && TicketsNameRows(w)
    requires Enabled(w, c) && c.CallClaim? && Claimed(w, c, w') && k in w'.tickets
    ensures Stored(w', k)
  {
    if k in w.tickets {
      assert Stored(w, k);
    }
  }

  lemma ClaimKeepsStored(w: World, c: Call, w': World)
    requires LeasesBacked(w) && TicketsStored(w) && TicketsNameRows(w)
    requires Enabled(w, c) && c.CallClaim? && Claimed(w, c, w')
    ensures TicketsStored(w')
  {
    forall k | k in w'.tickets ensures Stored(w', k) {
      ClaimStores(w, c, w', k);
    }
  }

  /** A picked row was not leased, so no earlier ticket for its version is live. */
  lemma PickedHasNoLiveTicket(w: World, c: Call, k: (string, ArticleId))
    requires Inv(w) && Enabled(w, c) && c.CallClaim? && k in w.tickets && k.1 in c.picked
    requires w.tickets[k].id == w.table.jobs[k.1].id && w.tickets[k].version == w.table.jobs[k.1].version
    ensures !Live(w, k)
  {
    assert Stored(w, k);
  }

  lemma ClaimKeepsPair(w: World, c: Call, w': World, k: (string, ArticleId), l: (string, ArticleId))
    requires Inv(w) && Enabled(w, c) && c.CallClaim? && Claimed(w, c, w')
    requires Live(w', k) && Live(w', l) && SameVersion(w', k, l)
    ensures k == l
  {
    if k.0 != c.token && l.0 != c.token {
      assert SameVersion(w, k, l);
    } else if k.0 != c.token {
      PickedHasNoLiveTicket(w, c, k);
    } else if l.0 != c.token {
      PickedHasNoLiveTicket(w, c, l);
    }
  }

  lemma ClaimKeepsOneLive(w: World, c: Call, w': World)
    requires Inv(w) && Enabled(w, c) && c.CallClaim? && Claimed(w, c, w')
    ensures OneLivePerVersion(w')
  {
    forall k, l | Live(w', k) && Live(w', l) && SameVersion(w', k, l) ensures k == l {
      ClaimKeepsPair(w, c, w', k, l);
    }
  }

  /** The article of a ticket's row, before a claim and after. */
  lemma ClaimKeepsRow(w: World, c: Call, w': World, k: (string, ArticleId), a: ArticleId)
    requires IdsDistinct(w) && TicketsKnown(w)
    requires Enabled(w, c) && c.CallClaim? && Claimed(w, c, w') && k in w'.tickets && a in w.table.jobs
    ensures w'.table.jobs[a].id == w'.tickets[k].id ==> a == k.1
  {
    assert w'.table.jobs[a].id == w.table.jobs[a].id;
  }

  lemma ClaimKeepsArticle(w: World, c: Call, w': World, k: (string, ArticleId), l: (string, ArticleId))
    requires IdsDistinct(w) && TicketsKnown(w)
    requires Enabled(w, c) && c.CallClaim? && Claimed(w, c, w') && k in w'.tickets && l in w'.tickets
    requires w'.tickets[k].id == w'.tickets[l].id
    ensures k.1 == l.1
  {
    if k.0 == c.token {
      ClaimKeepsRow(w, c, w', l, k.1);
    } else if l.0 == c.token {
      ClaimKeepsRow(w, c, w', k, l.1);
    }
  }

  lemma ClaimKeepsIds(w: World, c: Call, w': World)
    requires IdsDistinct(w) && Enabled(w, c) && c.CallClaim? && Claimed(w, c, w')
    ensures IdsDistinct(w')
  {
    forall a, b | a in w'.table.jobs && b in w'.table.jobs && w'.table.jobs[a].id == w'.table.jobs[b].id
      ensures a == b
    {
      assert w.table.jobs[a].id == w.table.jobs[b].id;
    }
  }

  lemma ClaimKeepsBounds(w: World, c: Call, w': World)
    requires IdsDistinct(w) && TicketsBounded(w) && w.returned <= w.tickets.Keys
    requires Enabled(w, c) && c.CallClaim? && Claimed(w, c, w')
    ensures TicketsBounded(w') && w'.returned <= w'.tickets.Keys
  {
    forall k | k in w'.tickets
      ensures w'.tickets[k].id < w'.table.nextId && w'.tickets[k].enqueues <= EnqueueCount(w', k.1)
    {
      assert k !in w.tickets ==> k.1 in w.table.jobs;
    }
  }

  lemma ClaimKeepsRows(w: World, c: Call, w': World)
    requires IdsDistinct(w) && TicketsKnown(w)
    requires Enabled(w, c) && c.CallClaim? && Claimed(w, c, w')
    ensures TicketsNameRows(w')
  {
    forall k, a | k in w'.tickets && a in w'.table.jobs && w'.table.jobs[a].id == w'.tickets[k].id ensures a == k.1 {
      ClaimKeepsRow(w, c, w', k, a);
    }
  }

  lemma ClaimKeepsArticles(w: World, c: Call, w': World)
    requires IdsDistinct(w) && TicketsKnown(w)
    requires Enabled(w, c) && c.CallClaim? && Claimed(w, c, w')
    ensures TicketsAgree(w')
  {
    forall k, l | k in w'.tickets && l in w'.tickets && w'.tickets[k].id == w'.tickets[l].id ensures k.1 == l.1 {
      ClaimKeepsArticle(w, c, w', k, l);
    }
  }

  lemma ClaimStep(w: World, c: Call)
    requires Inv(w) && Enabled(w, c) && c.CallClaim?
    ensures Inv(Apply(w, c))
  {
    ClaimIs(w, c);
    ClaimKeepsLeases(w, c, Apply(w, c));
    ClaimKeepsStored(w, c, Apply(w, c));
    ClaimKeepsIds(w, c, Apply(w, c));
    ClaimKeepsBounds(w, c, Apply(w, c));
    ClaimKeepsRows(w, c, Apply(w, c));
    ClaimKeepsArticles(w, c, Apply(w, c));
    ClaimKeepsOneLive(w, c, Apply(w, c));
  }

  lemma CompleteStep(w: World, c: Call)
    requires Inv(w) && c.CallComplete?
    ensures Inv(Apply(w, c))
  {
    var w' := Apply(w, c);
    QuietStep(w, w');
    forall a | a in w'.table.jobs && w'.table.jobs[a].lease.Some? ensures Backed(w', a) {
      assert Backed(w, a);
    }
    forall k | k in w'.tickets ensures Stored(w', k) {
      assert Stored(w, k);
    }
  }

  lemma FailReturns(w: World, c: Call)
    requires Inv(w) && c.CallFail?
    ensures TicketsKnown(Apply(w, c)) && IdsDistinct(Apply(w, c))
    ensures forall a :: a in w.table.jobs && Named(w.table.jobs[a], c.id, c.token) ==>
              (c.token, a) in w.tickets && (c.token, a) in Apply(w, c).returned
  {
    forall a | a in w.table.jobs && Named(w.table.jobs[a], c.id, c.token)
      ensures (c.token, a) in w.tickets && (c.token, a) in Apply(w, c).returned
    {
      assert Backed(w, a);
    }
  }

  lemma FailStep(w: World, c: Call)
    requires Inv(w) && c.CallFail?
    ensures Inv(Apply(w, c))
  {
    var w' := Apply(w, c);
    QuietStep(w, w');
    FailReturns(w, c);
    forall a | a in w'.table.jobs && w'.table.jobs[a].lease.Some? ensures Backed(w', a) {
      assert Backed(w, a);
    }
    forall k | k in w'.tickets ensures Stored(w', k) {
      assert Stored(w, k);
    }
  }

  lemma TickStep(w: World, c: Call)
    requires Inv(w) && c.CallTick?
    ensures Inv(Apply(w, c))
  {
    var w' := Apply(w, c);
    QuietStep(w, w');
    forall a | a in w'.table.jobs && w'.table.jobs[a].lease.Some? ensures Backed(w', a) {
      assert Backed(w, a);
    }
    forall k | k in w'.tickets ensures Stored(w', k) {
      assert Stored(w, k);
    }
  }

  lemma InvStep(w: World, c: Call)
    requires Inv(w) && Enabled(w, c)
    ensures Inv(Apply(w, c))
  {
    match c
    case CallTick(_) => TickStep(w, c);
    case CallEnqueue(_, _, _) => EnqueueStep(w, c);
    case CallClaim(_, _, _) => ClaimStep(w, c);
    case CallComplete(_, _) => CompleteStep(w, c);
    case CallFail(_, _, _) => FailStep(w, c);
  }

  lemma {:induction false} InvRun(w: World, calls: seq<Call>, w': World)
    requires Inv(w) && Reaches(w, calls, w')
    ensures Inv(w')
    decreases |calls|
  {
    if calls != [] {
      InvStep(w, calls[0]);
      InvRun(Apply(w, calls[0]), calls[1..], w');
    }
  }

  // ----- main results -----

  /**
   No lost update. In every reachable state a completion removes at most the one row its token was
   claimed for, and only if that claim came after the article's latest enqueue: comparing tokens
   implies the comparison of article_version (and of the enqueue count) that it stands for.
   */
  lemma RemovalFollowsLatestEnqueue(calls: seq<Call>, w: World, id: nat, token: string, a: ArticleId)
    requires Reaches(START, calls, w)
    requires a in w.table.jobs && a !in Complete(w.table, id, token).jobs
    ensures (token, a) in w.tickets && w.tickets[(token, a)].id == id == w.table.jobs[a].id
    ensures w.tickets[(token, a)].enqueues == EnqueueCount(w, a)
    ensures w.tickets[(token, a)].version == w.table.jobs[a].version
    ensures Complete(w.table, id, token).jobs == map b | b in w.table.jobs && b != a :: w.table.jobs[b]
  {
    InvRun(START, calls, w);
    assert Backed(w, a);
  }

  /** An enqueue after the claim always survives the completion of that claim. */
  lemma LaterEnqueueSurvives(calls: seq<Call>, w: World, token: string, a: ArticleId)
    requires Reaches(START, calls, w)
    requires (token, a) in w.tickets && w.tickets[(token, a)].enqueues < EnqueueCount(w, a)
    requires a in w.table.jobs
    ensures a in Complete(w.table, w.tickets[(token, a)].id, token).jobs
    ensures Complete(w.table, w.tickets[(token, a)].id, token).jobs[a] == w.table.jobs[a]
  {
    InvRun(START, calls, w);
    if w.table.jobs[a].lease.Some? {
      assert Backed(w, a);
    }
  }

  /**
   At any time a job has at most one unexpired, unreturned holder per article version: two of them
   are told apart by an enqueue that came in between and took the first lease away.
   */
  lemma OneHolderPerVersion(calls: seq<Call>, w: World, k: (string, ArticleId), l: (string, ArticleId))
    requires Reaches(START, calls, w)
    requires k != l && Live(w, k) && Live(w, l) && w.tickets[k].id == w.tickets[l].id
    ensures k.1 == l.1 && w.tickets[k].version != w.tickets[l].version
    ensures k.1 in w.table.jobs && w.table.jobs[k.1].lease == Some(Lease(k.0, w.tickets[k].expires)) ==>
              l.1 in w.table.jobs && w.tickets[l].version < w.table.jobs[l.1].version
  {
    InvRun(START, calls, w);
    if k.1 in w.table.jobs && w.table.jobs[k.1].lease.Some? {
      assert Backed(w, k.1) && Stored(w, l);
    }
  }

  const FIRST := World(Table(map[7 := Job(1, Upsert, 1, 0, None, 0)], 2), 0, map[7 := 1], map[], {})
  const HELD := FIRST.(table := Table(map[7 := Job(1, Upsert, 1, 0, Some(Lease("a", 1440)), 1)], 2),
                       tickets := map[("a", 7) := Ticket(1, 1, 1, 1440)])
  const AGAIN := HELD.(table := Table(map[7 := Job(1, Upsert, 2, 0, None, 1)], 3), enqueues := map[7 := 2])

  lemma Enqueues()
    ensures Apply(START, CallEnqueue(7, Upsert, 0)) == FIRST
    ensures Apply(HELD, CallEnqueue(7, Upsert, 0)) == AGAIN
  {
  }

  lemma FirstHolder()
    ensures Enabled(FIRST, CallClaim({7}, "a", 1440)) && Apply(FIRST, CallClaim({7}, "a", 1440)) == HELD
  {
    var w := Apply(FIRST, CallClaim({7}, "a", 1440));
    assert (set a | a in {7} :: ("a", a)) == {("a", 7)};
    assert w.tickets == HELD.tickets && w.table.jobs == HELD.table.jobs;
  }

  lemma SecondHolder()
    ensures Enabled(AGAIN, CallClaim({7}, "b", 1440))
    ensures var w := Apply(AGAIN, CallClaim({7}, "b", 1440));
            Live(w, ("a", 7)) && Live(w, ("b", 7)) && w.tickets[("a", 7)].id == w.tickets[("b", 7)].id
  {
    assert "a" != "b" by { assert "a"[0] != "b"[0]; }
    assert (set a | a in {7} :: ("b", a)) == {("b", 7)};
  }

  lemma ReachesCons(w: World, c: Call, calls: seq<Call>, w': World)
    requires Enabled(w, c) && Reaches(Apply(w, c), calls, w')
    ensures Reaches(w, [c] + calls, w')
  {
    assert ([c] + calls)[1..] == calls;
  }

  /** That case is real: a job re-enqueued under a running worker is claimed at once by a second one. */
  lemma TwoHoldersExample() returns (calls: seq<Call>, w: World)
    ensures Reaches(START, calls, w)
    ensures Live(w, ("a", 7)) && Live(w, ("b", 7))
    ensures w.tickets[("a", 7)].id == w.tickets[("b", 7)].id
  {
    var enqueue := CallEnqueue(7, Upsert, 0);
    var claimA, claimB := CallClaim({7}, "a", 1440), CallClaim({7}, "b", 1440);
    Enqueues();
    FirstHolder();
    SecondHolder();
    w := Apply(AGAIN, claimB);
    calls := [enqueue] + ([claimA] + ([enqueue] + ([claimB] + [])));
    ReachesCons(AGAIN, claimB, [], w);
    ReachesCons(HELD, enqueue, [claimB] + [], w);
    ReachesCons(FIRST, claimA, [enqueue] + ([claimB] + []), w);
    ReachesCons(START, enqueue, [claimA] + ([enqueue] + ([claimB] + [])), w);
  }
}
