/** The outbox follows the articles: whatever workers do in between, a stored job asks for what its article now is. */
module ArticleJobs {
  import opened Basics
  import opened Articles
  import opened ArticleHistory
  import Outbox

  /** Article writes, and everything workers do to the outbox. */
  datatype Event =
    | Write(op: Op, now: Time)
    | Claim(picked: set<Id>, token: string, expires: Time)
    | Complete(job: nat, token: string)
    | Fail(job: nat, token: string, runAfter: Time)

  /** What the store's methods do to the outbox: nothing when the write fails. */
  function Queue(t: Tables, outbox: Outbox.Table, op: Op, now: Time): Outbox.Table {
    match op
    case Create(author, edit, tags, at) =>
      var r := Created(t, author, edit, tags, at);
      if r.Ok? then QueuedAs(r.tables, t.nextId, outbox, now) else outbox
    case Update(id, edit, tags, user, at) =>
      var r := Updated(t, id, edit, tags, user, at);
      if r.Ok? then QueuedAs(r.tables, id, outbox, now) else outbox
    case SetStatus(id, status, user, at) =>
      var r := StatusSet(t, id, status, user, at);
      if r.Ok? then QueuedAs(r.tables, id, outbox, now) else outbox
    case Restore(id, no, user) =>
      var r := Restored(t, id, no, user);
      if r.Ok? then QueuedAs(r.tables, id, outbox, now) else outbox
    case Remove(id) => if Deleted(t, id).Ok? then Outbox.Enqueue(outbox, id, Outbox.Delete, now) else outbox
    case _ => outbox
  }

  datatype World = World(tables: Tables, outbox: Outbox.Table)

  const START := World(EMPTY, Outbox.Table(map[], 1))

  predicate Enabled(w: World, e: Event) {
    e.Claim? ==> e.picked <= w.outbox.jobs.Keys
  }

  function Next(w: World, e: Event): World
    requires Enabled(w, e)
  {
    match e
    case Write(op, now) => World(Apply(w.tables, op), Queue(w.tables, w.outbox, op, now))
    case Claim(picked, token, expires) => w.(outbox := Outbox.Claim(w.outbox, picked, token, expires))
    case Complete(job, token) => w.(outbox := Outbox.Complete(w.outbox, job, token))
    case Fail(job, token, runAfter) => w.(outbox := Outbox.Release(w.outbox, job, token, runAfter))
  }

  predicate Reaches(w: World, events: seq<Event>, w': World)
    decreases |events|
  {
    if events == [] then w == w'
    else Enabled(w, events[0]) && Reaches(Next(w, events[0]), events[1..], w')
  }

  /** What the job of an article should ask for. */
  function Wanted(t: Tables, id: Id): Outbox.Op {
    if id in t.articles && t.articles[id].edit.status == Published then Outbox.Upsert else Outbox.Delete
  }

  ghost predicate Follows(w: World) {
    forall id :: id in w.outbox.jobs ==> id < w.tables.nextId && w.outbox.jobs[id].op == Wanted(w.tables, id)
  }

  /** The article a write is about. */
  predicate Concerns(t: Tables, op: Op, id: Id) {
    (op.Create? && id == t.nextId) || ((op.Update? || op.SetStatus? || op.Restore? || op.Remove?) && id == op.id)
  }

  lemma QueuedOp(t: Tables, id: Id, outbox: Outbox.Table, now: Time)
    requires id in t.articles
    ensures id in QueuedAs(t, id, outbox, now).jobs && QueuedAs(t, id, outbox, now).jobs[id].op == Wanted(t, id)
  {
  }

  predicate Queued(t: Tables, t': Tables, outbox: Outbox.Table, outbox': Outbox.Table, id: Id) {
    || (t' == t && outbox' == outbox)
    || (id in outbox'.jobs && outbox'.jobs[id].op == Wanted(t', id) && t.nextId <= t'.nextId)
  }

  lemma CreateQueues(t: Tables, outbox: Outbox.Table, op: Op, now: Time)
    requires op.Create?
    ensures Queued(t, Apply(t, op), outbox, Queue(t, outbox, op, now), t.nextId)
    ensures t.nextId < Apply(t, op).nextId || Apply(t, op) == t
  {
    var r := Created(t, op.author, op.edit, op.tags, op.now);
    if r.Ok? {
      QueuedOp(r.tables, t.nextId, outbox, now);
    }
  }

  lemma UpdateQueues(t: Tables, outbox: Outbox.Table, op: Op, now: Time)
    requires op.Update?
    ensures Queued(t, Apply(t, op), outbox, Queue(t, outbox, op, now), op.id)
  {
    var r := Updated(t, op.id, op.edit, op.tags, op.user, op.now);
    if r.Ok? {
      QueuedOp(r.tables, op.id, outbox, now);
    }
  }

  lemma StatusQueues(t: Tables, outbox: Outbox.Table, op: Op, now: Time)
    requires op.SetStatus?
    ensures Queued(t, Apply(t, op), outbox, Queue(t, outbox, op, now), op.id)
  {
    var r := StatusSet(t, op.id, op.status, op.user, op.now);
    if r.Ok? {
      QueuedOp(r.tables, op.id, outbox, now);
    }
  }

  lemma RestoreQueues(t: Tables, outbox: Outbox.Table, op: Op, now: Time)
    requires op.Restore?
    ensures Queued(t, Apply(t, op), outbox, Queue(t, outbox, op, now), op.id)
  {
    var r := Restored(t, op.id, op.no, op.user);
    if r.Ok? {
      QueuedOp(r.tables, op.id, outbox, now);
    }
  }

  lemma RemoveQueues(t: Tables, outbox: Outbox.Table, op: Op, now: Time)
    requires op.Remove?
    ensures Queued(t, Apply(t, op), outbox, Queue(t, outbox, op, now), op.id)
  {
  }

  /** A write that goes through queues what its article now asks for; one that fails changes neither side. */
  lemma OwnJob(t: Tables, outbox: Outbox.Table, op: Op, now: Time, id: Id)
    requires Concerns(t, op, id)
    ensures Queued(t, Apply(t, op), outbox, Queue(t, outbox, op, now), id)
    ensures op.Create? ==> t.nextId < Apply(t, op).nextId || Apply(t, op) == t
  {
    match op {
      case Create(_, _, _, _) => CreateQueues(t, outbox, op, now);
      case Update(_, _, _, _, _) => UpdateQueues(t, outbox, op, now);
      case SetStatus(_, _, _, _) => StatusQueues(t, outbox, op, now);
      case Restore(_, _, _) => RestoreQueues(t, outbox, op, now);
      case Remove(_) => RemoveQueues(t, outbox, op, now);
    }
  }

  /** A write leaves the jobs, and what the jobs should ask for, of all other articles alone. */
  predicate SameJob(t: Tables, t': Tables, outbox: Outbox.Table, outbox': Outbox.Table, id: Id) {
    && (id in outbox'.jobs <==> id in outbox.jobs) && (id in outbox'.jobs ==> outbox'.jobs[id] == outbox.jobs[id])
    && Wanted(t', id) == Wanted(t, id) && t.nextId <= t'.nextId
  }

  lemma QueuedElsewhere(t: Tables, own: Id, outbox: Outbox.Table, now: Time, id: Id)
    requires own in t.articles && id != own
    ensures var jobs := QueuedAs(t, own, outbox, now).jobs;
            (id in jobs <==> id in outbox.jobs) && (id in jobs ==> jobs[id] == outbox.jobs[id])
  {
  }

  lemma EditElsewhere(t: Tables, outbox: Outbox.Table, op: Op, now: Time, id: Id)
    requires (op.Update? || op.SetStatus?) && id != op.id
    ensures SameJob(t, Apply(t, op), outbox, Queue(t, outbox, op, now), id)
  {
    if op.id in t.articles {
      QueuedElsewhere(Apply(t, op), op.id, outbox, now, id);
    }
  }

  lemma RestoreElsewhere(t: Tables, outbox: Outbox.Table, op: Op, now: Time, id: Id)
    requires op.Restore? && id != op.id
    ensures SameJob(t, Apply(t, op), outbox, Queue(t, outbox, op, now), id)
  {
    if Restored(t, op.id, op.no, op.user).Ok? {
      QueuedElsewhere(Apply(t, op), op.id, outbox, now, id);
    }
  }

  lemma CreateElsewhere(t: Tables, outbox: Outbox.Table, op: Op, now: Time, id: Id)
    requires op.Create? && id != t.nextId
    ensures SameJob(t, Apply(t, op), outbox, Queue(t, outbox, op, now), id)
  {
    if Created(t, op.author, op.edit, op.tags, op.now).Ok? {
      QueuedElsewhere(Apply(t, op), t.nextId, outbox, now, id);
    }
  }

  lemma RestElsewhere(t: Tables, outbox: Outbox.Table, op: Op, now: Time, id: Id)
    requires !Concerns(t, op, id) && !op.Create? && !op.Update? && !op.SetStatus? && !op.Restore?
    ensures SameJob(t, Apply(t, op), outbox, Queue(t, outbox, op, now), id)
  {
  }

  lemma OtherJobs(t: Tables, outbox: Outbox.Table, op: Op, now: Time, id: Id)
    requires !Concerns(t, op, id)
    ensures SameJob(t, Apply(t, op), outbox, Queue(t, outbox, op, now), id)
  {
    if op.Create? {
      CreateElsewhere(t, outbox, op, now, id);
    } else if op.Restore? {
      RestoreElsewhere(t, outbox, op, now, id);
    } else if op.Update? || op.SetStatus? {
      EditElsewhere(t, outbox, op, now, id);
    } else {
      RestElsewhere(t, outbox, op, now, id);
    }
  }

  lemma WriteKeepsFollows(w: World, op: Op, now: Time)
    requires Inv(w.tables) && Follows(w)
    ensures Follows(Next(w, Write(op, now)))
  {
    var w' := Next(w, Write(op, now));
    forall id | id in w'.outbox.jobs ensures id < w'.tables.nextId && w'.outbox.jobs[id].op == Wanted(w'.tables, id) {
      if Concerns(w.tables, op, id) {
        OwnJob(w.tables, w.outbox, op, now, id);
        if !op.Create? && w'.tables != w.tables {
          WrittenIsKnown(w.tables, op, id);
        }
      } else {
        OtherJobs(w.tables, w.outbox, op, now, id);
      }
    }
  }

  lemma WrittenIsKnown(t: Tables, op: Op, id: Id)
    requires Inv(t) && Concerns(t, op, id) && !op.Create? && Apply(t, op) != t
    ensures id < t.nextId
  {
  }

  lemma {:induction false} FollowsRun(w: World, events: seq<Event>, w': World)
    requires Inv(w.tables) && Follows(w) && Reaches(w, events, w')
    ensures Inv(w'.tables) && Follows(w')
    decreases |events|
  {
    if events != [] {
      if events[0].Write? {
        InvStep(w.tables, events[0].op);
        WriteKeepsFollows(w, events[0].op, events[0].now);
      }
      FollowsRun(Next(w, events[0]), events[1..], w');
    }
  }

  /** In every run, a stored job indexes its article exactly when the article exists and is published now. */
  lemma JobsFollowArticles(events: seq<Event>, w: World, id: Id)
    requires Reaches(START, events, w) && id in w.outbox.jobs
    ensures w.outbox.jobs[id].op == Outbox.Upsert <==>
              id in w.tables.articles && w.tables.articles[id].edit.status == Published
  {
    EmptyInv();
    FollowsRun(START, events, w);
  }
}
