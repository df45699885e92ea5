/**
 Which rebuild runs in one process. Two flags under one mutex: `rebuilding`, and `pendingRebuild`
 for requests that arrive meanwhile; finishing a rebuild turns a pending request into one queued
 start attempt.
 */
module RebuildCoordinator {

  /** `active`: rebuild bodies between begin and finish; `waiting`: spawned start attempts not yet run. */
  datatype State = State(rebuilding: bool, pending: bool, active: nat, waiting: nat)

  const START := State(false, false, 0, 0)

  function BeginState(s: State): State {
    if s.rebuilding then s else s.(rebuilding := true, active := s.active + 1)
  }

  function BeginOrQueueState(s: State): State {
    if s.rebuilding then s.(pending := true) else s.(rebuilding := true, active := s.active + 1)
  }

  function QueueState(s: State): State {
    if s.rebuilding then s.(pending := true) else s
  }

  function FinishState(s: State): State
    requires s.active > 0
  {
    State(false, false, s.active - 1, s.waiting + (if s.pending then 1 else 0))
  }

  class Worker {
    var s: State

    constructor ()
      ensures s == START
    {
      s := START;
    }

    method BeginRebuild() returns (ok: bool)
      modifies this
      ensures s == BeginState(old(s)) && (ok <==> !old(s.rebuilding))
    {
      if s.rebuilding {
        return false;
      }
      s := s.(rebuilding := true, active := s.active + 1);
      ok := true;
    }

    method BeginOrQueueRebuild() returns (ok: bool)
      modifies this
      ensures s == BeginOrQueueState(old(s)) && (ok <==> !old(s.rebuilding))
    {
      if s.rebuilding {
        s := s.(pending := true);
        return false;
      }
      s := s.(rebuilding := true, active := s.active + 1);
      ok := true;
    }

    method QueueRebuildAfterCurrent()
      modifies this
      ensures s == QueueState(old(s))
    {
      if s.rebuilding {
        s := s.(pending := true);
      }
    }

    method FinishRebuild()
      requires s.active > 0
      modifies this
      ensures s == FinishState(old(s))
    {
      var pending := s.pending;
      s := s.(rebuilding := false, pending := false, active := s.active - 1);
      if pending {
        s := s.(waiting := s.waiting + 1);
      }
    }
  }

  // ----- runs -----

  /**
   Manual: the synchronous Rebuild. Request: StartRebuild from outside. Requeue: a successor is asked for,
   as a running rebuild does. Attempt: a spawned goroutine gets its turn; it gives up if the settings
   cannot be read or RAG is off, and otherwise behaves like a request.
   */
  datatype Event = Manual | Request | Requeue | Finish | Attempt(goesOn: bool)

  predicate Enabled(s: State, e: Event) {
    match e
    case Finish => s.active > 0
    case Attempt(_) => s.waiting > 0
    case _ => true
  }

  function Next(s: State, e: Event): State
    requires Enabled(s, e)
  {
    match e
    case Manual => BeginState(s)
    case Request => BeginOrQueueState(s)
    case Requeue => QueueState(s)
    case Finish => FinishState(s)
    case Attempt(goesOn) =>
      var s' := s.(waiting := s.waiting - 1);
      if goesOn then BeginOrQueueState(s') else s'
  }

  /** The states of a run: one more than events. */
  predicate Run(states: seq<State>, events: seq<Event>) {
    && |states| == |events| + 1
    && states[0] == START
    && forall i :: 0 <= i < |events| ==> Enabled(states[i], events[i]) && states[i + 1] == Next(states[i], events[i])
  }

  /** The event finds a rebuild running and leaves a request behind. */
  predicate Queues(s: State, e: Event) {
    s.rebuilding && (e.Request? || e.Requeue? || (e.Attempt? && e.goesOn))
  }

  lemma {:induction false} OneRebuildAtATime(states: seq<State>, events: seq<Event>, i: nat)
    requires Run(states, events) && i < |states|
    ensures states[i].active == (if states[i].rebuilding then 1 else 0)
    ensures states[i].pending ==> states[i].rebuilding
  {
    if i > 0 {
      OneRebuildAtATime(states, events, i - 1);
      assert states[i - 1 + 1] == Next(states[i - 1], events[i - 1]);
    }
  }

  /** A queued request stays pending until the running rebuild finishes. */
  lemma {:induction false} StaysPending(states: seq<State>, events: seq<Event>, i: nat, j: nat)
    requires Run(states, events) && i < j < |states|
    requires Queues(states[i], events[i])
    requires forall k :: i < k < j ==> !events[k].Finish?
    ensures states[j].pending
  {
    assert states[j - 1 + 1] == Next(states[j - 1], events[j - 1]);
    if j > i + 1 {
      StaysPending(states, events, i, j - 1);
      OneRebuildAtATime(states, events, j - 1);
    }
  }

  /** Start attempts that are waiting now but not at the end of the run have had their turn in between. */
  lemma {:induction false} WaitingIsServed(states: seq<State>, events: seq<Event>, i: nat, n: nat) returns (k: nat)
    requires Run(states, events) && i <= n < |states|
    requires states[i].waiting > 0 && states[n].waiting == 0
    ensures i <= k < n && events[k].Attempt?
    decreases n - i
  {
    assert states[i + 1] == Next(states[i], events[i]);
    if events[i].Attempt? {
      k := i;
    } else {
      k := WaitingIsServed(states, events, i + 1, n);
    }
  }

  /**
   No request is lost. Whatever the interleaving, a request that finds a rebuild running is turned
   into a new start attempt by the next finish, and by the time nothing is waiting any more, such an
   attempt has run after that finish.
   */
  lemma QueuedRequestGetsAnAttempt(states: seq<State>, events: seq<Event>, i: nat, j: nat, n: nat) returns (k: nat)
    requires Run(states, events) && i < j < n < |states|
    requires Queues(states[i], events[i])
    requires events[j].Finish? && forall m :: i < m < j ==> !events[m].Finish?
    requires states[n].waiting == 0
    ensures states[j + 1].waiting == states[j].waiting + 1
    ensures j < k < n && events[k].Attempt?
  {
    StaysPending(states, events, i, j);
    assert states[j + 1] == Next(states[j], events[j]);
    k := WaitingIsServed(states, events, j + 1, n);
  }

  // ----- the answers -----

  /** Events whose caller is told that it may rebuild: the slot was free. */
  predicate Answered(s: State, e: Event) {
    (e.Manual? || e.Request? || (e.Attempt? && e.goesOn)) && !s.rebuilding
  }

  /** Answers given less rebuilds finished, among the first n events. */
  function Balance(states: seq<State>, events: seq<Event>, n: nat): int
    requires n <= |events| < |states|
  {
    if n == 0 then 0
    else
      Balance(states, events, n - 1)
      + (if Answered(states[n - 1], events[n - 1]) then 1 else if events[n - 1].Finish? then -1 else 0)
  }

  /** Whoever is told so is the only one: the balance is one while the flag is up and zero otherwise. */
  lemma {:induction false} AnswersBalance(states: seq<State>, events: seq<Event>, n: nat)
    requires Run(states, events) && n <= |events|
    ensures Balance(states, events, n) == if states[n].rebuilding then 1 else 0
  {
    if n > 0 {
      AnswersBalance(states, events, n - 1);
      OneRebuildAtATime(states, events, n - 1);
      assert states[n - 1 + 1] == Next(states[n - 1], events[n - 1]);
    }
  }

  /** After an answer the slot stays taken until a rebuild finishes. */
  lemma {:induction false} StaysTaken(states: seq<State>, events: seq<Event>, i: nat, j: nat)
    requires Run(states, events) && i < j < |states| && Answered(states[i], events[i])
    requires forall k :: i < k < j ==> !events[k].Finish?
    ensures states[j].rebuilding
    decreases j - i
  {
    assert states[j - 1 + 1] == Next(states[j - 1], events[j - 1]);
    if j > i + 1 {
      StaysTaken(states, events, i, j - 1);
    }
  }

  /** Between two answers a rebuild finishes; so no two callers rebuild at once. */
  lemma FinishBetweenAnswers(states: seq<State>, events: seq<Event>, i: nat, j: nat)
    requires Run(states, events) && i < j < |events|
    requires Answered(states[i], events[i]) && Answered(states[j], events[j])
    ensures exists k :: i < k < j && events[k].Finish?
  {
    if forall k :: i < k < j ==> !events[k].Finish? {
      StaysTaken(states, events, i, j);
    }
  }

  /** The slot is free again after a finish, so the next to ask gets it. */
  lemma FinishFrees(states: seq<State>, events: seq<Event>, i: nat)
    requires Run(states, events) && i < |events| && events[i].Finish?
    ensures !states[i + 1].rebuilding && !states[i + 1].pending
    ensures i + 1 < |events| && (events[i + 1].Manual? || events[i + 1].Request?) ==>
              Answered(states[i + 1], events[i + 1])
  {
    assert states[i + 1] == Next(states[i], events[i]);
  }

  // ----- start attempts come from requests -----

  /** How many of the first n events left a request behind, and how many were start attempts. */
  function QueueCount(states: seq<State>, events: seq<Event>, n: nat): nat
    requires n <= |events| < |states|
  {
    if n == 0 then 0 else QueueCount(states, events, n - 1) + (if Queues(states[n - 1], events[n - 1]) then 1 else 0)
  }

  function AttemptCount(events: seq<Event>, n: nat): nat
    requires n <= |events|
  {
    if n == 0 then 0 else AttemptCount(events, n - 1) + (if events[n - 1].Attempt? then 1 else 0)
  }

  /**
   No attempt without a request: those made and those waiting, and the request pending, are at most the
   requests queued.
   */
  lemma {:induction false} AttemptsNeedRequests(states: seq<State>, events: seq<Event>, n: nat)
    requires Run(states, events) && n <= |events|
    ensures AttemptCount(events, n) + states[n].waiting
              + (if states[n].pending then 1 else 0) <= QueueCount(states, events, n)
  {
    if n > 0 {
      AttemptsNeedRequests(states, events, n - 1);
      OneRebuildAtATime(states, events, n - 1);
      assert states[n - 1 + 1] == Next(states[n - 1], events[n - 1]);
    }
  }

  /** Each attempt takes one of those waiting. */
  lemma AttemptIsTaken(s: State, goesOn: bool)
    requires s.waiting > 0
    ensures Next(s, Attempt(goesOn)).waiting == s.waiting - 1
    ensures !goesOn ==> Next(s, Attempt(false)) == s.(waiting := s.waiting - 1)
  {
  }
}
