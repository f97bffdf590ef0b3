/** The order in which workers are served, and the ends of waiting calls. */
module PoolQueue {
  import opened Wrappers
  import opened PoolProtocol
  import opened PoolInvariants
  import opened PoolSafety
  import opened PoolTheorems
  import opened PoolOutstanding
  import opened PoolClient
  import PoolPotential

  // ---- First ready, first served ---------------------------------------

  /** The worker of the READY a step makes the client accept. */
  function AcceptedBy(s: State, step: Step): seq<WorkerId> {
    if step.PollStep? && step.w in s.workers && s.workers[step.w].outbox != []
       && s.workers[step.w].outbox[0] == Ready && step.w !in s.client.listed
    then [step.w] else []
  }

  /** The queue entry a step hands to a call. */
  function PoppedBy(s: State, step: Step): seq<WorkerId> {
    if step.PopStep? && step.r in s.requests && s.requests[step.r].stage == Waiting && s.client.queue != []
    then [s.client.queue[0]] else []
  }

  /** READYs accepted along a run, and entries popped, in order. */
  function Accepted(s: State, steps: seq<Step>): seq<WorkerId> {
    if steps == [] then []
    else
      var n := |steps| - 1;
      Accepted(s, steps[..n]) + AcceptedBy(Run(s, steps[..n]), steps[n])
  }

  function Popped(s: State, steps: seq<Step>): seq<WorkerId> {
    if steps == [] then []
    else
      var n := |steps| - 1;
      Popped(s, steps[..n]) + PoppedBy(Run(s, steps[..n]), steps[n])
  }

  lemma QueueStep(s: State, step: Step)
    ensures s.client.queue + AcceptedBy(s, step) == PoppedBy(s, step) + Do(s, step).client.queue
  {
    hide DoWorker, Polled, Deliver, Remove;
  }

  /** Over every run the queue passes on the accepted READYs in their order. */
  lemma {:induction false} QueueIsFifo(s: State, steps: seq<Step>)
    ensures s.client.queue + Accepted(s, steps) == Popped(s, steps) + Run(s, steps).client.queue
  {
    if steps != [] {
      var n := |steps| - 1;
      var m := Run(s, steps[..n]);
      hide Do, AcceptedBy, PoppedBy;
      QueueIsFifo(s, steps[..n]);
      QueueStep(m, steps[n]);
      Regrouped(s.client.queue, Accepted(s, steps[..n]), AcceptedBy(m, steps[n]),
                Popped(s, steps[..n]), PoppedBy(m, steps[n]), m.client.queue, Do(m, steps[n]).client.queue);
    }
  }

  lemma Regrouped(q: seq<WorkerId>, a: seq<WorkerId>, a': seq<WorkerId>, p: seq<WorkerId>, p': seq<WorkerId>,
                  m: seq<WorkerId>, q': seq<WorkerId>)
    requires q + a == p + m && m + a' == p' + q'
    ensures q + (a + a') == (p + p') + q'
  {
    assert q + (a + a') == (q + a) + a' == (p + m) + a' == p + (m + a') == p + (p' + q');
  }

  /** The READY at a place among the accepted ones still waits for its turn. */
  predicate InTurn(c: Client, popped: seq<WorkerId>, accepted: seq<WorkerId>, i: int) {
    |popped| <= i < |accepted| && accepted[i] in c.listed
  }

  /** The worker taken is that of the first READY in turn. */
  ghost predicate TakesFirst(c: Client, popped: seq<WorkerId>, accepted: seq<WorkerId>) {
    match Take(c).0
    case None => forall i :: !InTurn(c, popped, accepted, i)
    case Some(w) =>
      exists i :: InTurn(c, popped, accepted, i) && accepted[i] == w
                  && forall j :: InTurn(c, popped, accepted, j) ==> i <= j
  }

  lemma FirstInTurn(c: Client, popped: seq<WorkerId>, accepted: seq<WorkerId>)
    requires accepted == popped + c.queue
    ensures TakesFirst(c, popped, accepted)
  {
    TakeFirst(c);
    if Take(c).0.Some? {
      var i :| 0 <= i < |c.queue| && Took(c, i, Take(c).0.value, Take(c).1);
      assert InTurn(c, popped, accepted, |popped| + i);
      forall j | InTurn(c, popped, accepted, j) ensures |popped| + i <= j {
        assert c.queue[j - |popped|] in c.listed;
      }
    }
    hide Take;
  }

  /** On every run: the worker a call gets is the one whose READY was accepted
      first, among those listed and not yet popped. */
  lemma FirstReadyServed(maxqueue: nat, maxcycles: Option<nat>, steps: seq<Step>)
    ensures
      var start := Start(maxqueue, maxcycles);
      TakesFirst(Run(start, steps).client, Popped(start, steps), Accepted(start, steps))
  {
    var start := Start(maxqueue, maxcycles);
    hide Run, Accepted, Popped, TakesFirst;
    QueueIsFifo(start, steps);
    assert [] + Accepted(start, steps) == Accepted(start, steps);
    FirstInTurn(Run(start, steps).client, Popped(start, steps), Accepted(start, steps));
  }

  /** A new entry does not change whose turn it is. */
  lemma NoOvertaking(c: Client, w: WorkerId)
    requires Lists(c) && c.listed != [] && (w in c.queue ==> w in c.listed)
    ensures Take(PutWorker(c, w)).0 == Take(c).0
  {
    if w !in c.listed {
      var c' := PutWorker(c, w);
      PutKeepsLists(c, w);
      TakeKeepsLists(c);
      TakeKeepsLists(c');
      TakeFirst(c);
      TakeFirst(c');
      assert c'.queue == c.queue + [w] && c'.listed == c.listed + [w];
      var i :| 0 <= i < |c.queue| && Took(c, i, Take(c).0.value, Take(c).1);
      var i' :| 0 <= i' < |c'.queue| && Took(c', i', Take(c').0.value, Take(c').1);
      assert c'.queue[i] == c.queue[i] && c'.queue[i] in c'.listed;
      assert i' <= i && c.queue[i'] == c'.queue[i'] && c.queue[i'] != w;
      assert c.queue[i'] in c.listed;
    }
  }

  // ---- One entry per worker --------------------------------------------

  predicate Held(s: State, r: ReqId, w: WorkerId) {
    r in s.requests && s.requests[r].stage == Holding(w)
  }

  /** A worker whose DONE was not processed has one entry at most, in the queue or
      in the hand of a call, and only while it is listed. */
  ghost predicate OneEntry(s: State, w: WorkerId) {
    w in s.workers && !s.workers[w].doneSeen ==>
      && (w in s.client.queue ==> w in s.client.listed)
      && (forall i, j :: 0 <= i < j < |s.client.queue| ==> s.client.queue[i] != w || s.client.queue[j] != w)
      && (forall r :: Held(s, r, w) ==> w in s.client.listed && w !in s.client.queue)
      && (forall r, r' :: Held(s, r, w) && Held(s, r', w) ==> r == r')
  }

  lemma OneEntryPoll(s: State, x: WorkerId, w: WorkerId)
    requires NoDup(s.client.listed) && OneEntry(s, w)
    ensures OneEntry(Poll(s, x), w)
  {
    RemoveFacts(s.client.listed, x);
    assert forall r :: Held(Poll(s, x), r, w) ==> Held(s, r, w);
    hide Remove, NoDup;
  }

  lemma OneEntryPop(s: State, r: ReqId, w: WorkerId)
    requires OneEntry(s, w)
    ensures OneEntry(Pop(s, r), w)
  {
    var s' := Pop(s, r);
    if s' != s {
      var rest := s.client.queue[1..];
      assert s.client.queue == [s.client.queue[0]] + rest;
      assert forall i :: 0 <= i < |rest| ==> rest[i] == s.client.queue[i + 1];
      assert forall q :: Held(s', q, w) ==> (q == r && s.client.queue[0] == w) || Held(s, q, w);
    }
  }

  lemma OneEntryClaim(s: State, r: ReqId, id: CorrId, delivered: bool, w: WorkerId)
    requires NoDup(s.client.listed) && OneEntry(s, w)
    ensures OneEntry(Claim(s, r, id, delivered), w)
  {
    var s' := Claim(s, r, id, delivered);
    if r in s.requests && s.requests[r].stage.Holding? {
      RemoveFacts(s.client.listed, s.requests[r].stage.worker);
      assert Held(s, r, s.requests[r].stage.worker);
      assert forall q :: Held(s', q, w) ==> Held(s, q, w);
    }
    hide Remove, NoDup;
  }

  /** Other steps leave the lists alone and hold no new entry. */
  lemma OneEntryFrame(s: State, s': State, w: WorkerId)
    requires OneEntry(s, w) && s'.client.queue == s.client.queue && s'.client.listed == s.client.listed
    requires forall r :: Held(s', r, w) ==> Held(s, r, w)
    requires w in s'.workers && !s'.workers[w].doneSeen ==>
      (w in s.workers && !s.workers[w].doneSeen) || (w !in s.client.queue && forall r :: !Held(s, r, w))
    ensures OneEntry(s', w)
  {}

  ghost predicate Known(s: State) {
    && (forall i :: 0 <= i < |s.client.queue| ==> s.client.queue[i] in s.workers)
    && (forall r, w :: Held(s, r, w) ==> w in s.workers)
  }

  lemma KnownStep(s: State, step: Step)
    requires Known(s)
    ensures Known(Do(s, step))
  {
    var s' := Do(s, step);
    KnownMoves(s, step);
    hide Do, Held;
    forall r, w | Held(s', r, w) ensures w in s'.workers {
      HeldFrom(s, step, r, w);
    }
  }

  /** Nobody is forgotten, and the queue gains known workers only. */
  lemma KnownMoves(s: State, step: Step)
    requires Known(s)
    ensures s.workers.Keys <= Do(s, step).workers.Keys
    ensures forall i :: 0 <= i < |Do(s, step).client.queue| ==> Do(s, step).client.queue[i] in Do(s, step).workers
  {
    hide DoWorker, Polled, Deliver, Remove, Held;
  }

  /** An entry in the hand of a call was there before, or headed the queue. */
  lemma HeldFrom(s: State, step: Step, r: ReqId, w: WorkerId)
    requires Held(Do(s, step), r, w)
    ensures Held(s, r, w) || (s.client.queue != [] && w == s.client.queue[0])
  {
    hide DoWorker, Polled, Deliver, Remove;
  }

  lemma OneEntryStep(s: State, step: Step, w: WorkerId)
    requires NoDup(s.client.listed) && Known(s) && OneEntry(s, w)
    ensures OneEntry(Do(s, step), w)
  {
    match step
    case PollStep(x) => OneEntryPoll(s, x, w); hide OneEntry, Poll;
    case PopStep(r) => OneEntryPop(s, r, w); hide OneEntry, Pop;
    case ClaimStep(r, id, delivered) => OneEntryClaim(s, r, id, delivered, w); hide OneEntry, Claim;
    case WorkerDoes(x, a) =>
      if x in s.workers { SameDone(s.maxcycles, s.workers[x], a); }
      hide DoWorker;
      OneEntryFrame(s, Do(s, step), w);
    case _ =>
      hide OneEntry;
      OneEntryFrame(s, Do(s, step), w);
  }

  lemma SameDone(maxcycles: Option<nat>, k: Worker, a: WorkerStep)
    ensures DoWorker(maxcycles, k, a).doneSeen == k.doneSeen
  {}

  lemma {:induction false} OneEntryAlways(maxqueue: nat, maxcycles: Option<nat>, steps: seq<Step>, w: WorkerId)
    ensures
      var s := Run(Start(maxqueue, maxcycles), steps);
      NoDup(s.client.listed) && Known(s) && OneEntry(s, w)
  {
    Always(maxqueue, maxcycles, steps);
    hide RequestsInv, WorkersInv, NoDup;
    if steps != [] {
      var n := |steps| - 1;
      hide Do, Inv, Known, OneEntry;
      OneEntryAlways(maxqueue, maxcycles, steps[..n], w);
      KnownStep(Run(Start(maxqueue, maxcycles), steps[..n]), steps[n]);
      OneEntryStep(Run(Start(maxqueue, maxcycles), steps[..n]), steps[n], w);
    }
  }

  lemma ReachedEntry(s: State, w: WorkerId)
    requires Reached(s)
    ensures Known(s) && OneEntry(s, w)
  {
    var maxqueue, maxcycles, steps :| s == Run(Start(maxqueue, maxcycles), steps);
    hide Known, OneEntry, Run;
    OneEntryAlways(maxqueue, maxcycles, steps, w);
  }

  /** A queue entry no longer listed, which `_get_worker` throws away, is always of
      a worker whose DONE was processed. */
  lemma StaleOnlyAfterDone(s: State, w: WorkerId)
    requires Reached(s) && w in s.client.queue && w !in s.client.listed
    ensures w in s.workers && s.workers[w].doneSeen
  {
    hide Reached;
    ReachedEntry(s, w);
  }

  /** In every reachable state with no entry in the hand of a call: while some
      worker is listed, the next READY does not change whose turn it is. */
  lemma ReadyOvertakesNobody(s: State, w: WorkerId)
    requires Reached(s) && (forall r :: r in s.requests ==> !s.requests[r].stage.Holding?) && s.client.listed != []
    requires w in s.workers && s.workers[w].outbox != [] && s.workers[w].outbox[0].Ready?
    ensures Take(Poll(s, w).client).0 == Take(s.client).0
  {
    ReachedLists(s);
    ReachedInv(s);
    WorkerFacts(s, w);
    assert DoneLast(s.workers[w]);
    hide Reached, PoolSafety.Inv, WorkerInv;
    if w in s.client.queue && w !in s.client.listed { StaleOnlyAfterDone(s, w); }
    NoOvertaking(s.client, w);
    hide Take;
  }

  // ---- What is submitted -----------------------------------------------

  lemma SamePayload(s: State, step: Step, r: ReqId)
    requires r in s.requests
    ensures r in Do(s, step).requests && Do(s, step).requests[r].payload == s.requests[r].payload
  {
    hide DoWorker, Polled, Deliver, Remove;
  }

  /** A call keeps the payload it was submitted with, whatever happens to it. */
  lemma {:induction false} PayloadKept(s: State, r: ReqId, payload: Payload, steps: seq<Step>)
    requires r !in s.requests
    ensures
      var s' := Run(Do(s, Submit(r, payload)), steps);
      r in s'.requests && s'.requests[r].payload == payload
  {
    if steps != [] {
      var n := |steps| - 1;
      PayloadKept(s, r, payload, steps[..n]);
      SamePayload(Run(Do(s, Submit(r, payload)), steps[..n]), steps[n], r);
      hide Do;
    }
  }

  // ---- The ends of calls -----------------------------------------------

  /** At its first run a call is refused when more than `maxqueue` dispatched
      calls await their replies, and goes to wait for a worker otherwise. */
  lemma QueueCheck(s: State, r: ReqId)
    requires r in s.requests && s.requests[r].stage == Created
    ensures r in Do(s, BeginStep(r)).requests
    ensures Do(s, BeginStep(r)).requests[r].stage == if |s.client.handlers| > s.maxqueue then Rejected else Waiting
    ensures Do(s, BeginStep(r)).client == s.client
  {}

  /** For every `maxqueue` some run comes to refuse a call. */
  lemma RefusalHappens(maxqueue: nat)
    ensures exists s, r :: Reached(s) && s.maxqueue == maxqueue
              && r in s.requests && s.requests[r].stage == Rejected
  {
    var s := Load(maxqueue, maxqueue + 1);
    var r := maxqueue + 1;
    var s1 := Do(s, Submit(r, "f"));
    ReachedStep(s, Submit(r, "f"));
    ReachedStep(s1, BeginStep(r));
    hide Reached;
    QueueCheck(s1, r);
    var s2 := Do(s1, BeginStep(r));
    assert s2.maxqueue == maxqueue && s2.requests[r].stage == Rejected;
  }

  /** A call may give up while it waits for a worker and while it waits for its
      reply; its handler goes with it, and no other. */
  lemma CallsTimeOut(s: State, r: ReqId)
    requires r in s.requests
    ensures s.requests[r].stage == Waiting ==>
      var s' := Do(s, WaitTimeoutStep(r));
      r in s'.requests && s'.requests[r].stage == TimedOut && s'.client == s.client
    ensures s.requests[r].stage.Sent? ==>
      var s' := Do(Do(s, ReplyTimeoutStep(r)), CleanupStep(r));
      && r in s'.requests && s'.requests[r].stage == TimedOut
      && s'.client == s.client.(handlers := s.client.handlers - {s.requests[r].stage.id})
  {}

  /** A send that fails ends its call with an error and uses the worker up: it is
      off the list, and no handler waits. */
  lemma FailedSend(s: State, r: ReqId, id: CorrId)
    requires Reached(s) && r in s.requests && s.requests[r].stage.Holding? && id !in s.sent
    requires s.requests[r].stage.worker in s.client.listed
    ensures
      var s', w := Do(s, ClaimStep(r, id, false)), s.requests[r].stage.worker;
      && r in s'.requests && s'.requests[r].stage == GatewayError
      && w !in s'.client.listed && s'.client.handlers == s.client.handlers && s'.client.queue == s.client.queue
      && s'.sent == s.sent
  {
    ReachedInv(s);
    RemoveFacts(s.client.listed, s.requests[r].stage.worker);
    hide Reached, RequestsInv, WorkersInv, Reachable, Remove;
  }

  // ---- Restarts --------------------------------------------------------

  lemma {:induction false} PollAll(s: State, w: WorkerId) returns (s': State, polls: seq<Step>)
    requires Reached(s) && w in s.workers && s.workers[w].outbox != []
    requires s.workers[w].outbox[|s.workers[w].outbox| - 1] == ToClient.Done
    ensures s' == Run(s, polls) && (forall i :: 0 <= i < |polls| ==> polls[i] == PollStep(w))
    ensures Gone(s', w)
    decreases |s.workers[w].outbox|
  {
    var next := Do(s, PollStep(w));
    var outbox := s.workers[w].outbox;
    ReachedStep(s, PollStep(w));
    assert next.workers[w].outbox == outbox[1..];
    PoolPotential.RunOn(s, PollStep(w), []);
    if |outbox| == 1 {
      s', polls := next, [PollStep(w)];
      assert [PollStep(w)] + [] == [PollStep(w)] && Run(next, []) == next;
      ReachedInv(next);
      WorkerFacts(next, w);
      hide Reached, PoolSafety.Inv, WorkerInv;
    } else {
      hide Do, Reached;
      var rest;
      s', rest := PollAll(next, w);
      PoolPotential.RunOn(s, PollStep(w), rest);
      polls := [PollStep(w)] + rest;
    }
  }

  /** A worker that meets the RESTART broadcast announces its end: once its channel
      is read, it is off the list for good. */
  lemma RestartIsAnnounced(s: State, w: WorkerId)
    requires Reached(s) && w in s.workers && s.workers[w].phase.Checking?
    ensures exists polls :: (forall i :: 0 <= i < |polls| ==> polls[i] == PollStep(w))
              && Gone(Run(Do(s, WorkerDoes(w, CheckStep(true))), polls), w)
  {
    var step := WorkerDoes(w, CheckStep(true));
    ReachedStep(s, step);
    hide Reached;
    var s', polls := PollAll(Do(s, step), w);
    assert Gone(s', w);
  }

  ghost predicate Gone(s: State, w: WorkerId) {
    w in s.workers && s.workers[w].doneSeen && s.workers[w].phase.Exited? && w !in s.client.listed
  }
}
