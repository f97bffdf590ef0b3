/** What the worker-pool protocol promises, in every reachable state. */
module PoolTheorems {
  import opened Wrappers
  import opened PoolProtocol
  import opened PoolInvariants
  import opened PoolSafety

  /** A state some run from the start leads to. */
  ghost predicate Reached(s: State) {
    exists maxqueue, maxcycles, steps :: s == Run(Start(maxqueue, maxcycles), steps)
  }

  lemma ReachedInv(s: State)
    requires Reached(s)
    ensures Inv(s)
  {
    hide Inv;
    var maxqueue, maxcycles, steps :| s == Run(Start(maxqueue, maxcycles), steps);
    Always(maxqueue, maxcycles, steps);
  }

  lemma ReachedRun(s: State, after: seq<Step>)
    requires Reached(s)
    ensures Reached(Run(s, after))
  {
    hide Do;
    var maxqueue, maxcycles, steps :| s == Run(Start(maxqueue, maxcycles), steps);
    RunConcat(Start(maxqueue, maxcycles), steps, after);
  }

  lemma ReachedStep(s: State, step: Step)
    requires Reached(s)
    ensures Reached(Do(s, step))
  {
    hide Do;
    ReachedRun(s, [step]);
    assert [step][..0] == [];
    assert Run(s, [step]) == Do(s, step);
  }

  lemma {:induction false} RunConcat(s: State, a: seq<Step>, b: seq<Step>)
    ensures Run(s, a + b) == Run(Run(s, a), b)
  {
    hide Do;
    if b == [] {
      assert a + b == a;
    } else {
      assert (a + b)[..|a + b| - 1] == a + b[..|b| - 1];
      RunConcat(s, a, b[..|b| - 1]);
    }
  }

  // ---- Exactly one place, at most one run ------------------------------

  lemma {:induction false} NoDupCount<T>(s: seq<T>, x: T)
    requires NoDup(s)
    ensures multiset(s)[x] == if x in s then 1 else 0
  {
    if s != [] {
      var t := s[1..];
      assert s == [s[0]] + t;
      assert forall i :: 0 <= i < |t| ==> t[i] == s[i + 1] && t[i] != s[0];
      NoDupCount(t, x);
    }
  }

  /** How often an id occurs at a worker: answered to the client, in a reply on
      its way, running, waiting, or lost with the worker. */
  ghost function Places(k: Worker, id: CorrId): nat {
    multiset(k.polled)[id] + multiset(Replies(k.outbox))[id] + multiset(RunningIds(k.phase))[id]
    + multiset(Ids(k.inbox))[id] + multiset(k.lost)[id]
  }

  lemma SentHere(s: State, w: WorkerId, id: CorrId)
    requires Inv(s) && w in s.workers
    ensures NoDup(Ids(s.workers[w].sentTo))
    ensures Ids(s.workers[w].sentTo) == s.workers[w].polled + Held(s.workers[w])
    ensures id in Ids(s.workers[w].sentTo) <==> id in s.sent && s.sent[id].worker == w
  {
    hide Faithful, DoneLast, Cycles, Heartbeat, ListInv;
    var k := s.workers[w];
    assert WorkerInv(s.maxcycles, k) && OnRecord(s, w);
    if id in s.sent && s.sent[id].worker == w {
      assert IdInv(s, id);
      var i :| 0 <= i < |k.sentTo| && k.sentTo[i] == Job(id, s.sent[id].payload);
      assert Ids(k.sentTo)[i] == id;
    }
    if id in Ids(k.sentTo) {
      var i :| 0 <= i < |k.sentTo| && Ids(k.sentTo)[i] == id;
      assert k.sentTo[i].id == id;
    }
  }

  /** A dispatched id is in exactly one place, at the worker it was sent to; an
      id never dispatched is nowhere. */
  lemma ExactlyOnePlace(s: State, w: WorkerId, id: CorrId)
    requires Reached(s) && w in s.workers
    ensures Places(s.workers[w], id) == if id in s.sent && s.sent[id].worker == w then 1 else 0
  {
    hide Inv;
    ReachedInv(s);
    SentHere(s, w, id);
    NoDupCount(Ids(s.workers[w].sentTo), id);
  }

  lemma ReceivedWasSent(s: State, w: WorkerId, i: nat)
    requires Inv(s) && w in s.workers && i < |s.workers[w].received|
    ensures
      var k := s.workers[w];
      && i < |k.sentTo| && k.sentTo[i] == k.received[i]
      && k.received[i].id in s.sent && s.sent[k.received[i].id].worker == w
      && s.sent[k.received[i].id].payload == k.received[i].payload
  {
    hide RequestsInv, ListInv, Faithful, DoneLast, Cycles, Heartbeat;
    assert WorkerInv(s.maxcycles, s.workers[w]) && OnRecord(s, w);
  }

  /** The request behind the i-th job a worker received. */
  ghost function RequestOf(s: State, w: WorkerId, i: nat): Option<ReqId>
    requires w in s.workers && i < |s.workers[w].received|
  {
    var id := s.workers[w].received[i].id;
    if id in s.sent then Some(s.sent[id].req) else None
  }

  /** Two receptions for one request are the same reception: a request runs at
      most once in the whole pool, and on its own payload. */
  lemma RunsAtMostOnce(s: State, w: WorkerId, i: nat, w': WorkerId, i': nat)
    requires Reached(s)
    requires w in s.workers && i < |s.workers[w].received| && w' in s.workers && i' < |s.workers[w'].received|
    requires RequestOf(s, w, i) == RequestOf(s, w', i')
    ensures w == w' && i == i'
    ensures
      var r := RequestOf(s, w, i);
      r.Some? && r.value in s.requests && s.requests[r.value].payload == s.workers[w].received[i].payload
  {
    ReachedInv(s);
    hide WorkersInv, ListInv, ReqInv;
    ReceivedWasSent(s, w, i);
    ReceivedWasSent(s, w', i');
    var k := s.workers[w];
    var id := k.received[i].id;
    assert IdInv(s, id);
    assert id == s.workers[w'].received[i'].id;
    SentHere(s, w, id);
    assert Ids(k.sentTo)[i] == id && Ids(k.sentTo)[i'] == id;
  }

  // ---- Answers ---------------------------------------------------------

  /** The answer of a request is what its own payload gave, on the worker its
      id was sent to. */
  lemma AnswerIsOwn(s: State, r: ReqId)
    requires Reached(s) && r in s.requests && s.requests[r].stage.Answered?
    ensures
      var Answered(id, o) := s.requests[r].stage;
      && id in s.sent && s.sent[id].req == r && s.sent[id].worker in s.workers
      && var k := s.workers[s.sent[id].worker];
      && Job(id, s.requests[r].payload) in k.received
      && id in k.computed && k.computed[id] == (s.requests[r].payload, o)
  {
    ReachedInv(s);
    hide ListInv, Pipeline, DoneLast, Cycles, Heartbeat;
    var id := s.requests[r].stage.id;
    assert ReqInv(s, r) && IdInv(s, id);
    var k := s.workers[s.sent[id].worker];
    assert WorkerInv(s.maxcycles, k);
    assert Finished(k.received, k.completed, Job(id, k.computed[id].0));
  }

  ghost predicate Settled(stage: Stage) {
    stage.Answered? || stage.TimedOut? || stage.Rejected? || stage.GatewayError?
  }

  /** A request that ended keeps its end: a resolved future is resolved once,
      and a call that failed is never resolved. */
  lemma {:induction false} SettledForGood(s: State, steps: seq<Step>, r: ReqId)
    requires r in s.requests && Settled(s.requests[r].stage)
    ensures r in Run(s, steps).requests && Run(s, steps).requests[r] == s.requests[r]
  {
    hide Do;
    if steps != [] {
      SettledForGood(s, steps[..|steps| - 1], r);
      SettledStep(Run(s, steps[..|steps| - 1]), steps[|steps| - 1], r);
    }
  }

  lemma SettledStep(s: State, step: Step, r: ReqId)
    requires r in s.requests && Settled(s.requests[r].stage)
    ensures r in Do(s, step).requests && Do(s, step).requests[r] == s.requests[r]
  {
    hide DoWorker, Deliver, Polled;
    match step
    case PollStep(w) =>
      if w in s.workers && s.workers[w].outbox != [] {
        match s.workers[w].outbox[0]
        case Ready =>
        case Done =>
        case Reply(_, _) =>
      }
    case _ =>
  }

  /** `_handlers` is exactly the dispatched requests, less those whose reply was
      polled and those whose timed-out call has run its `finally`. */
  lemma HandlersExact(s: State, id: CorrId)
    requires Reached(s)
    ensures id in s.client.handlers <==>
      && id in s.sent && s.sent[id].worker in s.workers && s.sent[id].req in s.requests
      && id !in s.workers[s.sent[id].worker].polled
      && !s.requests[s.sent[id].req].stage.TimedOut?
    ensures id in s.client.handlers ==> s.client.handlers[id] == s.sent[id].req
  {
    hide WorkersInv, ListInv, IdInv;
    ReachedInv(s);
    if id in s.sent { HandlerOf(s, id); }
  }

  lemma HandlerOf(s: State, id: CorrId)
    requires Inv(s) && id in s.sent
    ensures s.sent[id].worker in s.workers && s.sent[id].req in s.requests
    ensures id in s.client.handlers <==>
      id !in s.workers[s.sent[id].worker].polled && !s.requests[s.sent[id].req].stage.TimedOut?
    ensures id in s.client.handlers ==> s.client.handlers[id] == s.sent[id].req
  {
    IdFacts(s, id);
    hide Inv;
  }

  /** No reply is dropped while its caller waits: polled, it resolves that
      caller and nobody else. Its handler is there unless the call timed out. */
  lemma NoReplyDropped(s: State, w: WorkerId)
    requires Reached(s) && w in s.workers && s.workers[w].outbox != [] && s.workers[w].outbox[0].Reply?
    ensures
      var Reply(id, o) := s.workers[w].outbox[0];
      && id in s.sent && s.sent[id].req in s.requests
      && var r := s.sent[id].req;
      var stage, after := s.requests[r].stage, Do(s, PollStep(w)).requests;
      && (stage == Sent(id) || stage == Cancelled(id) || stage.TimedOut?)
      && (id in s.client.handlers <==> !stage.TimedOut?)
      && after == if stage == Sent(id) then s.requests[r := s.requests[r].(stage := Answered(id, o))] else s.requests
  {
    hide Inv, Polled;
    ReachedInv(s);
    NextReply(s, w);
    IdFacts(s, s.workers[w].outbox[0].id);
  }

  /** A worker's jobs start, and are answered, in the order they were sent, and
      no worker takes more than `maxcycles` of them. */
  lemma ServedInOrder(s: State, w: WorkerId)
    requires Reached(s) && w in s.workers
    ensures s.workers[w].received <= s.workers[w].sentTo
    ensures s.workers[w].polled <= Ids(s.workers[w].received)
    ensures s.maxcycles.Some? ==> |s.workers[w].received| <= s.maxcycles.value
  {
    hide Inv, Faithful, DoneLast, Heartbeat;
    ReachedInv(s);
    var k := s.workers[w];
    WorkerFacts(s, w);
    if k.polled != [] {
      PolledWasReceived(k, |k.polled| - 1);
    }
    assert forall i :: 0 <= i < |k.polled| ==> Ids(k.sentTo)[i] == k.polled[i];
  }

  lemma PolledWasReceived(k: Worker, i: nat)
    requires Pipeline(k) && Faithful(k) && i < |k.polled|
    ensures i < |k.received|
  {
    var id := k.polled[i];
    assert Finished(k.received, k.completed, Job(id, k.computed[id].0));
    var j :| 0 <= j < k.completed && k.received[j] == Job(id, k.computed[id].0);
    assert Ids(k.sentTo)[i] == id;
    assert k.sentTo[j] == k.received[j] && Ids(k.sentTo)[j] == id;
  }

  // ---- Availability ----------------------------------------------------

  /** The books of every worker: a READY accepted is a hand-out, a removal on
      DONE, or the worker being listed now. The list has no duplicates, and a
      listed worker is queued or in the hand of the request that took it. */
  lemma Accounting(s: State, w: WorkerId)
    requires Reached(s) && w in s.workers
    ensures
      var k := s.workers[w];
      && k.accepted == k.handouts + k.removals + multiset(s.client.listed)[w]
      && k.handouts == |k.sentTo| + k.bounced
    ensures multiset(s.client.listed)[w] <= 1
    ensures w in s.client.listed ==>
      w in s.client.queue || exists r :: r in s.requests && s.requests[r].stage == Holding(w)
  {
    ReachedInv(s);
    hide RequestsInv, WorkerInv, OnRecord;
    NoDupCount(s.client.listed, w);
    assert Books(s.workers[w], w in s.client.listed);
    if w in s.client.listed { assert Reachable(s, w); }
  }

  /** Jobs a worker has been sent and has not completed: never more than one
      beyond its receive timeouts. */
  lemma OutstandingBound(s: State, w: WorkerId)
    requires Reached(s) && w in s.workers
    ensures |s.workers[w].sentTo| - s.workers[w].completed <= s.workers[w].timeouts + 1
  {
    hide Inv, Pipeline, Faithful, DoneLast, Cycles;
    ReachedInv(s);
    WorkerFacts(s, w);
  }

  // ---- DONE is final ---------------------------------------------------

  lemma DoneFacts(s: State, w: WorkerId)
    requires Inv(s) && w in s.workers && s.workers[w].doneSeen
    ensures s.workers[w].phase.Exited? && s.workers[w].outbox == [] && w !in s.client.listed
  {
    hide Inv, Pipeline, Faithful, Cycles, Heartbeat;
    WorkerFacts(s, w);
  }

  lemma DoneStep(s: State, step: Step, w: WorkerId)
    requires w in s.workers && s.workers[w].doneSeen
    requires s.workers[w].phase.Exited? && s.workers[w].outbox == [] && w !in s.client.listed
    ensures
      var s' := Do(s, step);
      && w in s'.workers && s'.workers[w].doneSeen
      && s'.workers[w].handouts == s.workers[w].handouts && s'.workers[w].sentTo == s.workers[w].sentTo
  {
    match step
    case WorkerDoes(x, a) => if x == w { DoneWorkerStep(s.maxcycles, s.workers[w], a); hide DoWorker; }
    case PollStep(x) =>
      hide Deliver;
      if x in s.workers && s.workers[x].outbox != [] { match s.workers[x].outbox[0] case _ => }
    case _ => hide DoWorker, Polled;
  }

  lemma DoneWorkerStep(maxcycles: Option<nat>, k: Worker, a: WorkerStep)
    requires k.doneSeen && k.phase.Exited?
    ensures
      var k' := DoWorker(maxcycles, k, a);
      k'.doneSeen && k'.handouts == k.handouts && k'.sentTo == k.sentTo
  {}

  /** Once the client has processed DONE from a worker, in no continuation is
      that worker listed, handed out or sent anything. */
  lemma {:induction false} DoneIsFinal(s: State, after: seq<Step>, w: WorkerId)
    requires Reached(s) && w in s.workers && s.workers[w].doneSeen
    ensures
      var s' := Run(s, after);
      && w in s'.workers && s'.workers[w].doneSeen && w !in s'.client.listed
      && s'.workers[w].handouts == s.workers[w].handouts && s'.workers[w].sentTo == s.workers[w].sentTo
  {
    hide Do, Inv;
    if after != [] {
      var n := |after| - 1;
      DoneIsFinal(s, after[..n], w);
      ReachedRun(s, after[..n]);
      ReachedInv(Run(s, after[..n]));
      DoneFacts(Run(s, after[..n]), w);
      DoneStep(Run(s, after[..n]), after[n], w);
    }
    ReachedRun(s, after);
    ReachedInv(Run(s, after));
    DoneFacts(Run(s, after), w);
  }
}
