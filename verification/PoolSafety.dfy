/** The invariant of the whole pool, kept by every step. */
module PoolSafety {
  import opened Wrappers
  import opened PoolProtocol
  import opened PoolInvariants

  // ---- The invariant ---------------------------------------------------

  /** What a worker was sent is on record as dispatched to it. */
  ghost predicate OnRecord(s: State, w: WorkerId)
    requires w in s.workers
  {
    var k := s.workers[w];
    forall i :: 0 <= i < |k.sentTo| ==>
      && k.sentTo[i].id in s.sent && s.sent[k.sentTo[i].id].worker == w
      && s.sent[k.sentTo[i].id].payload == k.sentTo[i].payload
  }

  /** One dispatched id against its request, its worker and its handler. */
  ghost predicate IdInv(s: State, id: CorrId)
    requires id in s.sent
  {
    var d := s.sent[id];
    && d.worker in s.workers && d.req in s.requests
    && s.requests[d.req].payload == d.payload
    && Job(id, d.payload) in s.workers[d.worker].sentTo
    && (id in s.client.handlers ==> s.client.handlers[id] == d.req)
    && StageInv(id, d.payload, s.requests[d.req].stage, s.workers[d.worker], id in s.client.handlers)
  }

  ghost predicate StageInv(id: CorrId, payload: Payload, stage: Stage, k: Worker, handled: bool) {
    match stage
    case Sent(x) => x == id && id !in k.polled && handled
    case Cancelled(x) => x == id && (handled <==> id !in k.polled)
    case Answered(x, o) => x == id && !handled && id in k.polled && id in k.computed && k.computed[id] == (payload, o)
    case TimedOut => !handled
    case _ => false
  }

  function StageId(stage: Stage): Option<CorrId> {
    match stage
    case Sent(x) => Some(x)
    case Cancelled(x) => Some(x)
    case Answered(x, _) => Some(x)
    case _ => None
  }

  ghost predicate ReqInv(s: State, r: ReqId)
    requires r in s.requests
  {
    var x := StageId(s.requests[r].stage);
    x.Some? ==> x.value in s.sent && s.sent[x.value].req == r
  }

  /** A listed worker is queued, or held by the request that took it. */
  ghost predicate Reachable(s: State, w: WorkerId) {
    w in s.client.queue || exists r :: r in s.requests && s.requests[r].stage == Holding(w)
  }

  ghost predicate RequestsInv(s: State) {
    && (forall id :: id in s.sent ==> IdInv(s, id))
    && (forall r :: r in s.requests ==> ReqInv(s, r))
    && (forall id :: id in s.client.handlers ==> id in s.sent)
    && (forall a, b :: a in s.sent && b in s.sent && s.sent[a].req == s.sent[b].req ==> a == b)
  }

  ghost predicate WorkersInv(s: State) {
    forall w :: w in s.workers ==>
      WorkerInv(s.maxcycles, s.workers[w]) && OnRecord(s, w) && Books(s.workers[w], w in s.client.listed)
  }

  ghost predicate ListInv(s: State) {
    && NoDup(s.client.listed)
    && forall w :: w in s.client.listed ==> w in s.workers && Reachable(s, w)
  }

  ghost predicate Inv(s: State) {
    RequestsInv(s) && WorkersInv(s) && ListInv(s)
  }

  // ---- Lists -----------------------------------------------------------

  lemma {:induction false} RemoveFacts(l: seq<WorkerId>, w: WorkerId)
    requires NoDup(l)
    ensures NoDup(Remove(l, w))
    ensures forall x :: x in Remove(l, w) <==> x in l && x != w
  {
    if l != [] {
      var t := l[1..];
      assert NoDup(t) by { assert forall i :: 0 <= i < |t| ==> t[i] == l[i + 1]; }
      RemoveFacts(t, w);
      assert l == [l[0]] + t;
      assert forall i :: 0 <= i < |t| ==> t[i] == l[i + 1] && t[i] != l[0];
      forall j | 0 <= j < |Remove(t, w)| ensures Remove(t, w)[j] != l[0] {
        assert Remove(t, w)[j] in Remove(t, w);
      }
    }
  }

  // ---- Frames ----------------------------------------------------------

  /** The worker's side may move on as long as what it was sent, what was
      polled and what its runs gave stay. */
  ghost predicate SameForRequests(k: Worker, k': Worker) {
    && k.sentTo <= k'.sentTo && k'.polled == k.polled
    && forall id :: id in k.computed ==> id in k'.computed && k'.computed[id] == k.computed[id]
  }

  /** An id keeps its invariant when its request and handler stay and its
      worker only moves on. */
  lemma IdFrame(s: State, s': State, id: CorrId)
    requires id in s.sent && IdInv(s, id) && id in s'.sent && s'.sent[id] == s.sent[id]
    requires s.sent[id].req in s'.requests && s'.requests[s.sent[id].req] == s.requests[s.sent[id].req]
    requires s.sent[id].worker in s'.workers
    requires SameForRequests(s.workers[s.sent[id].worker], s'.workers[s.sent[id].worker])
    requires id in s'.client.handlers <==> id in s.client.handlers
    requires id in s.client.handlers ==> s'.client.handlers[id] == s.client.handlers[id]
    ensures IdInv(s', id)
  {}

  lemma RequestsFrame(s: State, s': State, w: WorkerId, k': Worker)
    requires RequestsInv(s) && w in s.workers && SameForRequests(s.workers[w], k')
    requires s'.requests == s.requests && s'.sent == s.sent && s'.client.handlers == s.client.handlers
    requires s'.workers == s.workers[w := k']
    ensures RequestsInv(s')
  {
    forall id | id in s'.sent ensures IdInv(s', id) {
      assert IdInv(s, id);
      IdFrame(s, s', id);
    }
    forall r | r in s'.requests ensures ReqInv(s', r) {
      assert ReqInv(s, r);
    }
    hide IdInv, SameForRequests;
  }

  lemma WorkersFrame(s: State, s': State, w: WorkerId, k': Worker)
    requires WorkersInv(s) && w in s.workers
    requires s'.maxcycles == s.maxcycles && s'.sent == s.sent && s'.workers == s.workers[w := k']
    requires WorkerInv(s.maxcycles, k') && k'.sentTo == s.workers[w].sentTo && Books(k', w in s'.client.listed)
    requires forall x :: x != w ==> (x in s'.client.listed <==> x in s.client.listed)
    ensures WorkersInv(s')
  {
    hide WorkerInv;
    forall x | x in s'.workers ensures OnRecord(s', x) {
      assert OnRecord(s, x);
    }
  }

  lemma ListFrame(s: State, s': State)
    requires ListInv(s) && s'.client.listed == s.client.listed && s'.client.queue == s.client.queue
    requires s'.workers.Keys >= s.workers.Keys
    requires forall r :: r in s.requests && s.requests[r].stage.Holding? ==>
      r in s'.requests && s'.requests[r].stage == s.requests[r].stage
    ensures ListInv(s')
  {
    forall x | x in s'.client.listed ensures Reachable(s', x) {
      assert Reachable(s, x);
      if x !in s.client.queue {
        var r :| r in s.requests && s.requests[r].stage == Holding(x);
        assert s'.requests[r].stage == Holding(x);
      }
    }
  }

  // ---- Steps of the workers --------------------------------------------

  /** The fields the client's invariant reads survive a worker's step. */
  lemma WorkerStepFrame(maxcycles: Option<nat>, k: Worker, a: WorkerStep)
    requires WorkerInv(maxcycles, k)
    ensures
      var k' := DoWorker(maxcycles, k, a);
      && k'.sentTo == k.sentTo && SameForRequests(k, k')
      && forall listed :: Books(k, listed) ==> Books(k', listed)
  {
    if k.phase.Running? {
      RunningIsNew(k);
    }
    hide WorkerInv;
  }

  lemma WorkerDoesKeeps(s: State, w: WorkerId, a: WorkerStep)
    requires Inv(s) && w in s.workers
    ensures Inv(Do(s, WorkerDoes(w, a)))
  {
    hide WorkerInv;
    var k, s' := s.workers[w], Do(s, WorkerDoes(w, a));
    WorkerStepKeeps(s.maxcycles, k, a);
    WorkerStepFrame(s.maxcycles, k, a);
    var k' := DoWorker(s.maxcycles, k, a);
    RequestsFrame(s, s', w, k');
    WorkersFrame(s, s', w, k');
    ListFrame(s, s');
  }

  lemma NewWorker(maxcycles: Option<nat>)
    ensures WorkerInv(maxcycles, NEW_WORKER) && Books(NEW_WORKER, false)
  {}

  lemma StartWorkerKeeps(s: State, w: WorkerId)
    requires Inv(s) && w !in s.workers
    ensures Inv(Do(s, StartWorker(w)))
  {
    hide WorkerInv, Reachable;
    var s' := Do(s, StartWorker(w));
    NewWorker(s.maxcycles);
    forall x | x in s'.workers ensures OnRecord(s', x) {
      if x != w { assert OnRecord(s, x); }
    }
    forall id | id in s'.sent ensures IdInv(s', id) {
      assert IdInv(s, id);
    }
    forall r | r in s'.requests ensures ReqInv(s', r) {
      assert ReqInv(s, r);
    }
    ListFrame(s, s');
  }

  // ---- Polling ---------------------------------------------------------

  /** The id of the next reply is the oldest one sent and not polled. */
  lemma NextId(k: Worker)
    requires Pipeline(k) && k.outbox != [] && k.outbox[0].Reply?
    ensures |k.polled| < |k.sentTo| && k.sentTo[|k.polled|].id == k.outbox[0].id
    ensures k.outbox[0].id !in k.polled
  {
    var all, p := Ids(k.sentTo), |k.polled|;
    assert Held(k)[0] == k.outbox[0].id;
    hide Held, Replies;
    assert all[p] == k.outbox[0].id;
    assert forall i :: 0 <= i < p ==> all[i] == k.polled[i] && all[i] != all[p];
  }

  lemma NextOutcome(k: Worker)
    requires Pipeline(k) && Faithful(k) && k.outbox != [] && k.outbox[0].Reply?
    ensures
      var Reply(id, o) := k.outbox[0];
      && id in k.computed && k.computed[id].1 == o
      && exists i :: 0 <= i < |k.sentTo| && k.sentTo[i] == Job(id, k.computed[id].0)
  {
    var id := k.outbox[0].id;
    assert Carries(k.computed, k.outbox[0]);
    assert Finished(k.received, k.completed, Job(id, k.computed[id].0));
    var i :| 0 <= i < k.completed && k.received[i] == Job(id, k.computed[id].0);
    assert k.sentTo[i] == k.received[i];
    hide Held, NoDup, Ids, Carries, Faithful;
  }

  /** An id whose reply is next was dispatched to that worker, is not yet
      polled, and carries the result of its own payload. */
  lemma NextReply(s: State, w: WorkerId)
    requires Inv(s) && w in s.workers && s.workers[w].outbox != [] && s.workers[w].outbox[0].Reply?
    ensures
      var k := s.workers[w];
      var Reply(id, o) := k.outbox[0];
      && id in s.sent && s.sent[id].worker == w && id !in k.polled
      && id in k.computed && k.computed[id] == (s.sent[id].payload, o)
  {
    hide RequestsInv, ListInv, Pipeline, Faithful, DoneLast, Cycles, Heartbeat, Books;
    var k := s.workers[w];
    assert WorkerInv(s.maxcycles, k) && OnRecord(s, w);
    NextId(k);
    NextOutcome(k);
    hide WorkersInv;
  }

  lemma PutWorkerKeeps(s: State, s': State, w: WorkerId)
    requires ListInv(s) && w in s.workers && s'.client == PutWorker(s.client, w)
    requires s'.workers.Keys == s.workers.Keys && s'.requests == s.requests
    ensures ListInv(s')
    ensures forall x :: x in s'.client.listed <==> x in s.client.listed || x == w
  {
    forall x | x in s'.client.listed ensures x in s'.workers && Reachable(s', x) {
      if x in s.client.listed { assert Reachable(s, x); }
    }
  }

  lemma PollReadyKeeps(s: State, w: WorkerId)
    requires Inv(s) && w in s.workers && s.workers[w].outbox != [] && s.workers[w].outbox[0].Ready?
    ensures Inv(Poll(s, w))
  {
    hide WorkerInv;
    var k, s' := s.workers[w], Poll(s, w);
    var news := if w in s.client.listed then 0 else 1;
    var k' := Polled(k, k.accepted + news, k.removals);
    assert s'.workers == s.workers[w := k'];
    PolledKeeps(s.maxcycles, k, k.accepted + news, k.removals);
    PutWorkerKeeps(s, s', w);
    ReadyBooks(s, w);
    RequestsFrame(s, s', w, k');
    WorkersFrame(s, s', w, k');
  }

  lemma ReadyBooks(s: State, w: WorkerId)
    requires WorkersInv(s) && w in s.workers && s.workers[w].outbox != [] && s.workers[w].outbox[0].Ready?
    ensures
      var k := s.workers[w];
      Books(Polled(k, k.accepted + if w in s.client.listed then 0 else 1, k.removals), true)
  {
    assert DoneLast(s.workers[w]);
    assert Books(s.workers[w], w in s.client.listed);
  }

  lemma RemoveWorkerKeeps(s: State, s': State, w: WorkerId)
    requires ListInv(s) && s'.client == RemoveWorker(s.client, w)
    requires s'.workers.Keys == s.workers.Keys && s'.requests == s.requests
    ensures ListInv(s')
    ensures forall x :: x in s'.client.listed <==> x in s.client.listed && x != w
  {
    RemoveFacts(s.client.listed, w);
    forall x | x in s'.client.listed ensures x in s'.workers && Reachable(s', x) {
      assert Reachable(s, x);
    }
  }

  lemma PollDoneKeeps(s: State, w: WorkerId)
    requires Inv(s) && w in s.workers && s.workers[w].outbox != [] && s.workers[w].outbox[0].Done?
    ensures Inv(Poll(s, w))
  {
    hide WorkerInv, NoDup, Reachable;
    var k, s' := s.workers[w], Poll(s, w);
    var gone := if w in s.client.listed then 1 else 0;
    var k' := Polled(k, k.accepted, k.removals + gone);
    assert s'.workers == s.workers[w := k'];
    PolledKeeps(s.maxcycles, k, k.accepted, k.removals + gone);
    RemoveWorkerKeeps(s, s', w);
    assert Books(k, w in s.client.listed);
    RequestsFrame(s, s', w, k');
    WorkersFrame(s, s', w, k');
  }

  lemma SettleIds(s: State, w: WorkerId, x: CorrId)
    requires Inv(s) && w in s.workers && s.workers[w].outbox != [] && s.workers[w].outbox[0].Reply?
    requires x in s.sent
    ensures x in Poll(s, w).sent && IdInv(Poll(s, w), x)
  {
    hide WorkersInv, ListInv, ReqInv, WorkerInv;
    var Reply(id, o) := s.workers[w].outbox[0];
    NextReply(s, w);
    assert IdInv(s, id);
    assert IdInv(s, x);
  }

  lemma SettleRequests(s: State, w: WorkerId, r: ReqId)
    requires Inv(s) && w in s.workers && s.workers[w].outbox != [] && s.workers[w].outbox[0].Reply?
    requires r in s.requests
    ensures r in Poll(s, w).requests && ReqInv(Poll(s, w), r)
  {
    hide WorkersInv, ListInv, WorkerInv;
    NextReply(s, w);
    assert IdInv(s, s.workers[w].outbox[0].id);
    assert ReqInv(s, r);
  }

  lemma SettleRequestsInv(s: State, w: WorkerId)
    requires Inv(s) && w in s.workers && s.workers[w].outbox != [] && s.workers[w].outbox[0].Reply?
    ensures RequestsInv(Poll(s, w))
  {
    hide WorkersInv, ListInv, IdInv, ReqInv;
    var s' := Poll(s, w);
    assert s'.sent == s.sent && s'.requests.Keys == s.requests.Keys;
    assert s'.client.handlers.Keys <= s.client.handlers.Keys;
    forall x | x in s'.sent ensures IdInv(s', x) {
      SettleIds(s, w, x);
    }
    forall r | r in s'.requests ensures ReqInv(s', r) {
      SettleRequests(s, w, r);
    }
  }

  lemma PollReplyKeeps(s: State, w: WorkerId)
    requires Inv(s) && w in s.workers && s.workers[w].outbox != [] && s.workers[w].outbox[0].Reply?
    ensures Inv(Poll(s, w))
  {
    hide WorkerInv, RequestsInv, OnRecord, Reachable, NoDup;
    var k, s' := s.workers[w], Poll(s, w);
    var k' := Polled(k, k.accepted, k.removals);
    assert s'.workers == s.workers[w := k'] && s'.sent == s.sent && s'.maxcycles == s.maxcycles;
    assert s'.client.listed == s.client.listed && s'.client.queue == s.client.queue;
    assert WorkerInv(s.maxcycles, k) && Books(k, w in s.client.listed);
    PolledKeeps(s.maxcycles, k, k.accepted, k.removals);
    WorkersFrame(s, s', w, k');
    ListFrame(s, s');
    SettleRequestsInv(s, w);
  }

  // ---- Requests --------------------------------------------------------

  predicate Unsent(s: State, r: ReqId) {
    r in s.requests ==> s.requests[r].stage.Created? || s.requests[r].stage.Waiting? || s.requests[r].stage.Holding?
  }

  /** A request that was never sent may take any stage without an id. */
  lemma UnsentMove(s: State, s': State, r: ReqId, q: Request)
    requires RequestsInv(s) && Unsent(s, r) && StageId(q.stage).None?
    requires r in s.requests ==> q.payload == s.requests[r].payload
    requires s'.requests == s.requests[r := q] && s'.sent == s.sent && s'.workers == s.workers
    requires s'.client.handlers == s.client.handlers
    ensures RequestsInv(s')
  {
    hide WorkerInv;
    forall id | id in s'.sent ensures IdInv(s', id) {
      assert IdInv(s, id);
    }
    forall x | x in s'.requests ensures ReqInv(s', x) {
      if x != r { assert ReqInv(s, x); }
    }
  }

  /** Only the entry a request held may stop being reachable through it. */
  lemma ListMove(s: State, s': State, r: ReqId, q: Request)
    requires ListInv(s) && NoDup(s'.client.listed) && s'.workers.Keys == s.workers.Keys
    requires s'.requests == s.requests[r := q]
    requires forall x :: x in s'.client.listed ==> x in s.client.listed
    requires forall x :: x in s'.client.listed && x in s.client.queue ==> x in s'.client.queue || q.stage == Holding(x)
    requires r in s.requests && s.requests[r].stage.Holding? ==> s.requests[r].stage.worker !in s'.client.listed
    ensures ListInv(s')
  {
    forall x | x in s'.client.listed ensures Reachable(s', x) {
      assert Reachable(s, x);
      if x in s.client.queue {
        if q.stage == Holding(x) { assert s'.requests[r].stage == Holding(x); }
      } else {
        var y :| y in s.requests && s.requests[y].stage == Holding(x);
        assert s'.requests[y].stage == Holding(x);
      }
    }
  }

  lemma SameWorkers(s: State, s': State)
    requires WorkersInv(s) && s'.workers == s.workers && s'.sent == s.sent && s'.maxcycles == s.maxcycles
    requires s'.client.listed == s.client.listed
    ensures WorkersInv(s')
  {
    hide WorkerInv;
    forall w | w in s'.workers ensures OnRecord(s', w) { assert OnRecord(s, w); }
  }

  lemma SubmitKeeps(s: State, r: ReqId, payload: Payload)
    requires Inv(s)
    ensures Inv(Do(s, Submit(r, payload)))
  {
    hide RequestsInv, WorkersInv;
    if r !in s.requests {
      var s' := Do(s, Submit(r, payload));
      UnsentMove(s, s', r, Request(payload, Created));
      ListMove(s, s', r, Request(payload, Created));
      SameWorkers(s, s');
    }
  }

  lemma StageKeeps(s: State, step: Step)
    requires Inv(s) && (step.BeginStep? || step.PopStep? || step.WaitTimeoutStep?)
    ensures Inv(Do(s, step))
  {
    hide RequestsInv, WorkersInv;
    var s' := Do(s, step);
    if s' != s {
      UnsentMove(s, s', step.r, s'.requests[step.r]);
      SameWorkers(s, s');
      if step.PopStep? {
        assert s.client.queue == [s.client.queue[0]] + s'.client.queue;
      }
      ListMove(s, s', step.r, s'.requests[step.r]);
    }
  }

  /** A caller's timeout, and later its `finally`. */
  lemma TimeoutIds(s: State, s': State, r: ReqId, x: CorrId)
    requires Inv(s) && (s' == ReplyTimeout(s, r) || s' == Cleanup(s, r)) && s' != s && x in s.sent
    ensures x in s'.sent && IdInv(s', x)
  {
    hide WorkersInv, ListInv;
    assert ReqInv(s, r) && IdInv(s, StageId(s.requests[r].stage).value);
    assert IdInv(s, x);
  }

  lemma TimeoutKeeps(s: State, s': State, r: ReqId)
    requires Inv(s) && (s' == ReplyTimeout(s, r) || s' == Cleanup(s, r))
    ensures Inv(s')
  {
    hide WorkersInv, IdInv;
    if s' != s {
      forall x | x in s'.sent ensures IdInv(s', x) { TimeoutIds(s, s', r, x); }
      forall x | x in s'.requests ensures ReqInv(s', x) { assert ReqInv(s, x); }
      SameWorkers(s, s');
      ListMove(s, s', r, s'.requests[r]);
    }
  }

  // ---- Hand-out --------------------------------------------------------

  lemma StaleKeeps(s: State, r: ReqId)
    requires Inv(s) && r in s.requests && s.requests[r].stage.Holding? && s.requests[r].stage.worker !in s.client.listed
    ensures Inv(SetStage(s, r, Waiting))
  {
    hide RequestsInv, WorkersInv;
    var s' := SetStage(s, r, Waiting);
    UnsentMove(s, s', r, s'.requests[r]);
    SameWorkers(s, s');
    ListMove(s, s', r, s'.requests[r]);
  }

  lemma BouncedKeeps(s: State, r: ReqId, id: CorrId)
    requires Inv(s) && r in s.requests && s.requests[r].stage.Holding? && id !in s.sent
    requires s.requests[r].stage.worker in s.client.listed
    ensures Inv(Claim(s, r, id, false))
  {
    hide WorkerInv, IdInv, ReqInv, Reachable;
    var w := s.requests[r].stage.worker;
    var k, s' := s.workers[w], Claim(s, r, id, false);
    var k' := k.(handouts := k.handouts + 1, bounced := k.bounced + 1);
    RemoveFacts(s.client.listed, w);
    CountersOnly(s.maxcycles, k, k');
    assert Books(k, true);
    var s1 := s.(requests := s'.requests, client := s'.client);
    assert s'.workers == s.workers[w := k'];
    UnsentMove(s, s1, r, s'.requests[r]);
    RequestsFrame(s1, s', w, k');
    WorkersFrame(s, s', w, k');
    ListMove(s, s', r, s'.requests[r]);
  }

  lemma CountersOnly(maxcycles: Option<nat>, k: Worker, k': Worker)
    requires WorkerInv(maxcycles, k) && k' == k.(handouts := k'.handouts, bounced := k'.bounced)
    ensures WorkerInv(maxcycles, k')
  {
    assert Held(k') == Held(k);
  }

  /** A fresh id was never sent to any worker nor polled from it. */
  lemma FreshId(s: State, w: WorkerId, id: CorrId)
    requires Inv(s) && w in s.workers && id !in s.sent
    ensures id !in Ids(s.workers[w].sentTo) && id !in s.workers[w].polled
  {
    var k := s.workers[w];
    assert OnRecord(s, w) && WorkerInv(s.maxcycles, k);
    forall i | 0 <= i < |k.sentTo| ensures Ids(k.sentTo)[i] != id {}
    forall i | 0 <= i < |k.polled| ensures k.polled[i] != id {
      assert Ids(k.sentTo)[i] == k.polled[i];
    }
  }

  lemma SentWorkers(s: State, r: ReqId, id: CorrId)
    requires Inv(s) && r in s.requests && s.requests[r].stage.Holding? && id !in s.sent
    requires s.requests[r].stage.worker in s.client.listed
    ensures WorkersInv(Claim(s, r, id, true))
  {
    hide WorkerInv, RequestsInv;
    var w, s' := s.requests[r].stage.worker, Claim(s, r, id, true);
    var k, job := s.workers[w], Job(id, s.requests[r].payload);
    var k1 := k.(handouts := k.handouts + 1);
    var k' := Deliver(k1, job);
    FreshId(s, w, id);
    CountersOnly(s.maxcycles, k, k1);
    DeliverKeeps(s.maxcycles, k1, job);
    RemoveFacts(s.client.listed, w);
    assert Books(k, true);
    assert s'.workers == s.workers[w := k'] && s'.sent == s.sent[id := Dispatch(w, r, job.payload)];
    forall x | x in s'.workers ensures OnRecord(s', x) {
      assert OnRecord(s, x);
      assert id !in Ids(s.workers[x].sentTo) by { FreshId(s, x, id); }
      assert forall i :: 0 <= i < |s.workers[x].sentTo| ==> Ids(s.workers[x].sentTo)[i] != id;
    }
  }

  /** The worker a job goes to, before and after. */
  lemma SentFrame(s: State, r: ReqId, id: CorrId)
    requires Inv(s) && r in s.requests && s.requests[r].stage.Holding? && id !in s.sent
    requires s.requests[r].stage.worker in s.client.listed
    ensures
      var w, s' := s.requests[r].stage.worker, Claim(s, r, id, true);
      var k, job := s.workers[w], Job(id, s.requests[r].payload);
      && w in s'.workers && SameForRequests(k, s'.workers[w])
      && s'.workers == s.workers[w := s'.workers[w]]
      && s'.workers[w].sentTo == k.sentTo + [job] && id !in k.polled
      && s'.sent == s.sent[id := Dispatch(w, r, job.payload)]
      && s'.requests == s.requests[r := s.requests[r].(stage := Sent(id))]
      && s'.client.handlers == s.client.handlers[id := r]
  {
    FreshId(s, s.requests[r].stage.worker, id);
    hide WorkersInv, RequestsInv;
  }

  lemma SentNewId(s: State, r: ReqId, id: CorrId)
    requires Inv(s) && r in s.requests && s.requests[r].stage.Holding? && id !in s.sent
    requires s.requests[r].stage.worker in s.client.listed
    ensures IdInv(Claim(s, r, id, true), id)
  {
    SentFrame(s, r, id);
    var w, s' := s.requests[r].stage.worker, Claim(s, r, id, true);
    hide Inv, Claim;
    assert s'.workers[w].sentTo[|s.workers[w].sentTo|] == Job(id, s.requests[r].payload);
  }

  lemma NotHolding(s: State, x: CorrId)
    requires x in s.sent && IdInv(s, x)
    ensures !s.requests[s.sent[x].req].stage.Holding?
  {}

  lemma SentOldId(s: State, r: ReqId, id: CorrId, x: CorrId)
    requires Inv(s) && r in s.requests && s.requests[r].stage.Holding? && id !in s.sent
    requires s.requests[r].stage.worker in s.client.listed && x in s.sent
    ensures x in Claim(s, r, id, true).sent && IdInv(Claim(s, r, id, true), x)
    ensures s.sent[x].req != r
  {
    SentFrame(s, r, id);
    IdFacts(s, x);
    hide Inv, Claim, StageInv, SameForRequests;
    NotHolding(s, x);
    IdFrame(s, Claim(s, r, id, true), x);
  }

  lemma SentRequests(s: State, r: ReqId, id: CorrId)
    requires Inv(s) && r in s.requests && s.requests[r].stage.Holding? && id !in s.sent
    requires s.requests[r].stage.worker in s.client.listed
    ensures RequestsInv(Claim(s, r, id, true))
  {
    hide WorkersInv, IdInv;
    var s' := Claim(s, r, id, true);
    assert s'.sent.Keys == s.sent.Keys + {id} && s'.sent[id].req == r;
    assert forall x :: x in s.sent ==> s'.sent[x] == s.sent[x];
    assert s'.client.handlers.Keys == s.client.handlers.Keys + {id};
    forall x | x in s'.sent ensures IdInv(s', x) && (x != id ==> s'.sent[x].req != r) {
      if x == id { SentNewId(s, r, id); } else { SentOldId(s, r, id, x); }
    }
    forall x | x in s'.requests ensures ReqInv(s', x) {
      if x != r { assert ReqInv(s, x); }
    }
  }

  lemma ClaimKeeps(s: State, r: ReqId, id: CorrId, delivered: bool)
    requires Inv(s)
    ensures Inv(Claim(s, r, id, delivered))
  {
    hide WorkerInv, RequestsInv, WorkersInv, Reachable;
    var s' := Claim(s, r, id, delivered);
    if s' == s {
    } else if s.requests[r].stage.worker !in s.client.listed {
      StaleKeeps(s, r);
    } else if delivered {
      SentWorkers(s, r, id);
      SentRequests(s, r, id);
      RemoveFacts(s.client.listed, s.requests[r].stage.worker);
      ListMove(s, s', r, s'.requests[r]);
    } else {
      BouncedKeeps(s, r, id);
    }
  }

  // ---- Every run -------------------------------------------------------

  lemma StepKeeps(s: State, step: Step)
    requires Inv(s)
    ensures Inv(Do(s, step))
  {
    hide Inv;
    match step
    case StartWorker(w) => if w !in s.workers { StartWorkerKeeps(s, w); }
    case WorkerDoes(w, a) => if w in s.workers { WorkerDoesKeeps(s, w, a); }
    case PollStep(w) =>
      if w in s.workers && s.workers[w].outbox != [] {
        match s.workers[w].outbox[0]
        case Ready => PollReadyKeeps(s, w);
        case Done => PollDoneKeeps(s, w);
        case Reply(_, _) => PollReplyKeeps(s, w);
      }
    case Submit(r, payload) => SubmitKeeps(s, r, payload);
    case BeginStep(_) => StageKeeps(s, step);
    case PopStep(_) => StageKeeps(s, step);
    case ClaimStep(r, id, delivered) => ClaimKeeps(s, r, id, delivered);
    case WaitTimeoutStep(_) => StageKeeps(s, step);
    case ReplyTimeoutStep(r) => TimeoutKeeps(s, ReplyTimeout(s, r), r);
    case CleanupStep(r) => TimeoutKeeps(s, Cleanup(s, r), r);
  }

  lemma {:induction false} Always(maxqueue: nat, maxcycles: Option<nat>, steps: seq<Step>)
    ensures Inv(Run(Start(maxqueue, maxcycles), steps))
  {
    if steps != [] {
      Always(maxqueue, maxcycles, steps[..|steps| - 1]);
      StepKeeps(Run(Start(maxqueue, maxcycles), steps[..|steps| - 1]), steps[|steps| - 1]);
    }
  }

  // ---- Access to the invariant -----------------------------------------

  lemma IdFacts(s: State, id: CorrId)
    requires Inv(s) && id in s.sent
    ensures IdInv(s, id)
  {}

  lemma WorkerFacts(s: State, w: WorkerId)
    requires Inv(s) && w in s.workers
    ensures WorkerInv(s.maxcycles, s.workers[w]) && Books(s.workers[w], w in s.client.listed)
  {
    hide WorkerInv, RequestsInv;
  }
}
