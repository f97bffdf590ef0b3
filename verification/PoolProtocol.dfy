/** The worker-pool protocol of pyqgiswps/poolserver as a step system: the
    dispatching client (client.py), the worker loop (worker.py) and the FIFO
    channels between them. A step that is not enabled leaves the state alone,
    so every sequence of steps is a run. */
module PoolProtocol {
  import opened Wrappers

  type WorkerId = nat
  type CorrId = nat
  type ReqId = nat

  /** A pickled (function, args, kwargs) and what running it gives:
      (True, result) or (False, exception). */
  type Payload = string
  datatype Outcome = Outcome(success: bool, value: string)

  datatype Job = Job(id: CorrId, payload: Payload)
  datatype ToClient = Ready | Done | Reply(id: CorrId, outcome: Outcome)

  // ---- The client ------------------------------------------------------

  /** `_worker_q`, `_worker_s` and `_handlers`; a handler is the future some
      request waits on. */
  datatype Client = Client(queue: seq<WorkerId>, listed: seq<WorkerId>, handlers: map<CorrId, ReqId>)

  /** `list.remove`: the first occurrence. */
  function Remove(s: seq<WorkerId>, w: WorkerId): seq<WorkerId> {
    if s == [] then []
    else if s[0] == w then s[1..]
    else [s[0]] + Remove(s[1..], w)
  }

  function PutWorker(c: Client, w: WorkerId): Client {
    if w in c.listed then c else c.(queue := c.queue + [w], listed := c.listed + [w])
  }

  function RemoveWorker(c: Client, w: WorkerId): Client {
    if w in c.listed then c.(listed := Remove(c.listed, w)) else c
  }

  // ---- Requests --------------------------------------------------------

  /** Where a call of `_apply_async` stands. `Holding` has taken an entry from
      the queue and not yet looked it up in the list. `Cancelled` has timed out
      and not yet run its `finally`. */
  datatype Stage =
    | Created | Waiting | Holding(worker: WorkerId)
    | Sent(id: CorrId) | Cancelled(id: CorrId)
    | Answered(id: CorrId, outcome: Outcome)
    | TimedOut | Rejected | GatewayError

  datatype Request = Request(payload: Payload, stage: Stage)

  // ---- Workers ---------------------------------------------------------

  datatype Phase = AtLoop | Receiving | Running(job: Job) | Checking | Exited

  /** All but the first four fields are history: jobs sent to and received by
      the worker, what each run gave, replies the client polled, ids lost with
      the worker; READYs sent and receive timeouts; and the client's counts of
      accepted READYs, hand-outs, removals on DONE and failed sends. */
  datatype Worker = Worker(
    phase: Phase, completed: nat, inbox: seq<Job>, outbox: seq<ToClient>,
    sentTo: seq<Job>, received: seq<Job>, computed: map<CorrId, (Payload, Outcome)>,
    polled: seq<CorrId>, lost: seq<CorrId>, readies: nat, timeouts: nat,
    accepted: nat, handouts: nat, removals: nat, bounced: nat, doneSeen: bool)

  const NEW_WORKER := Worker(AtLoop, 0, [], [], [], [], map[], [], [], 0, 0, 0, 0, 0, 0, false)

  datatype Dispatch = Dispatch(worker: WorkerId, req: ReqId, payload: Payload)

  datatype State = State(
    maxqueue: nat, maxcycles: Option<nat>,
    client: Client, requests: map<ReqId, Request>, workers: map<WorkerId, Worker>,
    sent: map<CorrId, Dispatch>)

  function Start(maxqueue: nat, maxcycles: Option<nat>): State {
    State(maxqueue, maxcycles, Client([], [], map[]), map[], map[], map[])
  }

  function Ids(jobs: seq<Job>): seq<CorrId> {
    seq(|jobs|, i requires 0 <= i < |jobs| => jobs[i].id)
  }

  function Replies(outbox: seq<ToClient>): seq<CorrId> {
    if outbox == [] then []
    else (if outbox[0].Reply? then [outbox[0].id] else []) + Replies(outbox[1..])
  }

  function RunningIds(p: Phase): seq<CorrId> {
    if p.Running? then [p.job.id] else []
  }

  // ---- Worker steps ----------------------------------------------------

  predicate MayLoop(maxcycles: Option<nat>, completed: nat) {
    maxcycles.None? || completed < maxcycles.value
  }

  /** A process that is gone reads nothing more. */
  function Exit(k: Worker): Worker {
    k.(phase := Exited, inbox := [], lost := RunningIds(k.phase) + Ids(k.inbox) + k.lost)
  }

  /** The loop test: a READY, or the end after `maxcycles` jobs, without DONE. */
  function LoopTop(maxcycles: Option<nat>, k: Worker): Worker {
    if !k.phase.AtLoop? then k
    else if MayLoop(maxcycles, k.completed) then
      k.(phase := Receiving, outbox := k.outbox + [Ready], readies := k.readies + 1)
    else Exit(k)
  }

  function ReceiveTimeout(k: Worker): Worker {
    if k.phase.Receiving? then k.(phase := Checking, timeouts := k.timeouts + 1) else k
  }

  function Receive(k: Worker): Worker {
    if k.phase.Receiving? && k.inbox != [] then
      k.(phase := Running(k.inbox[0]), inbox := k.inbox[1..], received := k.received + [k.inbox[0]])
    else k
  }

  function Finish(k: Worker, o: Outcome): Worker {
    if k.phase.Running? then
      var job := k.phase.job;
      k.(phase := Checking, completed := k.completed + 1, outbox := k.outbox + [Reply(job.id, o)],
         computed := k.computed[job.id := (job.payload, o)])
    else k
  }

  /** The broadcast check: a RESTART sends DONE and leaves. */
  function Check(k: Worker, restart: bool): Worker {
    if !k.phase.Checking? then k
    else if restart then Exit(k.(outbox := k.outbox + [Done]))
    else k.(phase := AtLoop)
  }

  /** Messages of a gone worker that never left its process. */
  function Drop(k: Worker, keep: nat): Worker {
    if k.phase.Exited? && keep <= |k.outbox| then
      k.(outbox := k.outbox[..keep], lost := Replies(k.outbox[keep..]) + k.lost)
    else k
  }

  /** A message that reaches the worker's socket, or nobody. */
  function Deliver(k: Worker, job: Job): Worker {
    if k.phase.Exited? then k.(sentTo := k.sentTo + [job], lost := k.lost + [job.id])
    else k.(sentTo := k.sentTo + [job], inbox := k.inbox + [job])
  }

  /** The head of the channel is read by the client. */
  function Polled(k: Worker, accepted: nat, removals: nat): Worker
    requires k.outbox != []
  {
    var rest := k.(outbox := k.outbox[1..]);
    match k.outbox[0]
    case Ready => rest.(accepted := accepted)
    case Done => rest.(removals := removals, doneSeen := true)
    case Reply(id, o) => rest.(polled := k.polled + [id])
  }

  // ---- Client steps ----------------------------------------------------

  function SetStage(s: State, r: ReqId, stage: Stage): State
    requires r in s.requests
  {
    s.(requests := s.requests[r := s.requests[r].(stage := stage)])
  }

  function SetWorker(s: State, w: WorkerId, k: Worker): State {
    s.(workers := s.workers[w := k])
  }

  /** The client's own state: its lists and the calls waiting on futures. */
  datatype View = View(client: Client, requests: map<ReqId, Request>)

  /** What `_poll` does with one message. A reply meets its future, if any; a
      cancelled future refuses the result and the reply is dropped. */
  function Handle(v: View, w: WorkerId, m: ToClient): View {
    match m
    case Ready => v.(client := PutWorker(v.client, w))
    case Done => v.(client := RemoveWorker(v.client, w))
    case Reply(id, o) =>
      if id !in v.client.handlers then v else
      var r := v.client.handlers[id];
      var v' := v.(client := v.client.(handlers := v.client.handlers - {id}));
      if r in v.requests && v.requests[r].stage == Sent(id) then
        v'.(requests := v.requests[r := v.requests[r].(stage := Answered(id, o))])
      else v'
  }

  function ViewOf(s: State): View {
    View(s.client, s.requests)
  }

  /** The next message of a worker, received and handled. */
  function Poll(s: State, w: WorkerId): State {
    if w !in s.workers || s.workers[w].outbox == [] then s else
    var k := s.workers[w];
    var listed := w in s.client.listed;
    var v := Handle(ViewOf(s), w, k.outbox[0]);
    SetWorker(s, w, Polled(k, k.accepted + if k.outbox[0].Ready? && !listed then 1 else 0,
                           k.removals + if k.outbox[0].Done? && listed then 1 else 0))
      .(client := v.client, requests := v.requests)
  }

  /** The queue check, at the first run of the coroutine. */
  function Begin(s: State, r: ReqId): State {
    if r in s.requests && s.requests[r].stage.Created? then
      SetStage(s, r, if |s.client.handlers| > s.maxqueue then Rejected else Waiting)
    else s
  }

  function Pop(s: State, r: ReqId): State {
    if r in s.requests && s.requests[r].stage.Waiting? && s.client.queue != [] then
      SetStage(s, r, Holding(s.client.queue[0])).(client := s.client.(queue := s.client.queue[1..]))
    else s
  }

  /** A held entry: stale, or handed out and sent under a fresh id. A failed
      send uses the worker up. */
  function Claim(s: State, r: ReqId, id: CorrId, delivered: bool): State {
    if r !in s.requests || !s.requests[r].stage.Holding? then s else
    var w := s.requests[r].stage.worker;
    if w !in s.client.listed then SetStage(s, r, Waiting)
    else if w !in s.workers || id in s.sent then s
    else
      var k := s.workers[w].(handouts := s.workers[w].handouts + 1);
      var s' := s.(client := RemoveWorker(s.client, w));
      if !delivered then SetWorker(SetStage(s', r, GatewayError), w, k.(bounced := k.bounced + 1))
      else
        var payload := s.requests[r].payload;
        SetWorker(SetStage(s', r, Sent(id)), w, Deliver(k, Job(id, payload)))
          .(sent := s.sent[id := Dispatch(w, r, payload)],
            client := s'.client.(handlers := s'.client.handlers[id := r]))
  }

  function WaitTimeout(s: State, r: ReqId): State {
    if r in s.requests && s.requests[r].stage.Waiting? then SetStage(s, r, TimedOut) else s
  }

  function ReplyTimeout(s: State, r: ReqId): State {
    if r in s.requests && s.requests[r].stage.Sent? then SetStage(s, r, Cancelled(s.requests[r].stage.id)) else s
  }

  /** The `finally` of a timed-out call. */
  function Cleanup(s: State, r: ReqId): State {
    if r in s.requests && s.requests[r].stage.Cancelled? then
      SetStage(s, r, TimedOut).(client := s.client.(handlers := s.client.handlers - {s.requests[r].stage.id}))
    else s
  }

  // ---- Runs ------------------------------------------------------------

  datatype WorkerStep =
    | TopStep | RecvTimeoutStep | RecvStep | FinishStep(outcome: Outcome)
    | CheckStep(restart: bool) | KillStep | DropStep(keep: nat)

  function DoWorker(maxcycles: Option<nat>, k: Worker, a: WorkerStep): Worker {
    match a
    case TopStep => LoopTop(maxcycles, k)
    case RecvTimeoutStep => ReceiveTimeout(k)
    case RecvStep => Receive(k)
    case FinishStep(o) => Finish(k, o)
    case CheckStep(restart) => Check(k, restart)
    case KillStep => if k.phase.Exited? then k else Exit(k)
    case DropStep(keep) => Drop(k, keep)
  }

  datatype Step =
    | StartWorker(w: WorkerId) | WorkerDoes(w: WorkerId, a: WorkerStep) | PollStep(w: WorkerId)
    | Submit(r: ReqId, payload: Payload) | BeginStep(r: ReqId) | PopStep(r: ReqId)
    | ClaimStep(r: ReqId, id: CorrId, delivered: bool)
    | WaitTimeoutStep(r: ReqId) | ReplyTimeoutStep(r: ReqId) | CleanupStep(r: ReqId)

  function Do(s: State, step: Step): State {
    match step
    case StartWorker(w) => if w in s.workers then s else SetWorker(s, w, NEW_WORKER)
    case WorkerDoes(w, a) => if w in s.workers then SetWorker(s, w, DoWorker(s.maxcycles, s.workers[w], a)) else s
    case PollStep(w) => Poll(s, w)
    case Submit(r, payload) =>
      if r in s.requests then s else s.(requests := s.requests[r := Request(payload, Created)])
    case BeginStep(r) => Begin(s, r)
    case PopStep(r) => Pop(s, r)
    case ClaimStep(r, id, delivered) => Claim(s, r, id, delivered)
    case WaitTimeoutStep(r) => WaitTimeout(s, r)
    case ReplyTimeoutStep(r) => ReplyTimeout(s, r)
    case CleanupStep(r) => Cleanup(s, r)
  }

  function Run(s: State, steps: seq<Step>): State {
    if steps == [] then s else Do(Run(s, steps[..|steps| - 1]), steps[|steps| - 1])
  }
}
