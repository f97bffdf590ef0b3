/** One job's record under all interleavings of the server's updates
    (`ProcessingExecutor.execute`), the worker's (`_run_process`), deletions
    (dismissal or reaper), a kill and a late caller timeout. Every Redis command
    is a step of its own: an update writes the response document, reads the
    record (or logs it anew), and stores the edited copy. */
module JobLifecycle {
  import opened Wrappers
  import opened JobRecords

  /** The keys of one job in Redis; of the documents only existence matters. */
  datatype Keys = Keys(record: Option<Record>, request: bool, response: bool)

  /** How far an `update_status` call has got. */
  datatype Writer =
    | Quiet
    | Begun(r: Response, document: bool)
    | Written(r: Response)
    | Logging(r: Response, copy: Record)
    | Holding(r: Response, copy: Record)

  datatype ServerPhase = Fresh | Logged | Accepting | Waiting | Failing | Closed

  datatype WorkerPhase = Unborn | Born | Running | Finished | Failed | Replied(ok: bool) | Dead

  datatype State = State(
    uuid: string, request: Request, workerPid: int, serverPid: int, now: int, keys: Keys,
    server: ServerPhase, sw: Writer, worker: WorkerPhase, ww: Writer,
    late: bool, deleted: bool, accepted: nat, leaked: bool)

  datatype Step =
    | Log
    | Accept(r: Response, document: bool)
    | Dispatch
    | Refuse(error: Option<Response>, document: bool)
    | Timeout(r: Response, document: bool)
    | Receive(error: Option<Response>, document: bool)
    | ServerMicro
    | Begin(r: Response, document: bool)
    | WorkerMicro
    | Reply
    | Kill
    | Delete
    | Tick(seconds: nat)

  function Start(uuid: string, request: Request, workerPid: int, serverPid: int, now: int): State {
    State(uuid, request, workerPid, serverPid, now, Keys(None, false, false), Fresh, Quiet, Unborn, Quiet,
          false, false, 0, false)
  }

  // ---- One Redis command of an update ----------------------------------

  function MicroKeys(k: Keys, w: Writer, uuid: string, now: int, pid: int): Keys {
    match w
    case Quiet => k
    case Begun(_, document) => k.(response := k.response || document)
    case Written(r) => if k.record.Some? then k else k.(record := Some(NewRecord(uuid, r.request, now)))
    case Logging(_, _) => k.(request := true)
    case Holding(r, copy) => if Updatable(copy, r) then k.(record := Some(Updated(copy, r, now, pid))) else k
  }

  function MicroWriter(k: Keys, w: Writer, uuid: string, now: int): Writer {
    match w
    case Quiet => Quiet
    case Begun(r, _) => Written(r)
    case Written(r) =>
      if k.record.Some? then Holding(r, k.record.value) else Logging(r, NewRecord(uuid, r.request, now))
    case Logging(r, copy) => Holding(r, copy)
    case Holding(_, _) => Quiet
  }

  /** The server goes on when its own update is stored. */
  function AfterStore(p: ServerPhase): ServerPhase {
    if p == Accepting then Waiting else if p == Failing then Closed else p
  }

  // ---- The steps -------------------------------------------------------

  predicate MayBegin(p: WorkerPhase, status: Status) {
    match p
    case Born => status == Started || status == Error
    case Running => status == Started || status == Done || status == Error
    case Finished => status == Error
    case _ => false
  }

  function PhaseOf(status: Status): WorkerPhase {
    if status == Started then Running else if status == Done then Finished else Failed
  }

  function Fail(s: State, error: Option<Response>, document: bool): State {
    if error.None? then s.(server := Closed)
    else if error.value.status == Error && error.value.request == s.request then
      s.(server := Failing, sw := Begun(error.value, document))
    else s
  }

  predicate Undocumented(k: Keys) {
    k.record.None? && (k.request || k.response)
  }

  function DoServer(s: State, step: Step): State {
    match step
    case Log =>
      if s.server != Fresh then s
      else s.(server := Logged, keys := s.keys.(record := Some(NewRecord(s.uuid, s.request, s.now))))
    case Accept(r, document) =>
      if s.server != Logged || r.status != Accepted || r.request != s.request then s
      else s.(server := Accepting, sw := Begun(r, document), keys := s.keys.(request := true))
    case Dispatch =>
      if s.server != Waiting || s.worker != Unborn then s else s.(worker := Born)
    case Refuse(error, document) =>
      if s.server != Waiting || s.worker != Unborn then s else Fail(s, error, document)
    case Timeout(r, document) =>
      if s.server != Waiting || s.worker == Unborn || r.status != Error || r.request != s.request then s
      else Fail(s.(late := true), Some(r), document)
    case Receive(error, document) =>
      if s.server != Waiting || !s.worker.Replied? then s
      else Fail(s, if s.worker.ok then None else error, document)
    case ServerMicro =>
      if s.sw.Quiet? then s else
      s.(keys := MicroKeys(s.keys, s.sw, s.uuid, s.now, s.serverPid),
         sw := MicroWriter(s.keys, s.sw, s.uuid, s.now),
         accepted := s.accepted + (if s.sw.Holding? && s.sw.r.status == Accepted then 1 else 0),
         server := if s.sw.Holding? then AfterStore(s.server) else s.server)
    case _ => s
  }

  function DoWorker(s: State, step: Step): State {
    match step
    case Begin(r, document) =>
      if !s.ww.Quiet? || !MayBegin(s.worker, r.status) || r.request != s.request then s
      else s.(worker := PhaseOf(r.status), ww := Begun(r, document))
    case WorkerMicro =>
      s.(keys := MicroKeys(s.keys, s.ww, s.uuid, s.now, s.workerPid),
         ww := MicroWriter(s.keys, s.ww, s.uuid, s.now),
         accepted := s.accepted + (if s.ww.Holding? && s.ww.r.status == Accepted then 1 else 0))
    case Reply =>
      if !s.ww.Quiet? || (s.worker != Finished && s.worker != Failed) then s
      else s.(worker := Replied(s.worker == Finished))
    case Kill =>
      if s.worker == Unborn || s.worker.Replied? then s
      else s.(worker := Dead, ww := Quiet, leaked := s.leaked || (!s.ww.Quiet? && Undocumented(s.keys)))
    case _ => s
  }

  function Do(s: State, step: Step): State {
    match step
    case Delete => s.(keys := Keys(None, false, false), deleted := true)
    case Tick(seconds) => s.(now := s.now + seconds)
    case Begin(_, _) | WorkerMicro | Reply | Kill => DoWorker(s, step)
    case _ => DoServer(s, step)
  }

  function Run(s: State, steps: seq<Step>): State
    decreases |steps|
  {
    if steps == [] then s else Run(Do(s, steps[0]), steps[1..])
  }

  ghost predicate Reached(s: State) {
    exists uuid, request, workerPid, serverPid, now, steps ::
      s == Run(Start(uuid, request, workerPid, serverPid, now), steps)
  }

  // ---- What every run keeps --------------------------------------------

  /** Records, stored or held by a writer, are good. */
  ghost predicate Good(s: State) {
    && (s.keys.record.Some? ==> RecordInv(s.keys.record.value) && s.keys.record.value.uuid == s.uuid)
    && GoodWriter(s.sw, s.uuid) && GoodWriter(s.ww, s.uuid)
  }

  ghost predicate GoodWriter(w: Writer, uuid: string) {
    w.Logging? || w.Holding? ==> RecordInv(w.copy) && w.copy.uuid == uuid
  }

  predicate Early(p: ServerPhase) {
    p == Fresh || p == Logged || p == Accepting
  }

  predicate Young(r: Option<Record>) {
    r.Some? ==> r.value.status == Known(NoStatus) && r.value.pid.None?
  }

  /** Who writes which status, and when. */
  ghost predicate Roles(s: State) {
    && (s.sw.Quiet? <==> s.server != Accepting && s.server != Failing)
    && (!s.sw.Quiet? ==> s.sw.r.status == if s.server == Accepting then Accepted else Error)
    && (!s.ww.Quiet? ==>
          || (s.ww.r.status == Started && s.worker == Running)
          || (s.ww.r.status == Done && s.worker == Finished)
          || (s.ww.r.status == Error && s.worker == Failed))
    && (Early(s.server) ==> s.worker == Unborn && s.accepted == 0 && Young(s.keys.record)
                            && (s.sw.Logging? || s.sw.Holding? ==> Young(Some(s.sw.copy))))
    && (!Early(s.server) ==> s.accepted == 1)
    && (s.server == Waiting && s.worker == Unborn && s.keys.record.Some? ==>
          StatusCode(s.keys.record.value) <= Code(Accepted))
    && ((s.server == Failing || s.server == Closed) && s.worker != Unborn ==>
          s.late || s.worker.Replied? || s.worker == Dead)
  }

  lemma GoodKeeps(s: State, step: Step)
    requires Good(s)
    ensures Good(Do(s, step))
  {
    if step.Begin? || step.WorkerMicro? || step.Reply? || step.Kill? {
      GoodWorker(s, step);
    } else if !step.Delete? && !step.Tick? {
      GoodServer(s, step);
    }
  }

  lemma GoodServer(s: State, step: Step)
    requires Good(s)
    ensures Good(DoServer(s, step))
  {
    hide RecordInv, MicroKeys, MicroWriter, Code;
    MicroGood(s.keys, s.sw, s.uuid, s.now, s.serverPid);
    FreshRecord(s.uuid, s.request, s.now);
  }

  lemma GoodWorker(s: State, step: Step)
    requires Good(s)
    ensures Good(DoWorker(s, step))
  {
    hide RecordInv, MicroKeys, MicroWriter, Code;
    MicroGood(s.keys, s.ww, s.uuid, s.now, s.workerPid);
  }

  lemma FreshRecord(uuid: string, r: Request, now: int)
    ensures RecordInv(NewRecord(uuid, r, now)) && NewRecord(uuid, r, now).uuid == uuid
  {}

  lemma MicroGood(k: Keys, w: Writer, uuid: string, now: int, pid: int)
    requires k.record.Some? ==> RecordInv(k.record.value) && k.record.value.uuid == uuid
    requires GoodWriter(w, uuid)
    ensures GoodWriter(MicroWriter(k, w, uuid, now), uuid)
    ensures
      var k' := MicroKeys(k, w, uuid, now, pid);
      k'.record.Some? ==> RecordInv(k'.record.value) && k'.record.value.uuid == uuid
  {
    if w.Holding? { UpdatedKeeps(w.copy, w.r, now, pid); }
  }

  lemma RolesKeep(s: State, step: Step)
    requires Roles(s) && Good(s)
    ensures Roles(Do(s, step))
  {
    match step
    case ServerMicro =>
      if s.sw.Holding? { UpdatedKeeps(s.sw.copy, s.sw.r, s.now, s.serverPid); }
      ServerMicroRoles(s);
    case WorkerMicro => WorkerMicroRoles(s);
    case Begin(_, _) | Reply | Kill => WorkerRoles(s, step);
    case Delete | Tick(_) =>
    case _ => ServerRoles(s, step);
  }

  lemma ServerMicroRoles(s: State)
    requires Roles(s) && UpdateOf(s.sw, s.now, s.serverPid)
    ensures Roles(DoServer(s, ServerMicro))
  {
    hide RecordInv, Updated, Updatable;
  }

  lemma WorkerMicroRoles(s: State)
    requires Roles(s)
    ensures Roles(DoWorker(s, WorkerMicro))
  {
    hide RecordInv, Updated, Updatable, Code;
  }

  lemma WorkerRoles(s: State, step: Step)
    requires Roles(s) && !step.WorkerMicro?
    ensures Roles(DoWorker(s, step))
  {
    hide RecordInv, MicroKeys, MicroWriter, Updatable, Code;
  }

  lemma ServerRoles(s: State, step: Step)
    requires Roles(s) && !step.ServerMicro?
    ensures Roles(DoServer(s, step))
  {
    hide RecordInv, MicroKeys, MicroWriter, Updatable, Code;
  }

  // ---- Order of the statuses -------------------------------------------

  function Ceiling(s: State): nat {
    if Early(s.server) then Code(NoStatus)
    else if s.server != Waiting then Code(Error)
    else match s.worker
      case Unborn | Born => Code(Accepted)
      case Running => Code(Started)
      case Finished => Code(Done)
      case _ => Code(Error)
  }

  predicate Synced(k: Keys, w: Writer) {
    !w.Logging? && (w.Holding? ==> k.record == Some(w.copy))
  }

  function StatusCode(r: Record): nat {
    if r.status.Known? then Code(r.status.status) else 0
  }

  /** With no late timeout and no deletion the writers take turns: what one
      holds is what is stored, and the stored status is below what comes. */
  ghost predicate Turns(s: State) {
    && (s.keys.record.Some? <==> s.server != Fresh)
    && Synced(s.keys, s.sw) && Synced(s.keys, s.ww)
    && (s.keys.record.Some? ==> StatusCode(s.keys.record.value) <= Ceiling(s))
  }

  predicate Undisturbed(s: State) {
    !s.late && !s.deleted
  }

  ghost predicate Inv(s: State) {
    Good(s) && Roles(s) && (Undisturbed(s) ==> Turns(s)) && Tracked(s)
  }

  ghost predicate Grows(k: Keys, k': Keys) {
    k.record.Some? ==> k'.record.Some? && StatusCode(k.record.value) <= StatusCode(k'.record.value)
  }

  lemma TurnsKeep(s: State, step: Step)
    requires Good(s) && Roles(s) && Turns(s) && Undisturbed(Do(s, step))
    ensures Turns(Do(s, step)) && Grows(s.keys, Do(s, step).keys)
  {
    match step
    case ServerMicro =>
      if s.sw.Holding? { UpdatedKeeps(s.sw.copy, s.sw.r, s.now, s.serverPid); }
      ServerMicroTurns(s);
    case WorkerMicro =>
      if s.ww.Holding? { UpdatedKeeps(s.ww.copy, s.ww.r, s.now, s.workerPid); }
      WorkerMicroTurns(s);
    case Begin(_, _) | Reply | Kill => WorkerTurns(s, step);
    case Tick(_) =>
    case Delete =>
    case _ => ServerTurns(s, step);
  }

  /** The writer holds a copy whose edit has a pid. */
  predicate Stale(w: Writer) {
    && (w.Logging? || w.Holding?)
    && !Terminal(w.r.status)
    && (w.copy.pid.Some? || (w.r.status == Started && StatusCode(w.copy) < Code(Started)))
  }

  ghost predicate UpdateOf(w: Writer, now: int, pid: int) {
    w.Holding? ==>
      && Updatable(w.copy, w.r)
      && Updated(w.copy, w.r, now, pid).status == Known(w.r.status)
      && (Updated(w.copy, w.r, now, pid).pid.Some? ==> Stale(w))
  }

  lemma ServerMicroTurns(s: State)
    requires Roles(s) && Turns(s) && Undisturbed(s) && UpdateOf(s.sw, s.now, s.serverPid)
    ensures Turns(DoServer(s, ServerMicro)) && Grows(s.keys, DoServer(s, ServerMicro).keys)
  {
    hide RecordInv, Updated, Updatable;
  }

  lemma WorkerMicroTurns(s: State)
    requires Roles(s) && Turns(s) && Undisturbed(s) && UpdateOf(s.ww, s.now, s.workerPid)
    ensures Turns(DoWorker(s, WorkerMicro)) && Grows(s.keys, DoWorker(s, WorkerMicro).keys)
  {
    hide RecordInv, Updated, Updatable;
  }

  lemma WorkerTurns(s: State, step: Step)
    requires Roles(s) && Turns(s) && Undisturbed(s) && !step.WorkerMicro?
    ensures Turns(DoWorker(s, step)) && Grows(s.keys, DoWorker(s, step).keys)
  {
    hide RecordInv, MicroKeys, MicroWriter, Updatable;
  }

  lemma ServerTurns(s: State, step: Step)
    requires Roles(s) && Turns(s) && Undisturbed(DoServer(s, step)) && !step.ServerMicro?
    ensures Turns(DoServer(s, step)) && Grows(s.keys, DoServer(s, step).keys)
  {
    hide RecordInv, MicroKeys, MicroWriter, Updatable;
  }

  // ---- Documents without a record --------------------------------------

  /** A document without a record: deleted while an update was under way, which
      still is, or whose worker was killed in it. */
  ghost predicate Tracked(s: State) {
    && (!s.deleted ==> (s.keys.record.Some? <==> s.server != Fresh))
    && (s.server == Fresh ==> !Undocumented(s.keys))
    && (Undocumented(s.keys) ==> s.deleted && (!s.sw.Quiet? || !s.ww.Quiet? || s.leaked))
  }

  lemma TrackedKeeps(s: State, step: Step)
    requires Good(s) && Roles(s) && Tracked(s)
    ensures Tracked(Do(s, step))
  {
    if step.Begin? || step.WorkerMicro? || step.Reply? || step.Kill? {
      if s.ww.Holding? { UpdatedKeeps(s.ww.copy, s.ww.r, s.now, s.workerPid); }
      WorkerTracked(s, step);
    } else if !step.Delete? && !step.Tick? {
      if s.sw.Holding? { UpdatedKeeps(s.sw.copy, s.sw.r, s.now, s.serverPid); }
      ServerTracked(s, step);
    }
  }

  lemma ServerTracked(s: State, step: Step)
    requires Roles(s) && Tracked(s) && UpdateOf(s.sw, s.now, s.serverPid)
    ensures Tracked(DoServer(s, step))
  {
    hide RecordInv, Updated, Updatable, Code;
  }

  lemma WorkerTracked(s: State, step: Step)
    requires Roles(s) && Tracked(s) && UpdateOf(s.ww, s.now, s.workerPid)
    ensures Tracked(DoWorker(s, step))
  {
    hide RecordInv, Updated, Updatable, Code;
  }
}
