/** The reaper against the request: when a job's record is reclaimed, over all
    interleavings, deletions included. */
module JobReaping {
  import opened Wrappers
  import opened JobRecords
  import opened JobLifecycle
  import opened JobTheorems

  /** What a writer carries comes from the job's own request. */
  predicate Carries(w: Writer, r: Request) {
    && (!w.Quiet? ==> w.r.request == r)
    && (w.Logging? || w.Holding? ==> OfRequest(w.copy, r))
  }

  ghost predicate RequestInv(s: State) {
    && (s.keys.record.Some? ==> OfRequest(s.keys.record.value, s.request))
    && Carries(s.sw, s.request) && Carries(s.ww, s.request)
  }

  lemma MicroCarries(k: Keys, w: Writer, r: Request, uuid: string, now: int, pid: int)
    requires Carries(w, r) && (k.record.Some? ==> OfRequest(k.record.value, r))
    ensures Carries(MicroWriter(k, w, uuid, now), r)
    ensures
      var k' := MicroKeys(k, w, uuid, now, pid);
      k'.record.Some? ==> OfRequest(k'.record.value, r)
  {
    if w.Holding? { UpdatedFields(w.copy, w.r, now, pid); }
    NewRecordFields(uuid, r, now);
    hide Updated, Updatable, NewRecord;
  }

  lemma RequestStep(s: State, step: Step)
    requires RequestInv(s)
    ensures RequestInv(Do(s, step)) && Do(s, step).request == s.request
  {
    if step.Begin? || step.WorkerMicro? || step.Reply? || step.Kill? {
      RequestWorker(s, step);
    } else if !step.Delete? && !step.Tick? {
      RequestServer(s, step);
    }
  }

  lemma RequestWorker(s: State, step: Step)
    requires RequestInv(s)
    ensures RequestInv(DoWorker(s, step)) && DoWorker(s, step).request == s.request
  {
    hide MicroKeys, MicroWriter, OfRequest;
    MicroCarries(s.keys, s.ww, s.request, s.uuid, s.now, s.workerPid);
  }

  lemma RequestServer(s: State, step: Step)
    requires RequestInv(s)
    ensures RequestInv(DoServer(s, step)) && DoServer(s, step).request == s.request
  {
    hide MicroKeys, MicroWriter, OfRequest, NewRecord;
    if step.ServerMicro? {
      MicroCarries(s.keys, s.sw, s.request, s.uuid, s.now, s.serverPid);
      RequestMicro(s);
    } else {
      NewRecordFields(s.uuid, s.request, s.now);
      RequestServerStep(s, step);
    }
  }

  lemma RequestMicro(s: State)
    requires RequestInv(s)
    requires Carries(MicroWriter(s.keys, s.sw, s.uuid, s.now), s.request)
    requires
      var k := MicroKeys(s.keys, s.sw, s.uuid, s.now, s.serverPid);
      k.record.Some? ==> OfRequest(k.record.value, s.request)
    ensures RequestInv(DoServer(s, ServerMicro)) && DoServer(s, ServerMicro).request == s.request
  {
    hide MicroKeys, MicroWriter, OfRequest, Carries;
  }

  lemma RequestServerStep(s: State, step: Step)
    requires RequestInv(s) && !step.ServerMicro? && OfRequest(NewRecord(s.uuid, s.request, s.now), s.request)
    ensures RequestInv(DoServer(s, step)) && DoServer(s, step).request == s.request
  {
    hide MicroKeys, MicroWriter, OfRequest, NewRecord;
  }

  lemma {:induction false} RequestAlways(s: State, steps: seq<Step>)
    requires RequestInv(s)
    ensures RequestInv(Run(s, steps)) && Run(s, steps).request == s.request
    decreases |steps|
  {
    hide Do, RequestInv;
    if steps != [] {
      RequestStep(s, steps[0]);
      RequestAlways(Do(s, steps[0]), steps[1..]);
    }
  }

  /** In every reachable state the record is of the job's own request, even one
      logged anew after a deletion. */
  lemma RecordOfRequest(s: State)
    requires Reached(s) && s.keys.record.Some?
    ensures OfRequest(s.keys.record.value, s.request)
  {
    var uuid, request, workerPid, serverPid, now, steps :|
      s == Run(Start(uuid, request, workerPid, serverPid, now), steps);
    RequestAlways(Start(uuid, request, workerPid, serverPid, now), steps);
  }

  /** In every reachable state a record is reclaimed exactly when it was never
      updated, or, since its last update, for an unfinished job the timeout its
      request asks has passed, for an ended one the expiration its request asks. */
  lemma ReapedOnTime(s: State, now: int, default: int)
    requires Reached(s) && s.keys.record.Some?
    ensures
      var rec := s.keys.record.value;
      Reaped(rec, now, default) <==>
        rec.timestamp.None? || rec.timestamp.value +
          (if Recorded(s, Done) || Recorded(s, Error) || Recorded(s, Dismiss) then s.request.expiration
           else s.request.timeout) <= now
  {
    RecordOfRequest(s);
    Always(s);
    ReapedIff(s.keys.record.value, now, default);
    hide Reaped, Reached;
  }

  // ---- Outcomes --------------------------------------------------------

  /** With no late timeout and no deletion, a worker that is done with its updates
      has recorded how its job ended. */
  ghost predicate OutcomeInv(s: State) {
    Undisturbed(s) ==>
      && (s.server == Failing ==> s.worker == Unborn || s.worker == Replied(false))
      && (s.worker == Replied(true) || (s.worker == Finished && s.ww.Quiet?) ==> Recorded(s, Done))
      && (s.worker == Replied(false) || (s.worker == Failed && s.ww.Quiet?) ==> Recorded(s, Error))
  }

  lemma OutcomeWorker(s: State, step: Step)
    requires Roles(s) && OutcomeInv(s) && UpdateOf(s.ww, s.now, s.workerPid)
    ensures OutcomeInv(DoWorker(s, step))
  {
    hide RecordInv, Updated, Updatable;
  }

  lemma OutcomeServer(s: State, step: Step)
    requires Roles(s) && OutcomeInv(s) && UpdateOf(s.sw, s.now, s.serverPid)
    requires Undisturbed(s) ==> Turns(s)
    ensures OutcomeInv(DoServer(s, step))
  {
    hide RecordInv, Updated, Updatable;
  }

  lemma OutcomeStep(s: State, step: Step)
    requires Inv(s) && OutcomeInv(s)
    ensures OutcomeInv(Do(s, step))
  {
    hide RecordInv, Updated, Updatable, OutcomeInv, Turns, Roles;
    if step.Begin? || step.WorkerMicro? || step.Reply? || step.Kill? {
      if s.ww.Holding? { UpdatedKeeps(s.ww.copy, s.ww.r, s.now, s.workerPid); }
      OutcomeWorker(s, step);
    } else if step.Delete? || step.Tick? {
      OutcomeIdle(s, step);
    } else {
      if s.sw.Holding? { UpdatedKeeps(s.sw.copy, s.sw.r, s.now, s.serverPid); }
      OutcomeServer(s, step);
    }
  }

  lemma OutcomeIdle(s: State, step: Step)
    requires OutcomeInv(s) && (step.Delete? || step.Tick?)
    ensures OutcomeInv(Do(s, step))
  {}

  lemma {:induction false} OutcomeAlways(s: State, steps: seq<Step>)
    requires Inv(s) && OutcomeInv(s)
    ensures OutcomeInv(Run(s, steps))
    decreases |steps|
  {
    hide Do, Inv, OutcomeInv;
    if steps != [] {
      OutcomeStep(s, steps[0]);
      InvKeeps(s, steps[0]);
      OutcomeAlways(Do(s, steps[0]), steps[1..]);
    }
  }

  /** In every reachable state with no late timeout and no deletion, DONE is
      recorded once the worker replied with success, ERROR once with a failure. */
  lemma OutcomeRecorded(s: State)
    requires Reached(s) && Undisturbed(s) && s.worker.Replied?
    ensures Recorded(s, if s.worker.ok then Done else Error)
  {
    var uuid, request, workerPid, serverPid, now, steps :|
      s == Run(Start(uuid, request, workerPid, serverPid, now), steps);
    assert Inv(Start(uuid, request, workerPid, serverPid, now));
    OutcomeAlways(Start(uuid, request, workerPid, serverPid, now), steps);
  }

  /** The server closes a call whose reply it received, or first records the
      failure it relays. */
  lemma ReplyCloses(s: State, error: Option<Response>, document: bool)
    requires Reached(s) && s.server == Waiting && s.worker.Replied?
    requires error.Some? ==> error.value.status == Error && error.value.request == s.request
    ensures
      var s' := Do(s, Receive(error, document));
      if s.worker.ok || error.None? then s'.server == Closed && s'.sw.Quiet? && s'.keys == s.keys
      else s'.server == Failing && s'.sw == Begun(error.value, document)
  {
    Always(s);
    hide Good, MicroKeys, MicroWriter;
  }

  /** Until its last reply is on its way a worker can come to record a failure. */
  lemma FailureRecordable(s: State) returns (steps: seq<Step>)
    requires Reached(s) && (s.worker == Born || s.worker == Running || s.worker == Finished)
    ensures Undeleted(steps) && Recorded(Run(s, steps), Error)
  {
    Always(s);
    if s.ww.Quiet? {
      steps := EndingInError(s);
    } else {
      var first := Completing(s);
      RunKeeps(s, first);
      assert Roles(s);
      hide Inv, Reached;
      var rest := EndingInError(Run(s, first));
      RunAppend(s, first, rest);
      steps := first + rest;
    }
  }

  lemma ErrorBegins(s: State, r: Response)
    requires (s.worker == Born || s.worker == Running || s.worker == Finished) && s.ww.Quiet?
    requires r.status == Error && r.request == s.request
    ensures Do(s, Begin(r, false)).ww == Begun(r, false)
  {}

  lemma EndingInError(s: State) returns (steps: seq<Step>)
    requires Inv(s) && (s.worker == Born || s.worker == Running || s.worker == Finished) && s.ww.Quiet?
    ensures Undeleted(steps) && Recorded(Run(s, steps), Error)
  {
    var begin := Begin(Response(s.request, Error, "", 0, []), false);
    ErrorBegins(s, begin.r);
    hide Do, Inv, Run;
    InvKeeps(s, begin);
    var rest := Completing(Do(s, begin));
    RunFirst(s, begin, rest);
    steps := [begin] + rest;
  }
}
