/** When the recorded status of an ended job is final: exactly which states let
    some continuation change it. */
module JobFinality {
  import opened Wrappers
  import opened JobRecords
  import opened JobLifecycle
  import opened JobTheorems

  // ---- The statuses of an ended job ------------------------------------

  predicate NotDismissed(s: State) {
    !Recorded(s, Dismiss)
  }

  lemma NotDismissedStep(s: State, step: Step)
    requires Inv(s) && NotDismissed(s)
    ensures NotDismissed(Do(s, step))
  {
    hide RecordInv, Updated, Updatable, NotDismissed;
    if step.Begin? || step.WorkerMicro? || step.Reply? || step.Kill? {
      if s.ww.Holding? { UpdatedKeeps(s.ww.copy, s.ww.r, s.now, s.workerPid); }
      NotDismissedByWorker(s, step);
    } else if step.Delete? || step.Tick? {
      SameStatuses(s, step);
    } else {
      if s.sw.Holding? { UpdatedKeeps(s.sw.copy, s.sw.r, s.now, s.serverPid); }
      NotDismissedByServer(s, step);
    }
  }

  lemma SameStatuses(s: State, step: Step)
    requires NotDismissed(s) && (step.Delete? || step.Tick?)
    ensures NotDismissed(Do(s, step))
  {}

  lemma NotDismissedByWorker(s: State, step: Step)
    requires Roles(s) && NotDismissed(s) && UpdateOf(s.ww, s.now, s.workerPid)
    ensures NotDismissed(DoWorker(s, step))
  {
    hide RecordInv, Updated, Updatable;
  }

  lemma NotDismissedByServer(s: State, step: Step)
    requires Roles(s) && NotDismissed(s) && UpdateOf(s.sw, s.now, s.serverPid)
    ensures NotDismissed(DoServer(s, step))
  {
    hide RecordInv, Updated, Updatable;
  }

  lemma {:induction false} NeverDismissed(s: State, steps: seq<Step>)
    requires Inv(s) && NotDismissed(s)
    ensures NotDismissed(Run(s, steps))
    decreases |steps|
  {
    hide Do, Inv, NotDismissed;
    if steps != [] {
      NotDismissedStep(s, steps[0]);
      InvKeeps(s, steps[0]);
      NeverDismissed(Do(s, steps[0]), steps[1..]);
    }
  }

  /** A terminal record is one of DONE or ERROR. */
  lemma EndedIsDoneOrError(s: State)
    requires Reached(s) && Ended(s)
    ensures Recorded(s, Done) || Recorded(s, Error)
  {
    Always(s);
    hide Run, Inv;
    var uuid, request, workerPid, serverPid, now, steps :|
      s == Run(Start(uuid, request, workerPid, serverPid, now), steps);
    StartInv(uuid, request, workerPid, serverPid, now);
    NeverDismissed(Start(uuid, request, workerPid, serverPid, now), steps);
    KnownOf(s);
  }

  lemma StartInv(uuid: string, request: Request, workerPid: int, serverPid: int, now: int)
    ensures Inv(Start(uuid, request, workerPid, serverPid, now))
  {}

  lemma KnownOf(s: State)
    requires Inv(s) && s.keys.record.Some?
    ensures s.keys.record.value.status.Known?
  {}

  // ---- Final statuses --------------------------------------------------

  predicate StatusChanges(s: State, steps: seq<Step>) {
    && Undeleted(steps) && s.keys.record.Some? && Run(s, steps).keys.record.Some?
    && Run(s, steps).keys.record.value.status != s.keys.record.value.status
  }

  /** ERROR is final once the worker neither is before the end of its job nor
      has another status to store; DONE only once nobody is left to write. */
  predicate Fixed(s: State) {
    if Recorded(s, Error) then !BeforeEnd(s) && (s.ww.Quiet? || s.ww.r.status == Error) else Over(s)
  }

  /** Some continuation without deletion changes the status of an ended job
      exactly when it is not fixed. */
  lemma StatusFinalIff(s: State)
    requires Reached(s) && Ended(s)
    ensures (exists steps :: StatusChanges(s, steps)) <==> !Fixed(s)
  {
    Always(s);
    EndedIsDoneOrError(s);
    if Fixed(s) {
      forall steps | Undeleted(steps) ensures !StatusChanges(s, steps) {
        StaysFixed(s, steps);
      }
    } else {
      var steps := Changing(s);
      assert StatusChanges(s, steps);
    }
  }

  lemma {:induction false} StaysFixed(s: State, steps: seq<Step>)
    requires Inv(s) && Fixed(s) && (Recorded(s, Done) || Recorded(s, Error)) && Ended(s) && Undeleted(steps)
    ensures
      var s' := Run(s, steps);
      s'.keys.record.Some? && s'.keys.record.value.status == s.keys.record.value.status
    decreases |steps|
  {
    hide Do, Inv, Fixed;
    if steps != [] {
      FixedStep(s, steps[0]);
      InvKeeps(s, steps[0]);
      StaysFixed(Do(s, steps[0]), steps[1..]);
    }
  }

  lemma FixedStep(s: State, step: Step)
    requires Inv(s) && Fixed(s) && (Recorded(s, Done) || Recorded(s, Error)) && step != Delete
    ensures
      var s' := Do(s, step);
      Fixed(s') && Ended(s') && s'.keys.record.value.status == s.keys.record.value.status
  {
    hide RecordInv, Updated, Updatable;
    if step.Begin? || step.WorkerMicro? || step.Reply? || step.Kill? {
      if s.ww.Holding? { UpdatedKeeps(s.ww.copy, s.ww.r, s.now, s.workerPid); }
      FixedWorker(s, step);
    } else if !step.Tick? {
      if s.sw.Holding? { UpdatedKeeps(s.sw.copy, s.sw.r, s.now, s.serverPid); }
      FixedServer(s, step);
    }
  }

  lemma FixedWorker(s: State, step: Step)
    requires Roles(s) && Fixed(s) && (Recorded(s, Done) || Recorded(s, Error))
    requires UpdateOf(s.ww, s.now, s.workerPid)
    ensures
      var s' := DoWorker(s, step);
      Fixed(s') && s'.keys.record.Some? && s'.keys.record.value.status == s.keys.record.value.status
  {
    hide RecordInv, Updated, Updatable;
  }

  lemma FixedServer(s: State, step: Step)
    requires Roles(s) && Fixed(s) && (Recorded(s, Done) || Recorded(s, Error))
    requires UpdateOf(s.sw, s.now, s.serverPid)
    ensures
      var s' := DoServer(s, step);
      Fixed(s') && s'.keys.record.Some? && s'.keys.record.value.status == s.keys.record.value.status
  {
    assert !Early(s.server);
    hide RecordInv, Updated, Updatable;
  }

  /** A way to change a status that is not fixed. */
  lemma Changing(s: State) returns (steps: seq<Step>)
    requires Inv(s) && (Recorded(s, Done) || Recorded(s, Error)) && Ended(s) && !Fixed(s)
    ensures StatusChanges(s, steps)
  {
    if BeforeEnd(s) {
      steps := Reopening(s);
    } else if Recorded(s, Error) {
      steps := Completing(s);
    } else if !s.sw.Quiet? {
      steps := ServerCompleting(s);
    } else if s.ww.Quiet? {
      steps := FromDone(s);
    } else {
      steps := Completing(s);
      if s.ww.r.status == Done {
        var s' := Run(s, steps);
        RunKeeps(s, steps);
        var rest := FromDone(s');
        RunAppend(s, steps, rest);
        steps := steps + rest;
      }
    }
  }

  /** With no update under way, the next one to begin is not DONE. */
  lemma FromDone(s: State) returns (steps: seq<Step>)
    requires Inv(s) && Recorded(s, Done) && !Over(s) && s.sw.Quiet? && s.ww.Quiet?
    ensures StatusChanges(s, steps)
  {
    assert !Early(s.server);
    var step := NextUpdate(s);
    var next := Do(s, step);
    NextUpdateBegins(s);
    InvKeeps(s, step);
    hide Do, Inv, Over;
    var rest;
    if next.sw.Quiet? { rest := Completing(next); } else { rest := ServerCompleting(next); }
    steps := [step] + rest;
    assert steps[1..] == rest;
  }
}
