/** Dismissal of an unfinished job (`get_ogcapi_job_dismiss`): it reads the record
    and kills the process whose pid it finds there. The pid outlives the job in
    the process, which goes on to other jobs. */
module JobDismissal {
  import opened Wrappers
  import opened JobRecords
  import opened JobLifecycle
  import opened JobTheorems

  /** The record read leads to a kill. */
  predicate Kills(s: State) {
    && s.keys.record.Some? && StatusCode(s.keys.record.value) < Code(Done)
    && s.keys.record.value.pid.Some?
  }

  /** The worker runs this job, its last update included. */
  predicate InJob(s: State) {
    s.worker == Running || ((s.worker == Finished || s.worker == Failed) && !s.ww.Quiet?)
  }

  predicate OwnPid(r: Record, s: State) {
    r.pid.Some? ==> r.pid.value == s.workerPid && s.worker != Unborn && s.worker != Born
  }

  ghost predicate PidInv(s: State) {
    && (s.keys.record.Some? ==> OwnPid(s.keys.record.value, s))
    && (s.sw.Logging? || s.sw.Holding? ==> OwnPid(s.sw.copy, s))
    && (s.ww.Logging? || s.ww.Holding? ==> OwnPid(s.ww.copy, s))
    && (Kills(s) ==> InJob(s) || s.worker == Dead)
  }

  /** The pid an update leaves. */
  ghost predicate PidOf(w: Writer, now: int, pid: int) {
    w.Holding? ==>
      && Updatable(w.copy, w.r)
      && Updated(w.copy, w.r, now, pid).status == Known(w.r.status)
      && Updated(w.copy, w.r, now, pid).pid ==
           if Terminal(w.r.status) then None
           else if w.r.status == Started && StatusCode(w.copy) < Code(Started) then Some(pid) else w.copy.pid
  }

  lemma PidOfGood(w: Writer, uuid: string, now: int, pid: int)
    requires GoodWriter(w, uuid)
    ensures PidOf(w, now, pid)
  {
    if w.Holding? { UpdatedKeeps(w.copy, w.r, now, pid); }
    hide Updated, Updatable;
  }

  lemma PidStep(s: State, step: Step)
    requires Inv(s) && PidInv(s)
    ensures PidInv(Do(s, step))
  {
    hide RecordInv, Updated, Updatable;
    if step.Begin? || step.WorkerMicro? || step.Reply? || step.Kill? {
      PidOfGood(s.ww, s.uuid, s.now, s.workerPid);
      PidWorker(s, step);
    } else if !step.Delete? && !step.Tick? {
      PidOfGood(s.sw, s.uuid, s.now, s.serverPid);
      PidServer(s, step);
    }
  }

  lemma PidWorker(s: State, step: Step)
    requires Roles(s) && PidInv(s) && PidOf(s.ww, s.now, s.workerPid)
    ensures PidInv(DoWorker(s, step))
  {
    hide RecordInv, Updated, Updatable;
    if step.WorkerMicro? {
      if s.ww.Holding? { PidWorkerStores(s); } else { PidWorkerGoesOn(s); }
    } else {
      hide MicroKeys, MicroWriter, PidOf;
    }
  }

  lemma PidWorkerStores(s: State)
    requires Roles(s) && PidInv(s) && PidOf(s.ww, s.now, s.workerPid) && s.ww.Holding?
    ensures PidInv(DoWorker(s, WorkerMicro))
  {
    hide RecordInv, Updated, Updatable;
  }

  lemma PidWorkerGoesOn(s: State)
    requires Roles(s) && PidInv(s) && !s.ww.Holding?
    ensures PidInv(DoWorker(s, WorkerMicro))
  {
    hide RecordInv, Updated, Updatable, Code;
  }

  lemma PidServer(s: State, step: Step)
    requires Roles(s) && PidInv(s) && PidOf(s.sw, s.now, s.serverPid)
    ensures PidInv(DoServer(s, step))
  {
    hide RecordInv, Updated, Updatable;
    if step.ServerMicro? {
      if s.sw.Holding? { PidServerStores(s); } else { PidServerGoesOn(s); }
    } else {
      hide MicroKeys, MicroWriter, PidOf, Code;
    }
  }

  lemma PidServerStores(s: State)
    requires Roles(s) && PidInv(s) && PidOf(s.sw, s.now, s.serverPid) && s.sw.Holding?
    ensures PidInv(DoServer(s, ServerMicro))
  {
    hide RecordInv, Updated, Updatable;
  }

  lemma PidServerGoesOn(s: State)
    requires Roles(s) && PidInv(s) && !s.sw.Holding?
    ensures PidInv(DoServer(s, ServerMicro))
  {
    hide RecordInv, Updated, Updatable, Code;
  }

  lemma {:induction false} PidAlways(s: State, steps: seq<Step>)
    requires Inv(s) && PidInv(s)
    ensures PidInv(Run(s, steps))
    decreases |steps|
  {
    hide Do, Inv, PidInv;
    if steps != [] {
      PidStep(s, steps[0]);
      InvKeeps(s, steps[0]);
      PidAlways(Do(s, steps[0]), steps[1..]);
    }
  }

  /** At the moment the record is read a dismissal hits its own job: whenever the
      record leads to a kill, deletions, late timeouts and stale writes included,
      the pid is that of the job's worker, which is still in this very job unless
      it is dead already. */
  lemma DismissalHitsOwnJob(s: State)
    requires Reached(s) && Kills(s)
    ensures s.keys.record.value.pid == Some(s.workerPid) && (InJob(s) || s.worker == Dead)
  {
    var uuid, request, workerPid, serverPid, now, steps :|
      s == Run(Start(uuid, request, workerPid, serverPid, now), steps);
    assert Inv(Start(uuid, request, workerPid, serverPid, now));
    PidAlways(Start(uuid, request, workerPid, serverPid, now), steps);
  }

  predicate ByWorker(steps: seq<Step>) {
    forall i :: 0 <= i < |steps| ==> steps[i].WorkerMicro? || steps[i].Begin? || steps[i].Reply?
  }

  predicate Misses(s: State, steps: seq<Step>) {
    ByWorker(steps) && Run(s, steps).worker.Replied?
  }

  /** After the read the worker may end this job and be free for another, exactly
      when it lives. */
  lemma DismissalMissesIff(s: State)
    requires Reached(s) && Kills(s)
    ensures (exists steps :: Misses(s, steps)) <==> s.worker != Dead
  {
    Always(s);
    DismissalHitsOwnJob(s);
    if s.worker == Dead {
      forall steps | ByWorker(steps) ensures !Misses(s, steps) {
        StaysDead(s, steps);
      }
    } else {
      var steps := Ending(s);
      assert Misses(s, steps);
    }
  }

  lemma {:induction false} StaysDead(s: State, steps: seq<Step>)
    requires s.worker == Dead && ByWorker(steps)
    ensures Run(s, steps).worker == Dead
    decreases |steps|
  {
    if steps != [] {
      StaysDead(Do(s, steps[0]), steps[1..]);
    }
  }

  /** The worker ends its job and replies. */
  lemma Ending(s: State) returns (steps: seq<Step>)
    requires Inv(s) && InJob(s)
    ensures Misses(s, steps)
  {
    hide Do, Inv, Misses;
    if s.worker != Running {
      steps := Replying(s);
    } else if s.ww.Quiet? {
      steps := EndingNext(s);
    } else {
      var first := Completing(s);
      RunKeeps(s, first);
      var rest := EndingNext(Run(s, first));
      MissesLater(s, first, rest);
      steps := first + rest;
    }
  }

  lemma MissesLater(s: State, first: seq<Step>, rest: seq<Step>)
    requires ByWorker(first) && Misses(Run(s, first), rest)
    ensures Misses(s, first + rest)
  {
    RunAppend(s, first, rest);
    hide Run;
  }

  lemma EndingNext(s: State) returns (steps: seq<Step>)
    requires Inv(s) && s.worker == Running && s.ww.Quiet?
    ensures Misses(s, steps)
  {
    var begin := Begin(Response(s.request, Done, "", 100, []), false);
    InvKeeps(s, begin);
    var s1 := Do(s, begin);
    assert s1.worker == Finished && !s1.ww.Quiet?;
    hide Do, Inv;
    var rest := Replying(s1);
    steps := [begin] + rest;
    assert steps[1..] == rest;
  }

  lemma Replying(s: State) returns (steps: seq<Step>)
    requires Inv(s) && (s.worker == Finished || s.worker == Failed) && !s.ww.Quiet?
    ensures Misses(s, steps)
  {
    var first := Completing(s);
    var s1 := Run(s, first);
    RunAppend(s, first, [Reply]);
    assert Run(s1, [Reply]) == Run(Do(s1, Reply), []);
    steps := first + [Reply];
  }
}
