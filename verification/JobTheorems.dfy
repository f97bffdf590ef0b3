/** What holds of every reachable state and every continuation of the job
    record system. */
module JobTheorems {
  import opened Wrappers
  import opened JobRecords
  import opened JobLifecycle

  lemma {:induction false} RunKeeps(s: State, steps: seq<Step>)
    requires Inv(s)
    ensures Inv(Run(s, steps))
    ensures Undisturbed(Run(s, steps)) ==> Undisturbed(s) && Grows(s.keys, Run(s, steps).keys)
    decreases |steps|
  {
    if steps != [] {
      InvKeeps(s, steps[0]);
      RunKeeps(Do(s, steps[0]), steps[1..]);
    }
  }

  lemma InvKeeps(s: State, step: Step)
    requires Inv(s)
    ensures Inv(Do(s, step))
    ensures Undisturbed(Do(s, step)) ==> Undisturbed(s) && Grows(s.keys, Do(s, step).keys)
  {
    Disturbs(s, step);
    GoodKeeps(s, step);
    RolesKeep(s, step);
    TrackedKeeps(s, step);
    if Undisturbed(Do(s, step)) {
      TurnsKeep(s, step);
    }
  }

  lemma Disturbs(s: State, step: Step)
    ensures Undisturbed(Do(s, step)) ==> Undisturbed(s)
  {
    hide MicroKeys, MicroWriter;
  }

  lemma {:induction false} RunAppend(s: State, a: seq<Step>, b: seq<Step>)
    ensures Run(s, a + b) == Run(Run(s, a), b)
    decreases |a|
  {
    if a == [] {
      assert a + b == b;
    } else {
      assert (a + b)[0] == a[0] && (a + b)[1..] == a[1..] + b;
      RunAppend(Do(s, a[0]), a[1..], b);
    }
  }

  lemma Always(s: State)
    requires Reached(s)
    ensures Inv(s)
  {
    var uuid, request, workerPid, serverPid, now, steps :|
      s == Run(Start(uuid, request, workerPid, serverPid, now), steps);
    RunKeeps(Start(uuid, request, workerPid, serverPid, now), steps);
  }

  // ---- Readers and order -----------------------------------------------

  /** Late writes included, the job document never misses a key, shows an end
      and an expiry exactly when the recorded status is terminal, and the reaper
      takes an ended job exactly from that expiry on. */
  lemma AlwaysReadable(s: State, now: int, default: int)
    requires Reached(s) && s.keys.record.Some?
    ensures
      var rec := s.keys.record.value;
      && RecordInv(rec) && rec.uuid == s.uuid
      && JobDocument(rec).Ok?
      && (JobDocument(rec).value.finished.Some? <==> Terminal(rec.status.status))
      && (JobDocument(rec).value.expire.Some? <==> Terminal(rec.status.status))
      && (Terminal(rec.status.status) ==>
            (Reaped(rec, now, default) <==> now >= JobDocument(rec).value.expire.value))
  {
    Always(s);
    var rec := s.keys.record.value;
    DocumentOfRecord(rec);
    if Terminal(rec.status.status) { ReapedAtExpiry(rec, now, default); }
  }

  /** ACCEPTED is stored once at most, by the server, before the dispatch. */
  lemma AcceptedOnce(s: State)
    requires Reached(s)
    ensures s.accepted <= 1
    ensures s.worker != Unborn ==> s.accepted == 1
    ensures !s.ww.Quiet? ==> s.ww.r.status != Accepted
  {
    Always(s);
  }

  /** With no late timeout and no deletion the recorded status never decreases. */
  lemma StatusNeverDecreases(s: State, steps: seq<Step>)
    requires Reached(s) && s.keys.record.Some? && Undisturbed(Run(s, steps))
    ensures
      var record := Run(s, steps).keys.record;
      record.Some? && StatusCode(s.keys.record.value) <= StatusCode(record.value)
  {
    Always(s);
    RunKeeps(s, steps);
  }

  // ---- Terminal records ------------------------------------------------

  predicate Undeleted(steps: seq<Step>) {
    forall i :: 0 <= i < |steps| ==> steps[i] != Delete
  }

  predicate Ended(s: State) {
    s.keys.record.Some? && Code(Done) <= StatusCode(s.keys.record.value)
  }

  predicate Recorded(s: State, status: Status) {
    s.keys.record.Some? && s.keys.record.value.status == Known(status)
  }

  predicate Reopens(s: State, steps: seq<Step>) {
    Undeleted(steps) && !Ended(Run(s, steps))
  }

  /** The worker has not begun the last update of the job. */
  predicate BeforeEnd(s: State) {
    s.worker == Born || s.worker == Running
  }

  /** A terminal record can come to a status that is not terminal exactly when a
      worker is still before the end of the job. */
  lemma TerminalAbsorbingIff(s: State)
    requires Reached(s) && Ended(s)
    ensures (exists steps :: Reopens(s, steps)) <==> BeforeEnd(s)
  {
    Always(s);
    if BeforeEnd(s) {
      var steps := Reopening(s);
      assert Reopens(s, steps);
    } else {
      forall steps | Undeleted(steps) ensures !Reopens(s, steps) {
        StaysEnded(s, steps);
      }
    }
  }

  lemma {:induction false} StaysEnded(s: State, steps: seq<Step>)
    requires Inv(s) && Ended(s) && !BeforeEnd(s) && Undeleted(steps)
    ensures Ended(Run(s, steps))
    decreases |steps|
  {
    if steps != [] {
      EndedStep(s, steps[0]);
      InvKeeps(s, steps[0]);
      StaysEnded(Do(s, steps[0]), steps[1..]);
    }
  }

  lemma EndedStep(s: State, step: Step)
    requires Inv(s) && Ended(s) && !BeforeEnd(s) && step != Delete
    ensures Ended(Do(s, step)) && !BeforeEnd(Do(s, step))
  {
    hide RecordInv, Updated, Updatable, Code;
    if step.Begin? || step.WorkerMicro? || step.Reply? || step.Kill? {
      if s.ww.Holding? { UpdatedKeeps(s.ww.copy, s.ww.r, s.now, s.workerPid); }
      EndedWorker(s, step);
    } else if !step.Tick? {
      if s.sw.Holding? { UpdatedKeeps(s.sw.copy, s.sw.r, s.now, s.serverPid); }
      EndedServer(s, step);
    }
  }

  lemma EndedWorker(s: State, step: Step)
    requires Roles(s) && Ended(s) && !BeforeEnd(s) && UpdateOf(s.ww, s.now, s.workerPid)
    ensures Ended(DoWorker(s, step)) && !BeforeEnd(DoWorker(s, step))
  {
    hide RecordInv, Updated, Updatable;
  }

  lemma EndedServer(s: State, step: Step)
    requires Roles(s) && Ended(s) && !BeforeEnd(s) && UpdateOf(s.sw, s.now, s.serverPid)
    ensures Ended(DoServer(s, step)) && !BeforeEnd(DoServer(s, step))
  {
    assert !Early(s.server);
    hide RecordInv, Updated, Updatable;
  }

  /** A worker before the end of its job can store STARTED. */
  lemma Reopening(s: State) returns (steps: seq<Step>)
    requires Inv(s) && Ended(s) && BeforeEnd(s)
    ensures Reopens(s, steps) && Recorded(Run(s, steps), Started)
  {
    hide Do, Inv, Run;
    if s.ww.Quiet? {
      var begin := Begin(Response(s.request, Started, "", 0, []), false);
      InvKeeps(s, begin);
      StartedBegins(s, begin.r);
      var rest := Completing(Do(s, begin));
      steps := [begin] + rest;
      RunFirst(s, begin, rest);
    } else {
      StartedPending(s);
      steps := Completing(s);
    }
  }

  lemma StartedBegins(s: State, r: Response)
    requires BeforeEnd(s) && s.ww.Quiet? && r.status == Started && r.request == s.request
    ensures Do(s, Begin(r, false)).ww == Begun(r, false)
  {}

  lemma StartedPending(s: State)
    requires Inv(s) && BeforeEnd(s) && !s.ww.Quiet?
    ensures s.ww.r.status == Started
  {}

  lemma RunFirst(s: State, step: Step, rest: seq<Step>)
    ensures Run(s, [step] + rest) == Run(Do(s, step), rest)
  {
    hide Do;
    assert ([step] + rest)[1..] == rest;
  }

  function Rank(w: Writer): nat {
    match w
    case Quiet => 0
    case Holding(_, _) => 1
    case Logging(_, _) => 2
    case Written(_) => 3
    case Begun(_, _) => 4
  }

  /** An update nobody interrupts. */
  function Drive(k: Keys, w: Writer, uuid: string, now: int, pid: int): Keys
    decreases Rank(w)
  {
    if w.Quiet? then k else Drive(MicroKeys(k, w, uuid, now, pid), MicroWriter(k, w, uuid, now), uuid, now, pid)
  }

  /** Its commands do together what `LogStore.UpdateStatus` does in one step, and
      leave every document with a record. */
  lemma UninterruptedUpdate(k: Keys, r: Response, document: bool, uuid: string, now: int, pid: int)
    ensures
      var base := if k.record.Some? then k.record.value else NewRecord(uuid, r.request, now);
      Drive(k, Begun(r, document), uuid, now, pid) ==
        Keys(Some(if Updatable(base, r) then Updated(base, r, now, pid) else base),
             k.request || k.record.None?, k.response || document)
  {
    hide Updated, Updatable;
    var k1 := MicroKeys(k, Begun(r, document), uuid, now, pid);
    if k.record.None? {
      var base := NewRecord(uuid, r.request, now);
      var k3 := k1.(record := Some(base), request := true);
      assert Drive(k1, Written(r), uuid, now, pid)
          == Drive(k1.(record := Some(base)), Logging(r, base), uuid, now, pid)
          == Drive(k3, Holding(r, base), uuid, now, pid)
          == Drive(MicroKeys(k3, Holding(r, base), uuid, now, pid), Quiet, uuid, now, pid);
    } else {
      assert Drive(k1, Written(r), uuid, now, pid) == Drive(k1, Holding(r, k.record.value), uuid, now, pid)
          == Drive(MicroKeys(k1, Holding(r, k.record.value), uuid, now, pid), Quiet, uuid, now, pid);
    }
  }

  lemma WorkerGoesOn(s: State)
    requires Inv(s) && !s.ww.Quiet?
    ensures
      var next := Do(s, WorkerMicro);
      next == s.(keys := next.keys, ww := next.ww, accepted := next.accepted) &&
      if s.ww.Holding? then
        && next.ww.Quiet? && next.keys.record.Some?
        && next.keys.record.value.status == Known(s.ww.r.status)
        && (next.keys.record.value.pid.Some? <==> Stale(s.ww))
      else
        && !next.ww.Quiet? && next.ww.r == s.ww.r && Rank(next.ww) < Rank(s.ww)
        && (s.ww.Logging? ==> next.ww == Holding(s.ww.r, s.ww.copy))
  {
    if s.ww.Holding? { UpdatedKeeps(s.ww.copy, s.ww.r, s.now, s.workerPid); }
    hide RecordInv, Updated, Updatable;
  }

  /** The worker's update, run alone, stores its status, and the pid its copy
      leads to. Nothing else changes. */
  lemma {:induction false} Completing(s: State) returns (steps: seq<Step>)
    requires Inv(s) && !s.ww.Quiet?
    ensures Undeleted(steps) && forall i :: 0 <= i < |steps| ==> steps[i] == WorkerMicro
    ensures
      var s' := Run(s, steps);
      s' == s.(keys := s'.keys, ww := Quiet, accepted := s'.accepted)
    ensures
      var record := Run(s, steps).keys.record;
      record.Some? && record.value.status == Known(s.ww.r.status)
      && (s.ww.Logging? || s.ww.Holding? ==> (record.value.pid.Some? <==> Stale(s.ww)))
    decreases Rank(s.ww)
  {
    var next := Do(s, WorkerMicro);
    WorkerGoesOn(s);
    hide Do, Inv;
    if s.ww.Holding? {
      steps := [WorkerMicro];
      assert Run(s, steps) == Run(next, []);
    } else {
      InvKeeps(s, WorkerMicro);
      var rest := Completing(next);
      steps := [WorkerMicro] + rest;
      assert steps[1..] == rest;
    }
  }

  // ---- The pid ---------------------------------------------------------

  predicate PidReturns(s: State, steps: seq<Step>) {
    Undeleted(steps) && Run(s, steps).keys.record.Some? && Run(s, steps).keys.record.value.pid.Some?
  }

  /** A pid comes back to a terminal record exactly when the worker already
      holds a stale copy: it read the record before the terminal write and has
      not stored its own yet. */
  lemma PidReturnsIff(s: State)
    requires Reached(s) && Ended(s)
    ensures (exists steps :: PidReturns(s, steps)) <==> Stale(s.ww)
  {
    Always(s);
    if Stale(s.ww) {
      var steps := Completing(s);
      assert PidReturns(s, steps);
    } else {
      forall steps | Undeleted(steps) ensures !PidReturns(s, steps) {
        StaysBuried(s, steps);
      }
    }
  }

  /** With no late timeout and no deletion it never does. */
  lemma PidGone(s: State, steps: seq<Step>)
    requires Reached(s) && Ended(s) && Undisturbed(s)
    ensures !PidReturns(s, steps)
  {
    Always(s);
    PidReturnsIff(s);
  }

  ghost predicate Buried(s: State) {
    && s.keys.record.Some? && s.keys.record.value.pid.None?
    && StatusCode(s.keys.record.value) >= Code(Started)
    && !Early(s.server) && !Stale(s.ww)
  }

  lemma {:induction false} StaysBuried(s: State, steps: seq<Step>)
    requires Inv(s) && Buried(s) && Undeleted(steps)
    ensures Buried(Run(s, steps))
    decreases |steps|
  {
    if steps != [] {
      BuriedStep(s, steps[0]);
      InvKeeps(s, steps[0]);
      StaysBuried(Do(s, steps[0]), steps[1..]);
    }
  }

  lemma BuriedStep(s: State, step: Step)
    requires Inv(s) && Buried(s) && step != Delete
    ensures Buried(Do(s, step))
  {
    hide RecordInv, Updated, Updatable, Code;
    if step.Begin? || step.WorkerMicro? || step.Reply? || step.Kill? {
      if s.ww.Holding? { UpdatedKeeps(s.ww.copy, s.ww.r, s.now, s.workerPid); }
      BuriedWorker(s, step);
    } else if !step.Tick? {
      if s.sw.Holding? { UpdatedKeeps(s.sw.copy, s.sw.r, s.now, s.serverPid); }
      BuriedServer(s, step);
    }
  }

  lemma BuriedWorker(s: State, step: Step)
    requires Roles(s) && Buried(s) && UpdateOf(s.ww, s.now, s.workerPid)
    ensures Buried(DoWorker(s, step))
  {
    hide RecordInv, Updated, Updatable;
  }

  lemma BuriedServer(s: State, step: Step)
    requires Roles(s) && Buried(s) && UpdateOf(s.sw, s.now, s.serverPid)
    ensures Buried(DoServer(s, step))
  {
    assert !Early(s.server);
    hide RecordInv, Updated, Updatable;
  }

  // ---- Documents -------------------------------------------------------

  /** A document without a record needs a deletion, and then an update under way
      or a worker killed in one. */
  lemma DocumentsHaveRecords(s: State)
    requires Reached(s) && Undocumented(s.keys)
    ensures s.deleted && (!s.sw.Quiet? || !s.ww.Quiet? || s.leaked)
  {
    Always(s);
  }

  /** Nobody is left to write. */
  predicate Over(s: State) {
    s.server == Closed && s.ww.Quiet?
    && (s.worker == Unborn || s.worker == Failed || s.worker.Replied? || s.worker == Dead)
  }

  /** A document stays without a record, unless its own keys are deleted, exactly
      when nobody is left to write: the reaper walks the records and does not see
      it, while any update to come logs the job anew. */
  lemma LeakForGoodIff(s: State)
    requires Reached(s) && Undocumented(s.keys)
    ensures (forall steps :: Undeleted(steps) ==> Undocumented(Run(s, steps).keys)) <==> Over(s)
  {
    Always(s);
    if Over(s) {
      forall steps | Undeleted(steps) ensures Undocumented(Run(s, steps).keys) {
        LeakStays(s, steps);
      }
    } else {
      var steps := Healing(s);
      assert Undeleted(steps) && !Undocumented(Run(s, steps).keys);
    }
  }

  lemma {:induction false} LeakStays(s: State, steps: seq<Step>)
    requires Over(s) && s.sw.Quiet? && Undeleted(steps)
    ensures Run(s, steps).keys == s.keys
    decreases |steps|
  {
    if steps != [] {
      LeakStays(Do(s, steps[0]), steps[1..]);
    }
  }

  /** One step that starts an update, when none is under way. */
  function NextUpdate(s: State): Step {
    var r := Response(s.request, Accepted, "", 0, []);
    var error := r.(status := Error);
    if s.server == Logged then Accept(r, false)
    else if s.server == Waiting then
      if s.worker == Unborn then Refuse(Some(error), false) else Timeout(error, false)
    else Begin(r.(status := if s.worker == Finished then Error else Started), false)
  }

  lemma NextUpdateBegins(s: State)
    requires Inv(s) && s.server != Fresh && !Over(s) && s.sw.Quiet? && s.ww.Quiet?
    ensures
      var next := Do(s, NextUpdate(s));
      && NextUpdate(s) != Delete && next.keys.record == s.keys.record
      && (!next.sw.Quiet? || !next.ww.Quiet?)
      && (!Early(s.server) && !next.sw.Quiet? ==> next.sw.r.status == Error)
      && (!next.ww.Quiet? ==> next.ww.r.status == Error || next.ww.r.status == Started)
  {
    hide Good, MicroKeys, MicroWriter;
  }

  lemma Healing(s: State) returns (steps: seq<Step>)
    requires Inv(s) && Undocumented(s.keys) && !Over(s)
    ensures Undeleted(steps) && Run(s, steps).keys.record.Some?
  {
    assert s.server != Fresh;
    hide Do, Inv, Over;
    if !s.ww.Quiet? {
      steps := Completing(s);
    } else if !s.sw.Quiet? {
      steps := ServerCompleting(s);
    } else {
      NextUpdateBegins(s);
      var step := NextUpdate(s);
      var next := Do(s, step);
      InvKeeps(s, step);
      var rest;
      if next.sw.Quiet? { rest := Completing(next); } else { rest := ServerCompleting(next); }
      steps := [step] + rest;
      assert steps[1..] == rest;
    }
  }

  lemma ServerGoesOn(s: State)
    requires Inv(s) && !s.sw.Quiet?
    ensures
      var next := Do(s, ServerMicro);
      if s.sw.Holding? then Recorded(next, s.sw.r.status)
      else !next.sw.Quiet? && next.sw.r == s.sw.r && Rank(next.sw) < Rank(s.sw)
  {
    if s.sw.Holding? { UpdatedKeeps(s.sw.copy, s.sw.r, s.now, s.serverPid); }
    hide RecordInv, Updated, Updatable;
  }

  lemma {:induction false} ServerCompleting(s: State) returns (steps: seq<Step>)
    requires Inv(s) && !s.sw.Quiet?
    ensures Undeleted(steps) && Recorded(Run(s, steps), s.sw.r.status)
    decreases Rank(s.sw)
  {
    var next := Do(s, ServerMicro);
    ServerGoesOn(s);
    hide Do, Inv;
    if s.sw.Holding? {
      steps := [ServerMicro];
      assert Run(s, steps) == Run(next, []);
    } else {
      InvKeeps(s, ServerMicro);
      var rest := ServerCompleting(next);
      steps := [ServerMicro] + rest;
      assert steps[1..] == rest;
    }
  }
}
