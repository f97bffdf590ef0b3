/** Which job a kill request takes (`kill_worker_busy`): the supervisor knows a
    worker by the notifications it has processed, while the worker goes on. */
module WorkerKills {
  import opened Wrappers
  import opened Supervision
  import opened SupervisedWorkers

  /** A kill request ends the worker in its job number `job`. */
  ghost predicate Hits(s: Sys, pid: Pid, job: nat) {
    && Live(s, pid) && s.procs[pid].busy && s.procs[pid].jobs == job
    && pid in Do(s, KillRequest(pid)).procs && !Do(s, KillRequest(pid)).procs[pid].alive
  }

  lemma RequestKills(s: Sys, pid: Pid)
    requires Live(s, pid)
    ensures pid in Do(s, KillRequest(pid)).procs
    ensures !Do(s, KillRequest(pid)).procs[pid].alive <==> pid in s.sup.busy
  {}

  // ---- The job the supervisor knows of ---------------------------------

  /** The BUSYs in a channel are numbered, rising from the one processed last up
      to the present job; after a DONE in last place no job they number goes on. */
  ghost predicate Ordered(p: Proc) {
    && |p.numbers| == CountBusy(p.channel) && p.seen <= p.jobs
    && (forall i :: 0 <= i < |p.numbers| ==> p.seen < p.numbers[i] <= p.jobs)
    && (forall i, j :: 0 <= i < j < |p.numbers| ==> p.numbers[i] < p.numbers[j])
    && (p.channel != [] && p.channel[|p.channel| - 1].Done? ==> !(p.busy && p.jobs == LastNumber(p)))
  }

  lemma NoteOrdered(p: Proc, note: Note, accepted: bool)
    requires Ordered(p) && (note.Done? ==> accepted)
    ensures Ordered(MakeNote(p, note, accepted))
  {
    SupervisedWorkers.CountAppend(p.channel, note);
    assert p.channel + [] == p.channel && p.numbers + [] == p.numbers;
    hide CountBusy;
  }

  lemma ReceivedOrdered(p: Proc)
    requires Ordered(p) && p.channel != []
    ensures Ordered(Received(p))
  {
    var rest := p.channel[1..];
    assert rest != [] ==> rest[|rest| - 1] == p.channel[|p.channel| - 1];
  }

  lemma OrderedStep(s: Sys, step: Step, pid: Pid)
    requires pid in s.procs ==> Ordered(s.procs[pid])
    requires step.Notify? && step.pid == pid && step.note.Done? ==> step.accepted
    ensures pid in Do(s, step).procs ==> Ordered(Do(s, step).procs[pid])
  {
    hide MakeNote, Received;
    match step
    case Notify(q, note, accepted) =>
      if q == pid && pid in s.procs { NoteOrdered(s.procs[pid], note, accepted); }
    case Deliver(q) =>
      if q == pid && pid in s.procs && s.procs[pid].channel != [] { ReceivedOrdered(s.procs[pid]); }
    case _ =>
  }

  lemma {:induction false} OrderedAlways(timeout: nat, steps: seq<Step>, pid: Pid)
    requires DonesAccepted(steps, pid)
    ensures
      var s := Run(Start(timeout), steps);
      pid in s.procs ==> Ordered(s.procs[pid])
  {
    hide Do, Ordered;
    if steps != [] {
      var n := |steps| - 1;
      OrderedAlways(timeout, steps[..n], pid);
      OrderedStep(Run(Start(timeout), steps[..n]), steps[n], pid);
    }
  }

  /** A worker taken for busy is in the job of the BUSY processed last exactly
      when its channel is empty. */
  lemma KnownJobIff(s: Sys, pid: Pid)
    requires Live(s, pid) && pid in s.sup.busy && Calm(s, pid) && Numbered(s, pid) && Ordered(s.procs[pid])
    ensures
      var p := s.procs[pid];
      (p.busy && p.jobs == p.seen) <==> p.channel == []
  {
    var p := s.procs[pid];
    SepAppend(p.channel, true, p.busy);
    if p.channel != [] && p.numbers == [] {
      NoBusyCount(p.channel);
    }
    hide Sep;
  }

  /** On every run in which none of the worker's own DONEs is refused: a request
      to kill a live worker taken for busy kills it, and ends the job the
      supervisor knows of exactly when nothing sent by the worker is still on its
      way. */
  lemma KillHitsKnownJobIff(timeout: nat, steps: seq<Step>, pid: Pid)
    requires DonesAccepted(steps, pid)
    requires Live(Run(Start(timeout), steps), pid) && pid in Run(Start(timeout), steps).sup.busy
    ensures
      var s := Run(Start(timeout), steps);
      var p := s.procs[pid];
      && !Do(s, KillRequest(pid)).procs[pid].alive
      && (Hits(s, pid, p.seen) <==> p.channel == [])
      && ((p.busy && p.jobs == p.seen) <==> p.channel == [])
  {
    var s := Run(Start(timeout), steps);
    NumberedAlways(timeout, steps, pid);
    OrderedAlways(timeout, steps, pid);
    hide Do, Run, SupInv, Calm, Numbered, Ordered;
    RequestKills(s, pid);
    KnownJobIff(s, pid);
  }

  // ---- The job dismissed -----------------------------------------------

  /** From the read of the record to the kill the event loop processes nothing
      of the worker, whose own steps go on. */
  ghost predicate Window(steps: seq<Step>, pid: Pid) {
    DonesAccepted(steps, pid) && forall i :: 0 <= i < |steps| ==> steps[i] != Deliver(pid)
  }

  /** What the worker sent in the window stands at the end of its channel; with
      nothing sent it is in the same job, and otherwise in none or a later one. */
  ghost predicate Since(p: Proc, p': Proc) {
    && p.channel <= p'.channel && p.jobs <= p'.jobs
    && (p'.channel == p.channel <==> p'.busy && p'.jobs == p.jobs)
  }

  lemma SinceNote(p: Proc, p': Proc, note: Note, accepted: bool)
    requires Since(p, p') && (note.Done? ==> accepted)
    ensures Since(p, MakeNote(p', note, accepted))
  {
    assert p'.channel + [] == p'.channel;
  }

  lemma {:induction false} SinceWindow(s: Sys, steps: seq<Step>, pid: Pid)
    requires pid in s.procs && s.procs[pid].busy && Window(steps, pid)
    ensures pid in Run(s, steps).procs && Since(s.procs[pid], Run(s, steps).procs[pid])
  {
    if steps != [] {
      var n := |steps| - 1;
      SinceWindow(s, steps[..n], pid);
      var before := Run(s, steps[..n]);
      SinceStep(s.procs[pid], before, steps[n], pid);
      hide Do, Since;
    }
  }

  lemma SinceStep(p: Proc, s: Sys, step: Step, pid: Pid)
    requires pid in s.procs && Since(p, s.procs[pid]) && step != Deliver(pid)
    requires step.Notify? && step.pid == pid && step.note.Done? ==> step.accepted
    ensures pid in Do(s, step).procs && Since(p, Do(s, step).procs[pid])
  {
    if step.Notify? && step.pid == pid { SinceNote(p, s.procs[pid], step.note, step.accepted); }
    hide MakeNote, Received;
  }

  /** A dismissal reads the record while the worker is in some job, and requests
      the kill later. It ends that very job exactly when the supervisor takes the
      worker for busy and the worker has sent nothing since the read. */
  lemma DismissalHitsIff(s: Sys, window: seq<Step>, pid: Pid)
    requires Live(s, pid) && s.procs[pid].busy && Window(window, pid) && Live(Run(s, window), pid)
    ensures
      var s' := Run(s, window);
      Hits(s', pid, s.procs[pid].jobs) <==> pid in s'.sup.busy && s'.procs[pid].channel == s.procs[pid].channel
  {
    SinceWindow(s, window, pid);
    RequestKills(Run(s, window), pid);
    hide Do, Run;
  }

  // ---- A kill that misses ----------------------------------------------

  /** The first job is running when its dismissal reads the record. */
  function FirstJob(): Sys {
    Sys(OnBusy(Started(10), 1), map[1 := Proc(true, true, [], 1, [], 1)])
  }

  function SecondJob(): Sys {
    Sys(OnBusy(Started(10), 1), map[1 := Proc(true, true, [Done, Busy], 2, [2], 1)])
  }

  lemma FirstJobRuns()
    ensures Run(Start(10), [Spawn(1), Notify(1, Busy, true), Deliver(1)]) == FirstJob()
  {
    var steps := [Spawn(1), Notify(1, Busy, true), Deliver(1)];
    var m := Do(Do(Start(10), Spawn(1)), Notify(1, Busy, true));
    assert m.procs[1] == Proc(true, true, [Busy], 1, [1], 0);
    assert Do(m, Deliver(1)).procs[1] == FirstJob().procs[1];
    assert Do(m, Deliver(1)) == FirstJob();
    hide Do;
    assert steps[..2][..1] == steps[..1] && steps[..1][..0] == [];
    assert Run(Start(10), steps[..1]) == Do(Start(10), steps[0]);
    assert Run(Start(10), steps[..2]) == m;
  }

  lemma SecondJobRuns()
    ensures Run(FirstJob(), [Notify(1, Done, true), Notify(1, Busy, true)]) == SecondJob()
  {
    var steps := [Notify(1, Done, true), Notify(1, Busy, true)];
    var m := Do(FirstJob(), steps[0]);
    assert m.procs[1] == Proc(true, false, [Done], 1, [], 1);
    assert Do(m, steps[1]).procs[1] == Proc(true, true, [Done, Busy], 2, [2], 1);
    assert Do(m, steps[1]) == SecondJob();
    hide Do;
    assert steps[..1][..0] == [] && Run(FirstJob(), steps[..0]) == FirstJob();
    assert Run(FirstJob(), steps[..1]) == m;
  }

  /** Nothing is refused: the worker ends its first job and begins the second
      between the read and the kill, which takes the second one. */
  lemma KillHitsLaterJob()
    ensures exists steps: seq<Step>, window: seq<Step> ::
      && Lossless(steps, 1) && Lossless(window, 1) && Window(window, 1)
      && LaterJobHit(Run(Start(10), steps), Run(Run(Start(10), steps), window), 1)
  {
    var steps := [Spawn(1), Notify(1, Busy, true), Deliver(1)];
    var window := [Notify(1, Done, true), Notify(1, Busy, true)];
    FirstJobRuns();
    SecondJobRuns();
    RequestKills(SecondJob(), 1);
    hide Run, Do;
    assert LaterJobHit(FirstJob(), SecondJob(), 1);
    assert Lossless(steps, 1) && Lossless(window, 1) && Window(window, 1);
  }

  /** The worker is in the job the supervisor knows of, and is then ended in a
      later one. */
  ghost predicate LaterJobHit(s: Sys, s': Sys, pid: Pid) {
    && Live(s, pid) && s.procs[pid].busy && pid in s.sup.busy && s.procs[pid].jobs == s.procs[pid].seen
    && Live(s', pid) && s'.procs[pid].jobs > s.procs[pid].jobs && Hits(s', pid, s'.procs[pid].jobs)
  }
}
