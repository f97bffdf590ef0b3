/** The supervisor with the worker processes it watches: notifications travel
    on one FIFO channel per process, kills end processes, pids are not reused. */
module SupervisedWorkers {
  import opened Wrappers
  import opened Supervision

  /** `busy` is the flag of the notifier and `jobs` counts the times it rose.
      `numbers` holds the job of each BUSY in the channel, `seen` the job of the
      BUSY processed last. */
  datatype Proc = Proc(alive: bool, busy: bool, channel: seq<Note>, jobs: nat, numbers: seq<nat>, seen: nat)

  datatype Sys = Sys(sup: Sup, procs: map<Pid, Proc>)

  datatype Step =
    | Spawn(pid: Pid) | Notify(pid: Pid, note: Note, accepted: bool) | Exit(pid: Pid)
    | Deliver(pid: Pid) | FireTimer(t: TimerId) | KillRequest(pid: Pid) | Tick(seconds: nat) | StopSupervisor

  /** A notifier call; one that raises the flag begins a job. */
  function MakeNote(p: Proc, note: Note, accepted: bool): Proc {
    var (busy, channel) := Notified(p.busy, p.channel, note, accepted);
    var jobs := p.jobs + if busy && !p.busy then 1 else 0;
    p.(busy := busy, channel := channel, jobs := jobs,
       numbers := p.numbers + if busy && !p.busy && accepted then [jobs] else [])
  }

  /** The head of a channel is received. */
  function Received(p: Proc): Proc
    requires p.channel != []
  {
    var rest := p.(channel := p.channel[1..]);
    if p.channel[0].Busy? && p.numbers != [] then rest.(seen := p.numbers[0], numbers := p.numbers[1..]) else rest
  }

  function Die(procs: map<Pid, Proc>, victim: Option<Pid>): map<Pid, Proc> {
    if victim.Some? && victim.value in procs then procs[victim.value := procs[victim.value].(alive := false)] else procs
  }

  function Do(s: Sys, step: Step): Sys {
    match step
    case Spawn(pid) => if pid in s.procs then s else s.(procs := s.procs[pid := Proc(true, false, [], 0, [], 0)])
    case Notify(pid, note, accepted) =>
      if pid in s.procs && s.procs[pid].alive then
        s.(procs := s.procs[pid := MakeNote(s.procs[pid], note, accepted)])
      else s
    case Exit(pid) => s.(procs := Die(s.procs, Some(pid)))
    case Deliver(pid) =>
      if pid !in s.procs || s.procs[pid].channel == [] || s.sup.stopped then s else
      var p := s.procs[pid];
      Sys(if p.channel[0].Busy? then OnBusy(s.sup, pid) else OnDone(s.sup, pid), s.procs[pid := Received(p)])
    case FireTimer(t) => Sys(Fire(s.sup, t), Die(s.procs, Target(s.sup, t)))
    case KillRequest(pid) =>
      Sys(KillBusy(s.sup, pid), if pid in s.sup.busy then Die(s.procs, Some(pid)) else s.procs)
    case Tick(d) => s.(sup := s.sup.(now := s.sup.now + d))
    case StopSupervisor => s.(sup := Stop(s.sup))
  }

  function Run(s: Sys, steps: seq<Step>): Sys {
    if steps == [] then s else Do(Run(s, steps[..|steps| - 1]), steps[|steps| - 1])
  }

  function Start(timeout: nat): Sys {
    Sys(Started(timeout), map[])
  }

  /** No notification of this worker is refused by its socket. */
  ghost predicate Lossless(steps: seq<Step>, pid: Pid) {
    forall i :: 0 <= i < |steps| && steps[i].Notify? && steps[i].pid == pid ==> steps[i].accepted
  }

  /** No DONE of this worker is. */
  ghost predicate DonesAccepted(steps: seq<Step>, pid: Pid) {
    forall i :: 0 <= i < |steps| && steps[i].Notify? && steps[i].pid == pid && steps[i].note.Done? ==> steps[i].accepted
  }

  // ---- Every run, losses included --------------------------------------

  ghost predicate SupInv(s: Sys) {
    && Supervision.Inv(s.sup)
    && (forall pid :: pid in s.sup.busy ==> pid in s.procs)
    && (forall t :: t in s.sup.armed ==> s.sup.armed[t].pid in s.procs)
  }

  lemma SupStep(s: Sys, step: Step)
    requires SupInv(s)
    ensures SupInv(Do(s, step))
  {
    hide Inv;
    match step
    case Deliver(pid) =>
      if pid in s.procs && s.procs[pid].channel != [] { NoteKeeps(s.sup, pid, s.procs[pid].channel[0]); }
      hide Received;
    case FireTimer(t) => FireKeeps(s.sup, t);
    case KillRequest(pid) => KillBusyKeeps(s.sup, pid);
    case Tick(d) => TickKeeps(s.sup, d);
    case StopSupervisor => StopKeeps(s.sup);
    case _ => hide MakeNote;
  }

  lemma TickKeeps(s: Sup, seconds: nat)
    requires Inv(s)
    ensures Inv(s.(now := s.now + seconds))
  {
    var s' := s.(now := s.now + seconds);
    forall p ensures Books(s', p) { assert Books(s, p); }
    forall p | p in s'.busy ensures EntryInv(s', p) { assert EntryInv(s, p); }
  }

  lemma {:induction false} SupAlways(timeout: nat, steps: seq<Step>)
    ensures SupInv(Run(Start(timeout), steps))
  {
    if steps != [] {
      SupAlways(timeout, steps[..|steps| - 1]);
      SupStep(Run(Start(timeout), steps[..|steps| - 1]), steps[|steps| - 1]);
      hide SupInv, Do;
    }
  }

  /** Conservation, whatever is lost or repeated: a BUSY that found its pid
      absent ends in one DONE that pops it, one kill, the stop, or is pending. */
  lemma KillConservation(timeout: nat, steps: seq<Step>, pid: Pid)
    ensures
      var s := Run(Start(timeout), steps).sup;
      && Starts(s.log, pid)
         == Pops(s.log, pid) + Kills(s.log, pid) + Forgotten(s.log, pid) + (if pid in s.busy then 1 else 0)
      && (s.stopped ==> s.busy == map[])
  {
    SupAlways(timeout, steps);
    assert Books(Run(Start(timeout), steps).sup, pid);
  }

  /** Nothing is killed after `stop`, not even by a timer it left armed. */
  lemma {:induction false} NoKillAfterStop(s: Sys, after: seq<Step>)
    requires s.sup.stopped && s.sup.busy == map[]
    ensures
      var s' := Run(s, after);
      s'.sup.stopped && s'.sup.busy == map[] && KillsOf(s'.sup.log) == KillsOf(s.sup.log)
  {
    if after != [] {
      var n := |after| - 1;
      hide Do, KillsOf;
      NoKillAfterStop(s, after[..n]);
      StoppedStep(Run(s, after[..n]), after[n]);
    }
  }

  lemma StoppedStep(s: Sys, step: Step)
    requires s.sup.stopped && s.sup.busy == map[]
    ensures
      var s' := Do(s, step);
      s'.sup.stopped && s'.sup.busy == map[] && KillsOf(s'.sup.log) == KillsOf(s.sup.log)
  {
    if step.StopSupervisor? {
      assert (s.sup.log + [Stopped({})])[..|s.sup.log|] == s.sup.log;
    }
    hide KillsOf;
  }

  /** A firing kills in time exactly when the timer its entry holds is due:
      always so when the entry holds the timer that fires. */
  lemma InTimeIff(timeout: nat, steps: seq<Step>, t: TimerId)
    requires Target(Run(Start(timeout), steps).sup, t).Some?
    ensures
      var s := Run(Start(timeout), steps).sup;
      var pid := Target(s, t).value;
      && pid in s.lastNote && s.lastNote[pid].0.Busy? && s.busy[pid] in s.armed
      && (s.lastNote[pid].1 + s.timeout <= s.now <==> s.armed[s.busy[pid]].deadline <= s.now)
      && (s.busy[pid] == t ==> s.lastNote[pid].1 + s.timeout <= s.now)
  {
    SupAlways(timeout, steps);
    var s := Run(Start(timeout), steps).sup;
    assert EntryInv(s, Target(s, t).value);
  }

  /** A timer is about to kill a live worker before its full timeout. */
  ghost predicate EarlyKill(s: Sys, pid: Pid, t: TimerId) {
    && Target(s.sup, t) == Some(pid) && pid in s.procs && s.procs[pid].alive
    && pid in s.sup.lastNote && s.sup.now < s.sup.lastNote[pid].1 + s.sup.timeout
  }

  /** With a lost DONE, the timer of an earlier job kills the next job early. */
  lemma EarlyKillAfterLoss()
    ensures exists steps: seq<Step>, t ::
      var s := Run(Start(10), steps).sup;
      EarlyKill(Run(Start(10), steps), 1, t) && s.lastNote[1] == (Busy, 9) && s.now == 10
  {
    var first := [Spawn(1), Notify(1, Busy, true), Deliver(1), Notify(1, Done, false)];
    var second := [Tick(9), Notify(1, Busy, true), Deliver(1), Tick(1)];
    var s0 := Start(10);
    var s1 := LostDone(s0, first);
    var s2 := NextJob(s1, second);
    hide Do;
    Run4(s0, first);
    Run4(s1, second);
    RunConcat(s0, first, second);
    assert Run(Start(10), first + second) == s2;
  }

  lemma LostDone(s: Sys, a: seq<Step>) returns (s': Sys)
    requires s == Start(10) && a == [Spawn(1), Notify(1, Busy, true), Deliver(1), Notify(1, Done, false)]
    ensures s' == Do(Do(Do(Do(s, a[0]), a[1]), a[2]), a[3])
    ensures s'.procs == map[1 := Proc(true, false, [], 1, [], 1)]
    ensures s'.sup == OnBusy(Started(10), 1)
  {
    var m := Do(Do(s, a[0]), a[1]);
    assert m.procs[1] == Proc(true, true, [Busy], 1, [1], 0);
    s' := Do(Do(m, a[2]), a[3]);
    assert s'.procs[1] == Proc(true, false, [], 1, [], 1);
  }

  lemma NextJob(s: Sys, a: seq<Step>) returns (s': Sys)
    requires s.procs == map[1 := Proc(true, false, [], 1, [], 1)] && s.sup == OnBusy(Started(10), 1)
    requires a == [Tick(9), Notify(1, Busy, true), Deliver(1), Tick(1)]
    ensures s' == Do(Do(Do(Do(s, a[0]), a[1]), a[2]), a[3])
    ensures EarlyKill(s', 1, 0) && s'.sup.lastNote[1] == (Busy, 9) && s'.sup.now == 10
  {
    var m := Do(Do(s, a[0]), a[1]);
    assert m.procs[1].channel == [Busy];
    s' := Do(Do(m, a[2]), a[3]);
    assert s'.sup.armed == map[0 := Timer(1, 10), 1 := Timer(1, 19)];
  }

  lemma {:induction false} RunConcat(s: Sys, a: seq<Step>, b: seq<Step>)
    ensures Run(s, a + b) == Run(Run(s, a), b)
  {
    hide Do;
    if b == [] {
      assert a + b == a;
    } else {
      assert (a + b)[..|a + b| - 1] == a + b[..|b| - 1];
      RunConcat(s, a, b[..|b| - 1]);
    }
  }

  lemma Run4(s: Sys, a: seq<Step>)
    requires |a| == 4
    ensures Run(s, a) == Do(Do(Do(Do(s, a[0]), a[1]), a[2]), a[3])
  {
    hide Do;
    assert a[..3][..2] == a[..2] && a[..2][..1] == a[..1] && a[..1][..0] == [];
    assert Run(s, a[..1]) == Do(s, a[0]);
    assert Run(s, a[..2]) == Do(Run(s, a[..1]), a[1]);
    assert Run(s, a[..3]) == Do(Run(s, a[..2]), a[2]);
  }

  // ---- Calm workers ----------------------------------------------------

  /** The channel leads from the supervisor's view of a worker to the worker's
      flag without a BUSY on top of a BUSY, and does not leave it busy without
      its flag. */
  predicate Sep(channel: seq<Note>, known: bool, flag: bool) {
    if channel == [] then known ==> flag
    else if channel[0].Busy? then !known && Sep(channel[1..], true, flag)
    else Sep(channel[1..], false, flag)
  }

  /** The view the supervisor will have when the channel is empty. */
  predicate Final(channel: seq<Note>, known: bool) {
    if channel == [] then known else channel[|channel| - 1].Busy?
  }

  ghost predicate OwnTimers(s: Sup, pid: Pid) {
    forall t :: t in s.armed && s.armed[t].pid == pid ==> pid in s.busy && s.busy[pid] == t
  }

  ghost predicate Calm(s: Sys, pid: Pid)
    requires pid in s.procs
  {
    Sep(s.procs[pid].channel, pid in s.sup.busy, s.procs[pid].busy) && OwnTimers(s.sup, pid)
  }

  ghost predicate Live(s: Sys, pid: Pid) {
    pid in s.procs && s.procs[pid].alive && !s.sup.stopped
  }

  lemma {:induction false} SepAppend(channel: seq<Note>, known: bool, flag: bool)
    requires Sep(channel, known, flag)
    ensures Final(channel, known) ==> flag
    ensures Sep(channel, known, true)
    ensures Sep(channel + [Done], known, false)
    ensures !flag ==> Sep(channel + [Busy], known, true)
  {
    if channel == [] {
      assert ([] + [Done])[1..] == [] && ([] + [Busy])[1..] == [];
    } else {
      assert (channel + [Done])[1..] == channel[1..] + [Done] && (channel + [Busy])[1..] == channel[1..] + [Busy];
      SepAppend(channel[1..], channel[0].Busy?, flag);
    }
  }

  lemma CalmNotify(s: Sys, note: Note, accepted: bool, pid: Pid)
    requires Live(s, pid) && Calm(s, pid) && (note.Done? ==> accepted)
    ensures Calm(Do(s, Notify(pid, note, accepted)), pid)
  {
    SepAppend(s.procs[pid].channel, pid in s.sup.busy, s.procs[pid].busy);
    assert s.procs[pid].channel + [] == s.procs[pid].channel;
    hide Sep;
  }

  lemma CalmDeliver(s: Sys, pid: Pid)
    requires SupInv(s) && Live(s, pid) && Calm(s, pid)
    ensures Calm(Do(s, Deliver(pid)), pid)
  {
    hide Supervision.Inv;
    ArmedBelowNext(s.sup, pid);
  }

  lemma ArmedBelowNext(s: Sup, pid: Pid)
    requires Supervision.Inv(s)
    ensures s.next !in s.armed && (pid in s.busy ==> s.busy[pid] in s.armed && s.armed[s.busy[pid]].pid == pid)
  {
    if pid in s.busy { assert EntryInv(s, pid); }
  }

  /** Only the refusal of a DONE of its own disturbs a calm worker. */
  lemma CalmStep(s: Sys, step: Step, pid: Pid)
    requires SupInv(s) && Live(s, pid) && Calm(s, pid) && Live(Do(s, step), pid)
    requires step.Notify? && step.pid == pid && step.note.Done? ==> step.accepted
    ensures Calm(Do(s, step), pid)
  {
    hide Supervision.Inv, Sep, Received, MakeNote;
    match step
    case Notify(q, note, accepted) => if q == pid { CalmNotify(s, note, accepted, pid); }
    case Deliver(q) => if q == pid { CalmDeliver(s, pid); } else { ArmedBelowNext(s.sup, q); }
    case _ =>
  }

  /** A worker that is live after a step was live or is new, and calm. */
  lemma LiveBefore(s: Sys, step: Step, pid: Pid)
    requires SupInv(s) && Live(Do(s, step), pid)
    ensures Live(s, pid) || (pid !in s.procs && Calm(Do(s, step), pid))
  {
    hide Supervision.Inv;
  }

  lemma {:induction false} CalmStays(s: Sys, steps: seq<Step>, pid: Pid)
    requires SupInv(s) && DonesAccepted(steps, pid) && (Live(s, pid) ==> Calm(s, pid))
    ensures SupInv(Run(s, steps)) && (Live(Run(s, steps), pid) ==> Calm(Run(s, steps), pid))
  {
    hide SupInv, Do, Calm;
    if steps != [] {
      var n := |steps| - 1;
      var before := Run(s, steps[..n]);
      CalmStays(s, steps[..n], pid);
      SupStep(before, steps[n]);
      if Live(Do(before, steps[n]), pid) {
        LiveBefore(before, steps[n], pid);
        if Live(before, pid) { CalmStep(before, steps[n], pid); }
      }
    }
  }

  // ---- Stalled jobs ----------------------------------------------------

  function LastNumber(p: Proc): nat {
    if p.numbers == [] then p.seen else p.numbers[|p.numbers| - 1]
  }

  function CountBusy(channel: seq<Note>): nat {
    if channel == [] then 0 else (if channel[0].Busy? then 1 else 0) + CountBusy(channel[1..])
  }

  /** A worker the supervisor takes, or will take, for busy is in the job of the
      BUSY that says so. */
  ghost predicate Numbered(s: Sys, pid: Pid)
    requires pid in s.procs
  {
    var p := s.procs[pid];
    && |p.numbers| == CountBusy(p.channel)
    && (Final(p.channel, pid in s.sup.busy) ==> p.jobs == LastNumber(p))
  }

  lemma {:induction false} CountAppend(channel: seq<Note>, note: Note)
    ensures CountBusy(channel + [note]) == CountBusy(channel) + if note.Busy? then 1 else 0
  {
    if channel == [] {
      assert ([] + [note])[1..] == [];
    } else {
      assert (channel + [note])[1..] == channel[1..] + [note];
      CountAppend(channel[1..], note);
    }
  }

  lemma NumberedNotify(s: Sys, note: Note, accepted: bool, pid: Pid)
    requires Live(s, pid) && Calm(s, pid) && Numbered(s, pid) && (note.Done? ==> accepted)
    ensures Numbered(Do(s, Notify(pid, note, accepted)), pid)
  {
    CountAppend(s.procs[pid].channel, note);
    SepAppend(s.procs[pid].channel, pid in s.sup.busy, s.procs[pid].busy);
    assert s.procs[pid].channel + [] == s.procs[pid].channel && s.procs[pid].numbers + [] == s.procs[pid].numbers;
    hide Sep, CountBusy;
  }

  lemma {:induction false} NoBusyCount(channel: seq<Note>)
    ensures CountBusy(channel) == 0 ==> channel == [] || channel[|channel| - 1].Done?
  {
    if channel != [] { NoBusyCount(channel[1..]); }
  }

  lemma NumberedDeliver(s: Sys, pid: Pid)
    requires Live(s, pid) && Numbered(s, pid)
    ensures Numbered(Do(s, Deliver(pid)), pid)
  {
    if s.procs[pid].channel != [] { NoBusyCount(s.procs[pid].channel[1..]); }
  }

  lemma NumberedStep(s: Sys, step: Step, pid: Pid)
    requires Live(s, pid) && Calm(s, pid) && Numbered(s, pid) && Live(Do(s, step), pid)
    requires step.Notify? && step.pid == pid && step.note.Done? ==> step.accepted
    ensures Numbered(Do(s, step), pid)
  {
    hide Sep, Received, MakeNote, OwnTimers, CountBusy;
    match step
    case Notify(q, note, accepted) => if q == pid { NumberedNotify(s, note, accepted, pid); }
    case Deliver(q) => if q == pid { NumberedDeliver(s, pid); }
    case _ =>
  }

  lemma NewIsNumbered(s: Sys, step: Step, pid: Pid)
    requires SupInv(s) && pid !in s.procs && Live(Do(s, step), pid)
    ensures Numbered(Do(s, step), pid)
  {
    hide Supervision.Inv, Received, MakeNote;
  }

  lemma {:induction false} NumberedAlways(timeout: nat, steps: seq<Step>, pid: Pid)
    requires DonesAccepted(steps, pid)
    ensures
      var s := Run(Start(timeout), steps);
      SupInv(s) && (Live(s, pid) ==> Calm(s, pid) && Numbered(s, pid))
  {
    SupAlways(timeout, steps);
    CalmStays(Start(timeout), steps, pid);
    if steps != [] {
      var n := |steps| - 1;
      var before := Run(Start(timeout), steps[..n]);
      NumberedAlways(timeout, steps[..n], pid);
      hide Do, SupInv, Calm, Numbered;
      if Live(Do(before, steps[n]), pid) {
        LiveBefore(before, steps[n], pid);
        if Live(before, pid) { NumberedStep(before, steps[n], pid); } else { NewIsNumbered(before, steps[n], pid); }
      }
    }
  }

  /** As long as none of its own DONEs is refused, whatever happens to its BUSYs
      and to all notifications of other workers, a timer kills a live worker only
      when a BUSY of it was processed one timeout ago or more and nothing of it
      since; and the worker is still in that very job unless its DONE is the next
      to come. */
  lemma TimerKillsStalledJob(timeout: nat, steps: seq<Step>, pid: Pid, t: TimerId)
    requires DonesAccepted(steps, pid)
    requires
      var s := Run(Start(timeout), steps);
      Target(s.sup, t) == Some(pid) && pid in s.procs && s.procs[pid].alive
    ensures
      var s := Run(Start(timeout), steps);
      var p := s.procs[pid];
      && s.sup.busy[pid] == t
      && pid in s.sup.lastNote && s.sup.lastNote[pid].0.Busy? && s.sup.lastNote[pid].1 + s.sup.timeout <= s.sup.now
      && (if p.channel == [] then p.busy && p.jobs == p.seen else p.channel[0].Done?)
  {
    NumberedAlways(timeout, steps, pid);
    InTimeIff(timeout, steps, t);
    var s := Run(Start(timeout), steps);
    assert s.sup.busy != map[];
    assert s.procs[pid].channel == [] ==> s.procs[pid].numbers == [];
    hide Supervision.Inv;
  }

  // ---- Every stalled worker dies ---------------------------------------

  /** A live worker is taken for busy exactly when the last notification of it
      that was processed is a BUSY. */
  ghost predicate KnownByNote(s: Sys, pid: Pid) {
    && (pid in s.sup.lastNote ==> pid in s.procs)
    && (Live(s, pid) ==> (pid in s.sup.busy <==> pid in s.sup.lastNote && s.sup.lastNote[pid].0.Busy?))
  }

  lemma KnownStep(s: Sys, step: Step, pid: Pid)
    requires SupInv(s) && KnownByNote(s, pid)
    ensures KnownByNote(Do(s, step), pid)
  {
    hide Supervision.Inv, Received;
  }

  lemma {:induction false} KnownAlways(timeout: nat, steps: seq<Step>, pid: Pid)
    ensures KnownByNote(Run(Start(timeout), steps), pid)
  {
    if steps != [] {
      var n := |steps| - 1;
      hide Do, SupInv, KnownByNote;
      KnownAlways(timeout, steps[..n], pid);
      SupAlways(timeout, steps[..n]);
      KnownStep(Run(Start(timeout), steps[..n]), steps[n], pid);
    }
  }

  /** In every run, losses included: a live worker whose last processed
      notification is a BUSY has a timer, and the firing of that timer kills it
      exactly from one timeout after that BUSY on. */
  lemma StalledWorkerDies(timeout: nat, steps: seq<Step>, pid: Pid)
    requires
      var s := Run(Start(timeout), steps);
      Live(s, pid) && pid in s.sup.lastNote && s.sup.lastNote[pid].0.Busy?
    ensures
      var s := Run(Start(timeout), steps);
      && pid in s.sup.busy && pid in Do(s, FireTimer(s.sup.busy[pid])).procs
      && (!Do(s, FireTimer(s.sup.busy[pid])).procs[pid].alive <==> s.sup.lastNote[pid].1 + timeout <= s.sup.now)
  {
    var s := Run(Start(timeout), steps);
    KnownAlways(timeout, steps, pid);
    SupAlways(timeout, steps);
    TimeoutStays(Start(timeout), steps);
    assert EntryInv(s.sup, pid);
    hide Run, Supervision.Inv;
  }

  // ---- Early kills -----------------------------------------------------

  /** A live worker is killed early only by a timer left over from an earlier
      job, and only if one of its own DONEs was refused. */
  lemma EarlyKillNeedsLoss(timeout: nat, steps: seq<Step>, pid: Pid, t: TimerId)
    requires EarlyKill(Run(Start(timeout), steps), pid, t)
    ensures
      var s := Run(Start(timeout), steps);
      pid in s.sup.busy && s.sup.busy[pid] != t
    ensures exists i :: 0 <= i < |steps| && steps[i] == Notify(pid, Done, false)
  {
    TimeoutStays(Start(timeout), steps);
    InTimeIff(timeout, steps, t);
    if DonesAccepted(steps, pid) {
      TimerKillsStalledJob(timeout, steps, pid, t);
    } else {
      var i :| 0 <= i < |steps| && steps[i].Notify? && steps[i].pid == pid && steps[i].note.Done? && !steps[i].accepted;
      assert steps[i] == Notify(pid, Done, false);
    }
  }

  lemma {:induction false} TimeoutStays(s: Sys, steps: seq<Step>)
    ensures Run(s, steps).sup.timeout == s.sup.timeout
  {
    if steps != [] {
      TimeoutStays(s, steps[..|steps| - 1]);
      SameTimeout(Run(s, steps[..|steps| - 1]), steps[|steps| - 1]);
      hide Do;
    }
  }

  lemma SameTimeout(s: Sys, step: Step)
    ensures Do(s, step).sup.timeout == s.sup.timeout
  {
    hide Received, MakeNote;
  }

  /** A calm worker is not about to be killed early. */
  lemma CalmIsSafe(s: Sys, pid: Pid, t: TimerId)
    requires SupInv(s) && Live(s, pid) && Calm(s, pid)
    ensures !EarlyKill(s, pid, t)
  {
    if pid in s.sup.busy { assert EntryInv(s.sup, pid); }
  }

  /** A timer of the pid that is not its entry's is armed. */
  ghost predicate Stray(s: Sup, pid: Pid, t: TimerId) {
    t in s.armed && s.armed[t].pid == pid && !(pid in s.busy && s.busy[pid] == t)
  }

  lemma RunOn(s: Sys, step: Step, rest: seq<Step>)
    ensures Run(s, [step] + rest) == Run(Do(s, step), rest)
  {
    hide Do;
    RunConcat(s, [step], rest);
    assert [step][..0] == [];
    assert Run(s, [step]) == Do(s, step);
  }

  /** What a continuation towards an early kill goes through. */
  ghost predicate Ready(s: Sys, pid: Pid) {
    SupInv(s) && Live(s, pid) && s.sup.timeout > 0
  }

  lemma DeliverReady(s: Sys, pid: Pid)
    requires Ready(s, pid) && s.procs[pid].channel != []
    ensures
      var s' := Do(s, Deliver(pid));
      && Ready(s', pid) && s'.procs[pid].channel == s.procs[pid].channel[1..]
      && s'.procs[pid].busy == s.procs[pid].busy && s'.sup.now == s.sup.now
      && (pid in s'.sup.busy <==> s.procs[pid].channel[0].Busy?)
      && (s.procs[pid].channel[0].Busy? ==> pid in s'.sup.lastNote && s'.sup.lastNote[pid] == (Busy, s.sup.now))
      && forall t :: Stray(s.sup, pid, t) ==> Stray(s'.sup, pid, t) && s'.sup.armed[t] == s.sup.armed[t]
  {
    SupStep(s, Deliver(pid));
    ArmedBelowNext(s.sup, pid);
    hide Supervision.Inv;
  }

  lemma NotifyReady(s: Sys, note: Note, pid: Pid)
    requires Ready(s, pid) && s.procs[pid].busy != note.Busy?
    ensures
      var s' := Do(s, Notify(pid, note, true));
      && Ready(s', pid) && s'.procs[pid].channel == s.procs[pid].channel + [note]
      && s'.procs[pid].busy == note.Busy? && s'.sup == s.sup
  {
    SupStep(s, Notify(pid, note, true));
    hide Supervision.Inv;
  }

  lemma TickReady(s: Sys, seconds: nat, pid: Pid)
    requires Ready(s, pid)
    ensures Ready(Do(s, Tick(seconds)), pid)
  {
    SupStep(s, Tick(seconds));
    hide Supervision.Inv;
  }

  /** With a stray timer, one wait and a new job of the worker end in an early
      kill; nothing is refused. */
  lemma {:induction false} Striking(s: Sys, pid: Pid, t: TimerId) returns (steps: seq<Step>)
    requires Ready(s, pid) && Stray(s.sup, pid, t)
    ensures Lossless(steps, pid) && EarlyKill(Run(s, steps), pid, t)
    decreases |s.procs[pid].channel|
  {
    if s.procs[pid].channel != [] {
      DeliverReady(s, pid);
      var rest := Striking(Do(s, Deliver(pid)), pid, t);
      RunOn(s, Deliver(pid), rest);
      steps := [Deliver(pid)] + rest;
    } else {
      var wait := if s.sup.armed[t].deadline <= s.sup.now then 0 else s.sup.armed[t].deadline - s.sup.now;
      TickReady(s, wait, pid);
      var s1 := Do(s, Tick(wait));
      assert s1.sup == s.sup.(now := s.sup.now + wait) && s1.procs == s.procs;
      var rest := NewJob(s1, pid, t);
      RunOn(s, Tick(wait), rest);
      steps := [Tick(wait)] + rest;
    }
  }

  /** Its flag down, if need be, and up again. */
  lemma NewJob(s: Sys, pid: Pid, t: TimerId) returns (steps: seq<Step>)
    requires Ready(s, pid) && Stray(s.sup, pid, t) && s.procs[pid].channel == [] && s.sup.armed[t].deadline <= s.sup.now
    ensures Lossless(steps, pid) && EarlyKill(Run(s, steps), pid, t)
  {
    if s.procs[pid].busy {
      var s1 := Do(s, Notify(pid, Done, true));
      NotifyReady(s, Done, pid);
      DeliverReady(s1, pid);
      var s2 := Do(s1, Deliver(pid));
      assert s2.procs[pid].channel == [];
      hide Do, Stray;
      var rest := RaiseFlag(s2, pid, t);
      RunOn(s1, Deliver(pid), rest);
      RunOn(s, Notify(pid, Done, true), [Deliver(pid)] + rest);
      steps := [Notify(pid, Done, true)] + ([Deliver(pid)] + rest);
    } else {
      steps := RaiseFlag(s, pid, t);
    }
  }

  lemma RaiseFlag(s: Sys, pid: Pid, t: TimerId) returns (steps: seq<Step>)
    requires Ready(s, pid) && Stray(s.sup, pid, t) && s.sup.armed[t].deadline <= s.sup.now
    requires s.procs[pid].channel == [] && !s.procs[pid].busy
    ensures Lossless(steps, pid) && EarlyKill(Run(s, steps), pid, t)
  {
    var s1 := Do(s, Notify(pid, Busy, true));
    NotifyReady(s, Busy, pid);
    DeliverReady(s1, pid);
    hide Do;
    RunOn(s1, Deliver(pid), []);
    RunOn(s, Notify(pid, Busy, true), [Deliver(pid)]);
    steps := [Notify(pid, Busy, true)] + [Deliver(pid)];
    assert [Deliver(pid)] + [] == [Deliver(pid)];
    var s2 := Do(s1, Deliver(pid));
    assert Run(s2, []) == s2;
  }

  /** A worker that is not calm comes to a stray timer, and so to an early kill. */
  lemma {:induction false} Exposing(s: Sys, pid: Pid) returns (steps: seq<Step>, t: TimerId)
    requires Ready(s, pid) && !Calm(s, pid)
    ensures Lossless(steps, pid) && EarlyKill(Run(s, steps), pid, t)
    decreases |s.procs[pid].channel|
  {
    if t0 :| Stray(s.sup, pid, t0) {
      t := t0;
      steps := Striking(s, pid, t);
    } else {
      var step := ExposingStep(s, pid);
      var next := Do(s, step);
      var rest;
      if s.procs[pid].channel == [] {
        var last := Do(next, Deliver(pid));
        t := s.sup.busy[pid];
        var strike := Striking(last, pid, t);
        RunOn(next, Deliver(pid), strike);
        rest := [Deliver(pid)] + strike;
      } else {
        rest, t := Exposing(next, pid);
      }
      RunOn(s, step, rest);
      steps := [step] + rest;
    }
  }

  /** A busy entry under a lowered flag gets a BUSY on top; a channel with a BUSY
      on top of a BUSY comes a message nearer. */
  lemma ExposingStep(s: Sys, pid: Pid) returns (step: Step)
    requires Ready(s, pid) && !Calm(s, pid) && forall t :: !Stray(s.sup, pid, t)
    ensures
      var next := Do(s, step);
      if s.procs[pid].channel == [] then
        && step == Notify(pid, Busy, true) && pid in s.sup.busy
        && Ready(Do(next, Deliver(pid)), pid) && Stray(Do(next, Deliver(pid)).sup, pid, s.sup.busy[pid])
      else
        && step == Deliver(pid) && Ready(next, pid) && !Calm(next, pid)
        && |next.procs[pid].channel| < |s.procs[pid].channel|
  {
    ArmedBelowNext(s.sup, pid);
    assert OwnTimers(s.sup, pid) by {
      forall t | t in s.sup.armed && s.sup.armed[t].pid == pid ensures pid in s.sup.busy && s.sup.busy[pid] == t {
        assert !Stray(s.sup, pid, t);
      }
    }
    if s.procs[pid].channel == [] {
      step := Notify(pid, Busy, true);
      NotifyReady(s, Busy, pid);
      DeliverReady(Do(s, step), pid);
      hide Supervision.Inv;
    } else {
      step := Deliver(pid);
      DeliverReady(s, pid);
      hide Supervision.Inv;
      if s.procs[pid].channel[0].Busy? && pid in s.sup.busy {
        assert Stray(Do(s, step).sup, pid, s.sup.busy[pid]);
      }
    }
  }

  ghost predicate EarlyWithin(s: Sys, pid: Pid, steps: seq<Step>, t: TimerId) {
    DonesAccepted(steps, pid) && EarlyKill(Run(s, steps), pid, t)
  }

  /** From any reachable state, some continuation that refuses no DONE of a live
      worker ends in its early kill exactly when the worker is not calm. One that
      refuses nothing of it does then. */
  lemma EarlyKillIff(timeout: nat, before: seq<Step>, pid: Pid)
    requires timeout > 0 && Live(Run(Start(timeout), before), pid)
    ensures
      var s := Run(Start(timeout), before);
      && ((exists steps, t :: EarlyWithin(s, pid, steps, t)) <==> !Calm(s, pid))
      && (!Calm(s, pid) ==> exists steps, t :: EarlyWithin(s, pid, steps, t) && Lossless(steps, pid))
  {
    var s := Run(Start(timeout), before);
    SupAlways(timeout, before);
    TimeoutStays(Start(timeout), before);
    if Calm(s, pid) {
      hide EarlyKill, Run, SupInv, Calm, Live;
      forall steps, t | DonesAccepted(steps, pid) ensures !EarlyKill(Run(s, steps), pid, t) {
        CalmStays(s, steps, pid);
        var s' := Run(s, steps);
        if Live(s', pid) { CalmIsSafe(s', pid, t); } else { StoppedIsSafe(s', pid, t); }
      }
    } else {
      var steps, t := Exposing(s, pid);
      assert EarlyWithin(s, pid, steps, t) && Lossless(steps, pid);
    }
  }

  lemma StoppedIsSafe(s: Sys, pid: Pid, t: TimerId)
    requires SupInv(s) && !Live(s, pid)
    ensures !EarlyKill(s, pid, t)
  {}

  // ---- By waiting alone ------------------------------------------------

  /** Some wait makes a timer kill the pid early. */
  ghost predicate EarlyAfter(s: Sys, pid: Pid, t: TimerId, seconds: nat) {
    EarlyKill(Do(s, Tick(seconds)), pid, t)
  }

  /** A timer of the pid other than its entry's is armed, and will be due before
      the entry's is. */
  ghost predicate Leftover(s: Sup, pid: Pid, t: TimerId)
    requires pid in s.busy && s.busy[pid] in s.armed
  {
    && t in s.armed && t != s.busy[pid] && s.armed[t].pid == pid
    && s.armed[t].deadline < s.armed[s.busy[pid]].deadline && s.now < s.armed[s.busy[pid]].deadline
  }

  /** A busy live worker can come to be killed early by waiting alone exactly
      when such a leftover timer is armed. */
  lemma EarlyKillAheadIff(timeout: nat, steps: seq<Step>, pid: Pid)
    requires
      var s := Run(Start(timeout), steps);
      pid in s.sup.busy && pid in s.procs && s.procs[pid].alive
    ensures
      var s := Run(Start(timeout), steps);
      && s.sup.busy[pid] in s.sup.armed
      && ((exists t, seconds :: EarlyAfter(s, pid, t, seconds)) <==> exists t :: Leftover(s.sup, pid, t))
  {
    SupAlways(timeout, steps);
    var s := Run(Start(timeout), steps);
    assert EntryInv(s.sup, pid);
    var due := s.sup.armed[s.sup.busy[pid]].deadline;
    if t, seconds :| EarlyAfter(s, pid, t, seconds) {
      assert Leftover(s.sup, pid, t);
    }
    if t :| Leftover(s.sup, pid, t) {
      var seconds := if s.sup.armed[t].deadline <= s.sup.now then 0 else s.sup.armed[t].deadline - s.sup.now;
      assert EarlyAfter(s, pid, t, seconds);
    }
  }
}
