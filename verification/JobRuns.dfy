/** Runs that show what a late caller timeout and a deletion can do. */
module JobRuns {
  import opened Wrappers
  import opened JobRecords
  import opened JobLifecycle
  import opened JobTheorems
  import JobDismissal

  lemma Run4(s: State, a: Step, b: Step, c: Step, d: Step)
    ensures Run(s, [a, b, c, d]) == Do(Do(Do(Do(s, a), b), c), d)
  {
    hide Do;
    assert [a, b, c, d][1..] == [b, c, d];
    assert [b, c, d][1..] == [c, d];
    assert [c, d][1..] == [d];
    assert [d][1..] == [];
    var s1, s2, s3 := Do(s, a), Do(Do(s, a), b), Do(Do(Do(s, a), b), c);
    assert Run(s, [a, b, c, d]) == Run(s1, [b, c, d]) == Run(s2, [c, d]) == Run(s3, [d]);
  }

  /** The message of an update; all happens at clock reading 0. */
  function Msg(r: Request, status: Status): Response {
    Response(r, status, "", 0, [])
  }

  function Rec(r: Request, status: Status, now: int): Record
    requires status == Accepted || status == Error
  {
    var rec := NewRecord("job", r, now).(percent := 0, status := Known(status), timestamp := Some(now));
    if status == Accepted then rec
    else rec.(outputFiles := Some([]), timeEnd := Some(now), expireAt := Some(now + r.expiration))
  }

  /** Accepted, and handed to the pool. */
  function Submitted(r: Request): State {
    State("job", r, 7, 1, 0, Keys(Some(Rec(r, Accepted, 0)), true, false), Waiting, Quiet, Unborn, Quiet,
          false, false, 1, false)
  }

  lemma Submission(r: Request)
    ensures Run(Start("job", r, 7, 1, 0),
                [Log, Accept(Msg(r, Accepted), false), ServerMicro, ServerMicro] + [ServerMicro])
            == Submitted(r)
  {
    var s := Start("job", r, 7, 1, 0);
    var first := [Log, Accept(Msg(r, Accepted), false), ServerMicro, ServerMicro];
    var held := Submitted(r).(server := Accepting, accepted := 0,
      sw := Holding(Msg(r, Accepted), NewRecord("job", r, 0)),
      keys := Keys(Some(NewRecord("job", r, 0)), true, false));
    Run4(s, Log, Accept(Msg(r, Accepted), false), ServerMicro, ServerMicro);
    assert Run(s, first) == held;
    RunAppend(s, first, [ServerMicro]);
    RunFirst(held, ServerMicro, []);
  }

  /** The worker has read the accepted record when its caller gives up. */
  function Overtaken(r: Request): State {
    Submitted(r).(worker := Running, ww := Holding(Msg(r, Started), Rec(r, Accepted, 0)),
                  server := Closed, late := true, keys := Keys(Some(Rec(r, Error, 0)), true, false))
  }

  /** The worker's half, and then the caller's. */
  function Reading(r: Request): State {
    Submitted(r).(worker := Running, ww := Holding(Msg(r, Started), Rec(r, Accepted, 0)))
  }

  lemma OvertakingRead(r: Request)
    ensures Run(Submitted(r), [Dispatch, Begin(Msg(r, Started), false), WorkerMicro, WorkerMicro]) == Reading(r)
  {
    Run4(Submitted(r), Dispatch, Begin(Msg(r, Started), false), WorkerMicro, WorkerMicro);
  }

  lemma OvertakingTimeout(r: Request)
    ensures Run(Reading(r), [Timeout(Msg(r, Error), false), ServerMicro, ServerMicro, ServerMicro]) == Overtaken(r)
  {
    Run4(Reading(r), Timeout(Msg(r, Error), false), ServerMicro, ServerMicro, ServerMicro);
  }

  lemma Overtaking(r: Request)
    ensures Run(Submitted(r),
                [Dispatch, Begin(Msg(r, Started), false), WorkerMicro, WorkerMicro]
                + [Timeout(Msg(r, Error), false), ServerMicro, ServerMicro, ServerMicro])
            == Overtaken(r)
  {
    hide Do, Submitted, Reading, Overtaken;
    OvertakingRead(r);
    OvertakingTimeout(r);
    RunAppend(Submitted(r), [Dispatch, Begin(Msg(r, Started), false), WorkerMicro, WorkerMicro],
              [Timeout(Msg(r, Error), false), ServerMicro, ServerMicro, ServerMicro]);
  }

  /** A late timeout between a worker's read and its store: the job is recorded
      as failed, and one command later as running again, with a pid. */
  lemma LatePidReturns(r: Request)
    ensures exists s :: Reached(s) && Recorded(s, Error) && s.keys.record.value.pid == None
              && Recorded(Do(s, WorkerMicro), Started) && Do(s, WorkerMicro).keys.record.value.pid == Some(s.workerPid)
  {
    hide Do, Run, Overtaken, Submitted, Recorded;
    Submission(r);
    Overtaking(r);
    var s := Overtaken(r);
    var a := [Log, Accept(Msg(r, Accepted), false), ServerMicro, ServerMicro] + [ServerMicro];
    var b := [Dispatch, Begin(Msg(r, Started), false), WorkerMicro, WorkerMicro]
      + [Timeout(Msg(r, Error), false), ServerMicro, ServerMicro, ServerMicro];
    RunAppend(Start("job", r, 7, 1, 0), a, b);
    assert Reached(s);
    hide Reached;
    OvertakenStores(r);
  }

  lemma OvertakenStores(r: Request)
    ensures
      var s, s' := Overtaken(r), Do(Overtaken(r), WorkerMicro);
      && Recorded(s, Error) && s.keys.record.value.pid == None
      && Recorded(s', Started) && s'.keys.record.value.pid == Some(s.workerPid)
  {}

  /** The worker is about to store the end of the job. */
  function Ending(r: Request): State {
    Submitted(r).(worker := Finished, ww := Holding(Msg(r, Done), StartedRec(r)),
                  keys := Keys(Some(StartedRec(r)), true, false))
  }

  function StartedRec(r: Request): Record {
    Rec(r, Accepted, 0).(status := Known(Started), jobStart := Some(0), pid := Some(7))
  }

  lemma EndingRead(r: Request)
    ensures Run(Reading(r), [WorkerMicro, Begin(Msg(r, Done), false), WorkerMicro, WorkerMicro]) == Ending(r)
  {
    Run4(Reading(r), WorkerMicro, Begin(Msg(r, Done), false), WorkerMicro, WorkerMicro);
  }

  function EndingLate(r: Request): State {
    Ending(r).(server := Closed, late := true,
               keys := Keys(Some(Rec(r, Error, 0).(jobStart := Some(0))), true, false))
  }

  lemma EndingTimeout(r: Request)
    ensures Run(Ending(r), [Timeout(Msg(r, Error), false), ServerMicro, ServerMicro, ServerMicro]) == EndingLate(r)
  {
    Run4(Ending(r), Timeout(Msg(r, Error), false), ServerMicro, ServerMicro, ServerMicro);
  }

  lemma EndingStores(r: Request)
    ensures
      var s := EndingLate(r);
      Ended(s) && !BeforeEnd(s) && Recorded(s, Error) && Recorded(Do(s, WorkerMicro), Done)
  {}

  /** A late timeout just before the worker stores the end of the job: ERROR is
      recorded, and one command later DONE, with no worker before its end. */
  lemma LateDoneOverwrites(r: Request)
    ensures exists s :: Reached(s) && Ended(s) && !BeforeEnd(s)
              && Recorded(s, Error) && Recorded(Do(s, WorkerMicro), Done)
  {
    hide Do, Run, Submitted, Reading, Ending, EndingLate, Recorded, Ended;
    var start := Start("job", r, 7, 1, 0);
    var a := [Log, Accept(Msg(r, Accepted), false), ServerMicro, ServerMicro] + [ServerMicro];
    var b := [Dispatch, Begin(Msg(r, Started), false), WorkerMicro, WorkerMicro];
    var c := [WorkerMicro, Begin(Msg(r, Done), false), WorkerMicro, WorkerMicro];
    var d := [Timeout(Msg(r, Error), false), ServerMicro, ServerMicro, ServerMicro];
    Submission(r);
    OvertakingRead(r);
    EndingRead(r);
    EndingTimeout(r);
    RunAppend(start, a, b);
    RunAppend(start, a + b, c);
    RunAppend(start, a + b + c, d);
    assert Reached(EndingLate(r));
    hide Reached;
    EndingStores(r);
  }

  /** The worker has stored its start. */
  function Underway(r: Request): State {
    Submitted(r).(worker := Running, keys := Keys(Some(StartedRec(r)), true, false))
  }

  lemma UnderwayFacts(r: Request)
    ensures Do(Reading(r), WorkerMicro) == Underway(r)
    ensures JobDismissal.Kills(Underway(r)) && JobDismissal.InJob(Underway(r)) && Undisturbed(Underway(r))
  {}

  /** A dismissal finds a record that leads to a kill while the worker lives. */
  lemma DismissalKills(r: Request)
    ensures exists s :: Reached(s) && JobDismissal.Kills(s) && JobDismissal.InJob(s) && Undisturbed(s)
  {
    hide Do, Run, Submitted, Reading, Underway;
    var start := Start("job", r, 7, 1, 0);
    var a := [Log, Accept(Msg(r, Accepted), false), ServerMicro, ServerMicro] + [ServerMicro];
    var b := [Dispatch, Begin(Msg(r, Started), false), WorkerMicro, WorkerMicro];
    Submission(r);
    OvertakingRead(r);
    RunAppend(start, a, b);
    RunAppend(start, a + b, [WorkerMicro]);
    UnderwayFacts(r);
    RunFirst(Reading(r), WorkerMicro, []);
    RunNone(Underway(r));
    assert [WorkerMicro] + [] == [WorkerMicro];
    assert Reached(Underway(r));
    hide Reached;
  }

  lemma RunNone(s: State)
    ensures Run(s, []) == s
  {}

  /** The document a killed worker wrote after the deletion of its record. */
  function Leaky(r: Request): State {
    Submitted(r).(worker := Dead, server := Closed, late := true, deleted := true, leaked := true,
                  keys := Keys(None, false, true))
  }

  /** The caller's half: the late error is about to be stored. */
  function Late(r: Request): State {
    Submitted(r).(worker := Born, late := true, server := Failing, sw := Holding(Msg(r, Error), Rec(r, Accepted, 0)))
  }

  lemma LeakingTimeout(r: Request)
    ensures Run(Submitted(r), [Dispatch, Timeout(Msg(r, Error), false), ServerMicro, ServerMicro]) == Late(r)
  {
    Run4(Submitted(r), Dispatch, Timeout(Msg(r, Error), false), ServerMicro, ServerMicro);
  }

  lemma LeakingWrite(r: Request)
    ensures Do(Run(Late(r), [ServerMicro, Delete, Begin(Msg(r, Started), true), WorkerMicro]), Kill) == Leaky(r)
  {
    Run4(Late(r), ServerMicro, Delete, Begin(Msg(r, Started), true), WorkerMicro);
  }

  lemma Leaking(r: Request)
    ensures Run(Submitted(r),
                [Dispatch, Timeout(Msg(r, Error), false), ServerMicro, ServerMicro]
                + [ServerMicro, Delete, Begin(Msg(r, Started), true), WorkerMicro] + [Kill])
            == Leaky(r)
  {
    hide Do, Submitted, Late, Leaky;
    var first := [Dispatch, Timeout(Msg(r, Error), false), ServerMicro, ServerMicro];
    var second := [ServerMicro, Delete, Begin(Msg(r, Started), true), WorkerMicro];
    LeakingTimeout(r);
    LeakingWrite(r);
    RunAppend(Submitted(r), first, second);
    RunAppend(Submitted(r), first + second, [Kill]);
    RunFirst(Run(Late(r), second), Kill, []);
  }

  /** So a response document can outlive its record for good. */
  lemma LeakHappens(r: Request)
    ensures exists s :: Reached(s) && s.keys == Keys(None, false, true)
              && (forall steps :: Undeleted(steps) ==> Run(s, steps).keys == s.keys)
  {
    Submission(r);
    Leaking(r);
    var s := Leaky(r);
    var a := [Log, Accept(Msg(r, Accepted), false), ServerMicro, ServerMicro] + [ServerMicro];
    var b := [Dispatch, Timeout(Msg(r, Error), false), ServerMicro, ServerMicro]
      + [ServerMicro, Delete, Begin(Msg(r, Started), true), WorkerMicro] + [Kill];
    RunAppend(Start("job", r, 7, 1, 0), a, b);
    assert Reached(s);
    forall steps | Undeleted(steps) ensures Run(s, steps).keys == s.keys {
      LeakStays(s, steps);
    }
  }
}
