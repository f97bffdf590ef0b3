/** How many jobs a worker can come to hold from a given state if its receive
    does not time out again. */
module PoolPotential {
  import opened Wrappers
  import opened PoolProtocol
  import opened PoolInvariants
  import opened PoolSafety
  import opened PoolTheorems
  import opened PoolOutstanding

  // ---- The potential ---------------------------------------------------

  /** The worker is on its way to send another READY. */
  function Pending(maxcycles: Option<nat>, k: Worker): nat {
    if (k.phase.AtLoop? || k.phase.Checking?) && MayLoop(maxcycles, k.completed) then 1 else 0
  }

  /** What the worker's own side adds up to: READYs in its channel or to come,
      and jobs sent to it and not completed. */
  function OwnPotential(maxcycles: Option<nat>, k: Worker): int {
    multiset(k.outbox)[Ready] + Pending(maxcycles, k) + Outstanding(k)
  }

  function Potential(s: State, w: WorkerId): int
    requires w in s.workers
  {
    OwnPotential(s.maxcycles, s.workers[w]) + if w in s.client.listed then 1 else 0
  }

  /** The worker's receive does not time out. */
  predicate NoTimeouts(steps: seq<Step>, w: WorkerId) {
    forall i :: 0 <= i < |steps| ==> steps[i] != WorkerDoes(w, RecvTimeoutStep)
  }

  // ---- It never grows --------------------------------------------------

  lemma OwnStep(maxcycles: Option<nat>, k: Worker, a: WorkerStep)
    requires a != RecvTimeoutStep
    ensures OwnPotential(maxcycles, DoWorker(maxcycles, k, a)) <= OwnPotential(maxcycles, k)
  {
    match a
    case TopStep => hide Receive, Finish, Check, Drop;
    case RecvStep => hide LoopTop, Finish, Check, Drop;
    case FinishStep(_) => hide LoopTop, Receive, Check, Drop;
    case CheckStep(_) => hide LoopTop, Receive, Finish, Drop;
    case KillStep => hide LoopTop, Receive, Finish, Check, Drop;
    case DropStep(keep) =>
      if keep <= |k.outbox| { PrefixCount(k.outbox, keep, Ready); }
      hide LoopTop, Receive, Finish, Check;
    case _ =>
  }

  lemma PollPotential(s: State, w: WorkerId)
    requires NoDup(s.client.listed) && w in s.workers && s.workers[w].outbox != []
    ensures
      var k, s' := s.workers[w], Poll(s, w);
      && w in s'.workers && s'.workers[w].outbox == k.outbox[1..] && s'.maxcycles == s.maxcycles
      && Outstanding(s'.workers[w]) == Outstanding(k) && s'.workers[w].phase == k.phase
      && Potential(s', w) <= Potential(s, w)
      && (k.outbox[0].Ready? ==> w in s'.client.listed)
      && (k.outbox[0].Reply? ==> (w in s'.client.listed <==> w in s.client.listed))
      && (!k.outbox[0].Done? && !(k.outbox[0].Ready? && w in s.client.listed) ==> Potential(s', w) == Potential(s, w))
  {
    TailCount(s.workers[w].outbox, Ready);
    RemoveFacts(s.client.listed, w);
    hide Remove, NoDup;
  }

  lemma PollOther(s: State, w: WorkerId, x: WorkerId)
    requires NoDup(s.client.listed) && w in s.workers && x != w
    ensures w in Poll(s, x).workers && Poll(s, x).maxcycles == s.maxcycles
    ensures Poll(s, x).workers[w] == s.workers[w] && (w in Poll(s, x).client.listed <==> w in s.client.listed)
  {
    RemoveFacts(s.client.listed, x);
    hide Remove, NoDup, Polled;
  }

  lemma ClaimPotential(s: State, w: WorkerId, r: ReqId, id: CorrId, delivered: bool)
    requires NoDup(s.client.listed) && w in s.workers
    ensures
      var s' := Claim(s, r, id, delivered);
      w in s'.workers && Potential(s', w) <= Potential(s, w)
  {
    if r in s.requests && s.requests[r].stage.Holding? {
      RemoveFacts(s.client.listed, s.requests[r].stage.worker);
    }
    hide Remove, NoDup;
  }

  lemma PotentialStep(s: State, step: Step, w: WorkerId)
    requires NoDup(s.client.listed) && w in s.workers && step != WorkerDoes(w, RecvTimeoutStep)
    ensures w in Do(s, step).workers && Potential(Do(s, step), w) <= Potential(s, w)
  {
    match step
    case WorkerDoes(x, a) => if x == w { OwnStep(s.maxcycles, s.workers[w], a); } hide DoWorker, OwnPotential;
    case PollStep(x) =>
      if x != w { PollOther(s, w, x); } else if s.workers[w].outbox != [] { PollPotential(s, w); }
      hide Poll, OwnPotential;
    case ClaimStep(r, id, delivered) => ClaimPotential(s, w, r, id, delivered); hide Claim, OwnPotential;
    case _ => hide OwnPotential;
  }

  lemma {:induction false} NeverGrows(s: State, steps: seq<Step>, w: WorkerId)
    requires Reached(s) && w in s.workers && NoTimeouts(steps, w)
    ensures w in Run(s, steps).workers && Potential(Run(s, steps), w) <= Potential(s, w)
  {
    hide Do, Potential, Reached;
    if steps != [] {
      var n := |steps| - 1;
      NeverGrows(s, steps[..n], w);
      ReachedRun(s, steps[..n]);
      ReachedNoDup(Run(s, steps[..n]));
      PotentialStep(Run(s, steps[..n]), steps[n], w);
    }
  }

  lemma ReachedNoDup(s: State)
    requires Reached(s)
    ensures NoDup(s.client.listed)
  {
    ReachedInv(s);
    hide RequestsInv, WorkersInv, NoDup, Reached;
  }

  lemma OutstandingWithin(s: State, w: WorkerId)
    requires w in s.workers
    ensures Outstanding(s.workers[w]) <= Potential(s, w)
  {}

  // ---- It can be used up -----------------------------------------------

  /** A continuation that leaves the worker as it is. */
  ghost predicate Aside(s: State, steps: seq<Step>, w: WorkerId) {
    var s' := Run(s, steps);
    && NoTimeouts(steps, w) && Reached(s') && s'.maxcycles == s.maxcycles && s'.maxqueue == s.maxqueue
    && w in s.workers && w in s'.workers && s'.workers[w] == s.workers[w]
    && (w in s'.client.listed <==> w in s.client.listed)
  }

  /** A continuation after which the worker has one job more at the same
      potential. */
  ghost predicate Feeds(s: State, steps: seq<Step>, w: WorkerId) {
    var s' := Run(s, steps);
    && NoTimeouts(steps, w) && Reached(s') && w in s.workers && w in s'.workers
    && Outstanding(s'.workers[w]) == Outstanding(s.workers[w]) + 1 && Potential(s', w) == Potential(s, w)
    && (Alive(s.workers[w]) ==> Alive(s'.workers[w]))
  }

  lemma RunOn(s: State, step: Step, rest: seq<Step>)
    requires Reached(s)
    ensures Reached(Do(s, step)) && Run(s, [step] + rest) == Run(Do(s, step), rest)
  {
    hide Do;
    ReachedStep(s, step);
    RunConcat(s, [step], rest);
    assert [step][..0] == [];
    assert Run(s, [step]) == Do(s, step);
  }

  /** Every handled call may time out and clean up. */
  lemma {:induction false} Emptying(s: State, w: WorkerId) returns (steps: seq<Step>)
    requires Reached(s) && w in s.workers
    ensures Aside(s, steps, w)
    ensures
      var s' := Run(s, steps);
      s'.client == s.client.(handlers := map[])
    decreases |s.client.handlers|
  {
    if s.client.handlers == map[] {
      steps := [];
    } else {
      var id :| id in s.client.handlers;
      var r := HandledStage(s, id);
      var s1 := Do(s, ReplyTimeoutStep(r));
      var s2 := Do(s1, CleanupStep(r));
      TimingOut(s, id, r);
      hide Do;
      RunOn(s, ReplyTimeoutStep(r), []);
      RunOn(s1, CleanupStep(r), []);
      var rest := Emptying(s2, w);
      RunOn(s1, CleanupStep(r), rest);
      RunOn(s, ReplyTimeoutStep(r), [CleanupStep(r)] + rest);
      steps := [ReplyTimeoutStep(r)] + ([CleanupStep(r)] + rest);
      hide Reached;
    }
  }

  lemma TimingOut(s: State, id: CorrId, r: ReqId)
    requires id in s.client.handlers
    requires r in s.requests && (s.requests[r].stage == Sent(id) || s.requests[r].stage == Cancelled(id))
    ensures
      var s2 := Do(Do(s, ReplyTimeoutStep(r)), CleanupStep(r));
      && s2 == s.(client := s.client.(handlers := s.client.handlers - {id}), requests := s2.requests)
      && |s2.client.handlers| < |s.client.handlers|
  {
    var s2 := Do(Do(s, ReplyTimeoutStep(r)), CleanupStep(r));
    assert s.client.handlers == s2.client.handlers[id := s.client.handlers[id]];
  }

  lemma HandledStage(s: State, id: CorrId) returns (r: ReqId)
    requires Reached(s) && id in s.client.handlers
    ensures r in s.requests && (s.requests[r].stage == Sent(id) || s.requests[r].stage == Cancelled(id))
  {
    ReachedInv(s);
    hide WorkersInv, ListInv, Reached;
    IdFacts(s, id);
    r := s.sent[id].req;
  }

  /** A number not in use: above all that are. */
  lemma {:induction false} Above(used: set<nat>) returns (n: nat)
    ensures forall x :: x in used ==> x < n
    decreases |used|
  {
    if used == {} {
      n := 0;
    } else {
      var x :| x in used;
      var m := Above(used - {x});
      n := if m <= x then x + 1 else m;
      assert used == (used - {x}) + {x};
    }
  }

  /** A new call passes the queue check and takes the head of the queue. */
  lemma Taking(s: State, w: WorkerId) returns (steps: seq<Step>, r: ReqId)
    requires Reached(s) && w in s.workers && s.client.handlers == map[] && s.client.queue != []
    ensures Aside(s, steps, w)
    ensures
      var s' := Run(s, steps);
      && r in s'.requests && s'.requests[r].stage == Holding(s.client.queue[0]) && s'.sent == s.sent
      && s'.client == s.client.(queue := s.client.queue[1..])
  {
    r := Above(s.requests.Keys);
    var s1 := Do(s, Submit(r, "f"));
    var s2 := Do(s1, BeginStep(r));
    TakingSteps(s, r);
    hide Do;
    RunOn(s, Submit(r, "f"), [BeginStep(r)] + [PopStep(r)]);
    RunOn(s1, BeginStep(r), [PopStep(r)]);
    RunOn(s2, PopStep(r), []);
    assert [PopStep(r)] + [] == [PopStep(r)];
    steps := [Submit(r, "f")] + ([BeginStep(r)] + [PopStep(r)]);
    var s3 := Do(s2, PopStep(r));
    assert Run(s3, []) == s3;
    hide Reached;
  }

  lemma TakingSteps(s: State, r: ReqId)
    requires r !in s.requests && s.client.handlers == map[] && s.client.queue != []
    ensures
      var s3 := Do(Do(Do(s, Submit(r, "f")), BeginStep(r)), PopStep(r));
      && s3 == s.(requests := s3.requests, client := s.client.(queue := s.client.queue[1..]))
      && r in s3.requests && s3.requests[r].stage == Holding(s.client.queue[0])
  {
    var s1 := Do(s, Submit(r, "f"));
    var s2 := Do(s1, BeginStep(r));
    assert s2 == s.(requests := s2.requests) && r in s2.requests && s2.requests[r].stage == Waiting;
  }

  /** A call that holds a listed worker hands it a job. */
  lemma Handing(s: State, w: WorkerId, r: ReqId) returns (steps: seq<Step>)
    requires Reached(s) && w in s.workers && w in s.client.listed
    requires r in s.requests && s.requests[r].stage == Holding(w)
    ensures Feeds(s, steps, w)
  {
    var id := Above(s.sent.Keys);
    var step := ClaimStep(r, id, true);
    RunOn(s, step, []);
    ReachedNoDup(s);
    RemoveFacts(s.client.listed, w);
    steps := [step];
    assert [step] + [] == [step] && Run(Do(s, step), []) == Do(s, step);
    hide Reached, Remove, NoDup;
  }

  lemma AsideThenFeeds(s: State, first: seq<Step>, rest: seq<Step>, w: WorkerId)
    requires Aside(s, first, w) && Feeds(Run(s, first), rest, w)
    ensures Feeds(s, first + rest, w)
  {
    RunConcat(s, first, rest);
    hide Run, Reached;
  }

  /** Calls take the queue one entry each, down to the worker's. */
  lemma {:induction false} Reaching(s: State, w: WorkerId) returns (steps: seq<Step>)
    requires Reached(s) && w in s.workers && w in s.client.listed && w in s.client.queue && s.client.handlers == map[]
    ensures Feeds(s, steps, w)
    decreases |s.client.queue|
  {
    var first, r := Taking(s, w);
    var s' := Run(s, first);
    var rest;
    if s.client.queue[0] == w {
      rest := Handing(s', w, r);
    } else {
      assert s.client.queue == [s.client.queue[0]] + s'.client.queue;
      rest := Reaching(s', w);
    }
    AsideThenFeeds(s, first, rest, w);
    steps := first + rest;
  }

  /** A listed worker can be handed a job. */
  lemma FeedListed(s: State, w: WorkerId) returns (steps: seq<Step>)
    requires Reached(s) && w in s.workers && w in s.client.listed
    ensures Feeds(s, steps, w)
  {
    ReachedInv(s);
    assert Reachable(s, w);
    hide Inv, Reached;
    if w in s.client.queue {
      var first := Emptying(s, w);
      var rest := Reaching(Run(s, first), w);
      AsideThenFeeds(s, first, rest, w);
      steps := first + rest;
    } else {
      var r :| r in s.requests && s.requests[r].stage == Holding(w);
      steps := Handing(s, w, r);
    }
  }

  /** A continuation that brings the worker nearer to a job. */
  ghost predicate Keeps(s: State, step: Step, w: WorkerId) {
    var s' := Do(s, step);
    && step != WorkerDoes(w, RecvTimeoutStep) && w in s.workers && w in s'.workers
    && Outstanding(s'.workers[w]) == Outstanding(s.workers[w]) && Potential(s', w) == Potential(s, w)
    && (Alive(s.workers[w]) ==> Alive(s'.workers[w]))
  }

  lemma KeepsThenFeeds(s: State, step: Step, rest: seq<Step>, w: WorkerId)
    requires Reached(s) && Keeps(s, step, w) && Feeds(Do(s, step), rest, w)
    ensures Feeds(s, [step] + rest, w)
  {
    RunOn(s, step, rest);
    hide Do, Run, Reached;
  }

  /** A READY in the channel can be made a job. */
  lemma {:induction false} FeedReady(s: State, w: WorkerId) returns (steps: seq<Step>)
    requires Reached(s) && w in s.workers && Ready in s.workers[w].outbox
    ensures Feeds(s, steps, w)
    decreases |s.workers[w].outbox|
  {
    if w in s.client.listed {
      steps := FeedListed(s, w);
    } else {
      var s' := Do(s, PollStep(w));
      ReachedNoDup(s);
      PollPotential(s, w);
      DoneNotFirst(s, w);
      ReachedStep(s, PollStep(w));
      var outbox := s.workers[w].outbox;
      assert outbox == [outbox[0]] + outbox[1..];
      hide Reached;
      var rest;
      if outbox[0].Ready? { rest := FeedListed(s', w); } else { rest := FeedReady(s', w); }
      KeepsThenFeeds(s, PollStep(w), rest, w);
      steps := [PollStep(w)] + rest;
    }
  }

  lemma DoneNotFirst(s: State, w: WorkerId)
    requires Reached(s) && w in s.workers && Ready in s.workers[w].outbox
    ensures !s.workers[w].outbox[0].Done?
  {
    ReachedInv(s);
    WorkerFacts(s, w);
    hide Inv, Reached, Pipeline, Faithful, Cycles, Heartbeat;
    var i :| 0 <= i < |s.workers[w].outbox| && s.workers[w].outbox[i] == Ready;
  }

  /** A worker on its way to the top of the loop sends its READY. */
  lemma FeedPending(s: State, w: WorkerId) returns (steps: seq<Step>)
    requires Reached(s) && w in s.workers && Pending(s.maxcycles, s.workers[w]) == 1
    ensures Feeds(s, steps, w)
    decreases if s.workers[w].phase.Checking? then 1 else 0
  {
    if s.workers[w].phase.Checking? {
      var step := WorkerDoes(w, CheckStep(false));
      ReachedStep(s, step);
      hide Reached;
      var rest := FeedPending(Do(s, step), w);
      KeepsThenFeeds(s, step, rest, w);
      steps := [step] + rest;
    } else {
      var step := WorkerDoes(w, TopStep);
      ReachedStep(s, step);
      hide Reached;
      var s' := Do(s, step);
      assert s'.workers[w].outbox[|s.workers[w].outbox|] == Ready;
      var rest := FeedReady(s', w);
      KeepsThenFeeds(s, step, rest, w);
      steps := [step] + rest;
    }
  }

  lemma {:induction false} Filling(s: State, w: WorkerId, n: int) returns (steps: seq<Step>)
    requires Reached(s) && w in s.workers && n <= Potential(s, w)
    ensures Owes(s, steps, w, n) && (Alive(s.workers[w]) ==> Alive(Run(s, steps).workers[w]))
    decreases n - Outstanding(s.workers[w])
  {
    if n <= Outstanding(s.workers[w]) {
      steps := [];
    } else {
      var first;
      if w in s.client.listed {
        first := FeedListed(s, w);
      } else if Ready in s.workers[w].outbox {
        first := FeedReady(s, w);
      } else {
        first := FeedPending(s, w);
      }
      hide Reached, Potential;
      var rest := Filling(Run(s, first), w, n);
      RunConcat(s, first, rest);
      steps := first + rest;
    }
  }

  // ---- The theorems ----------------------------------------------------

  /** A continuation in which the receive of the worker does not time out, after
      which `n` jobs were sent to it and not completed. */
  ghost predicate Owes(s: State, steps: seq<Step>, w: WorkerId, n: int) {
    NoTimeouts(steps, w) && w in Run(s, steps).workers && Outstanding(Run(s, steps).workers[w]) >= n
  }

  /** From any reachable state `n` jobs can come to be sent to a worker and not
      completed, those lost with it included, with no further receive timeout,
      exactly when its READYs in flight or to come, its listing and the jobs
      already so number `n` or more. */
  lemma OwesIff(s: State, w: WorkerId, n: int)
    requires Reached(s) && w in s.workers
    ensures (exists steps :: Owes(s, steps, w, n)) <==> n <= Potential(s, w)
  {
    hide Reached, Potential, Run;
    if n <= Potential(s, w) {
      var steps := Filling(s, w, n);
    } else {
      forall steps | NoTimeouts(steps, w) ensures !Owes(s, steps, w, n) {
        NeverGrows(s, steps, w);
        OutstandingWithin(Run(s, steps), w);
      }
    }
  }

  /** The jobs in the worker's process: running and waiting. */
  function JobsOf(k: Worker): nat {
    |RunningIds(k.phase)| + |k.inbox|
  }

  /** A continuation in which the receive of the worker does not time out, after
      which it holds `n` jobs. */
  ghost predicate Holds(s: State, steps: seq<Step>, w: WorkerId, n: nat) {
    NoTimeouts(steps, w) && w in Run(s, steps).workers && JobsOf(Run(s, steps).workers[w]) >= n
  }

  lemma JobsOfWorker(s: State, w: WorkerId)
    requires Reached(s) && w in s.workers
    ensures JobsOf(s.workers[w]) == if Alive(s.workers[w]) then Outstanding(s.workers[w]) else 0
  {
    ReachedInv(s);
    WorkerFacts(s, w);
    hide Inv, Reached, Faithful, DoneLast, Cycles, Heartbeat;
  }

  lemma {:induction false} StaysGone(s: State, steps: seq<Step>, w: WorkerId)
    requires w in s.workers && !Alive(s.workers[w])
    ensures w in Run(s, steps).workers && !Alive(Run(s, steps).workers[w])
  {
    hide Do;
    if steps != [] {
      StaysGone(s, steps[..|steps| - 1], w);
      GoneStep(Run(s, steps[..|steps| - 1]), steps[|steps| - 1], w);
    }
  }

  lemma GoneStep(s: State, step: Step, w: WorkerId)
    requires w in s.workers && !Alive(s.workers[w])
    ensures w in Do(s, step).workers && !Alive(Do(s, step).workers[w])
  {
    hide Handle;
  }

  /** From any reachable state a worker can come to hold `n` jobs with no further
      receive timeout exactly when `n` is zero, or it is alive and its READYs in
      flight or to come, its listing and the jobs it holds number `n` or more. */
  lemma HoldsIff(s: State, w: WorkerId, n: nat)
    requires Reached(s) && w in s.workers
    ensures (exists steps :: Holds(s, steps, w, n)) <==> n == 0 || (Alive(s.workers[w]) && n <= Potential(s, w))
  {
    assert Run(s, []) == s;
    hide Reached, Potential, Run, JobsOf;
    if n == 0 {
      assert Holds(s, [], w, n);
    } else if Alive(s.workers[w]) && n <= Potential(s, w) {
      var steps := Filling(s, w, n);
      ReachedRun(s, steps);
      JobsOfWorker(Run(s, steps), w);
      assert Holds(s, steps, w, n);
    } else {
      forall steps | NoTimeouts(steps, w) ensures !Holds(s, steps, w, n) {
        NeverGrows(s, steps, w);
        ReachedRun(s, steps);
        JobsOfWorker(Run(s, steps), w);
        OutstandingWithin(Run(s, steps), w);
        if !Alive(s.workers[w]) { StaysGone(s, steps, w); }
      }
    }
  }
}
