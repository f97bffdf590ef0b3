/** How many jobs one worker can hold: the bound by its receive timeouts is met
    for every number of them. */
module PoolOutstanding {
  import opened Wrappers
  import opened PoolProtocol
  import opened PoolInvariants
  import opened PoolSafety
  import opened PoolTheorems

  function Outstanding(k: Worker): int {
    |k.sentTo| - k.completed
  }

  ghost predicate AllReady(outbox: seq<ToClient>, n: nat) {
    |outbox| == n && forall i :: 0 <= i < n ==> outbox[i] == Ready
  }

  /** A worker that timed out `turns` times; nothing was polled. */
  ghost predicate Idle(s: State, n: nat, turns: nat, k: Worker) {
    && Reached(s) && s == State(n, None, Client([], [], map[]), map[], map[0 := k], map[])
    && AllReady(k.outbox, turns) && k.timeouts == turns
    && k.phase == AtLoop && k.inbox == [] && k.sentTo == [] && k.completed == 0
  }

  lemma {:induction false} IdleTurns(n: nat, turns: nat) returns (s: State, k: Worker)
    ensures Idle(s, n, turns, k)
    decreases turns
  {
    if turns == 0 {
      var start := Start(n, None);
      assert Reached(start) by { assert start == Run(Start(n, None), []); }
      ReachedStep(start, StartWorker(0));
      s, k := Do(start, StartWorker(0)), NEW_WORKER;
    } else {
      var s0, k0 := IdleTurns(n, turns - 1);
      s, k := IdleTurn(s0, n, turns - 1, k0);
    }
  }

  lemma IdleTurn(s: State, n: nat, turns: nat, k: Worker) returns (s': State, k': Worker)
    requires Idle(s, n, turns, k)
    ensures Idle(s', n, turns + 1, k')
  {
    var k1, k2 := LoopTop(None, k), ReceiveTimeout(LoopTop(None, k));
    k' := Check(k2, false);
    var s1 := WorkerMoves(s, TopStep, k1);
    var s2 := WorkerMoves(s1, RecvTimeoutStep, k2);
    s' := WorkerMoves(s2, CheckStep(false), k');
  }

  lemma WorkerMoves(s: State, a: WorkerStep, k': Worker) returns (s': State)
    requires Reached(s) && s.workers.Keys == {0} && k' == DoWorker(s.maxcycles, s.workers[0], a)
    ensures Reached(s') && s' == s.(workers := map[0 := k'])
  {
    ReachedStep(s, WorkerDoes(0, a));
    s' := Do(s, WorkerDoes(0, a));
    hide DoWorker;
    assert s.workers[0 := k'] == map[0 := k'];
  }

  /** `jobs` of its READYs were polled, each giving it one job to wait for. */
  ghost predicate Loaded(s: State, n: nat, jobs: nat) {
    && Reached(s) && s.maxqueue == n && s.workers.Keys == {0} && jobs <= n + 1
    && s.client.queue == [] && s.client.listed == [] && |s.client.handlers| == jobs
    && (forall id :: id in s.client.handlers ==> id < jobs)
    && (forall id :: id in s.sent ==> id < jobs) && (forall r :: r in s.requests ==> r < jobs)
    && var k := s.workers[0];
       k.phase == Receiving && k.timeouts == n && k.completed == 0
       && AllReady(k.outbox, n + 1 - jobs) && |k.inbox| == jobs && |k.sentTo| == jobs
  }

  lemma {:induction false} Load(n: nat, jobs: nat) returns (s: State)
    requires jobs <= n + 1
    ensures Loaded(s, n, jobs)
    decreases jobs
  {
    if jobs == 0 {
      var s0, k0 := IdleTurns(n, n);
      s := WorkerMoves(s0, TopStep, LoopTop(None, k0));
    } else {
      var before := Load(n, jobs - 1);
      s := LoadOne(before, n, jobs - 1);
    }
  }

  lemma LoadOne(s: State, n: nat, jobs: nat) returns (s': State)
    requires Loaded(s, n, jobs) && jobs <= n
    ensures Loaded(s', n, jobs + 1)
  {
    var listed := PollReady(s, n, jobs);
    var waiting := Ask(listed, n, jobs);
    s' := Serve(waiting, n, jobs);
  }

  /** The next READY lists the worker. */
  lemma PollReady(s: State, n: nat, jobs: nat) returns (s': State)
    requires Loaded(s, n, jobs) && jobs <= n
    ensures Reached(s') && s'.workers.Keys == {0}
    ensures AllReady(s'.workers[0].outbox, n - jobs)
    ensures s'.client == s.client.(queue := [0], listed := [0])
    ensures s' == s.(client := s'.client, workers := s'.workers)
    ensures s'.workers[0] == s.workers[0].(outbox := s'.workers[0].outbox, accepted := s'.workers[0].accepted)
  {
    ReachedStep(s, PollStep(0));
    s' := Do(s, PollStep(0));
  }

  /** A call is submitted, passes the queue check and takes the worker. */
  lemma Ask(s: State, n: nat, jobs: nat) returns (s': State)
    requires Reached(s) && s.maxqueue == n && |s.client.handlers| <= jobs <= n
    requires s.client.queue == [0] && jobs !in s.requests
    ensures Reached(s')
    ensures s' == s.(requests := s.requests[jobs := Request("f", Holding(0))], client := s.client.(queue := []))
  {
    var s1 := Do(s, Submit(jobs, "f"));
    var s2 := Do(s1, BeginStep(jobs));
    ReachedStep(s, Submit(jobs, "f"));
    ReachedStep(s1, BeginStep(jobs));
    ReachedStep(s2, PopStep(jobs));
    s' := Do(s2, PopStep(jobs));
    assert s2.requests == s.requests[jobs := Request("f", Waiting)];
    assert s'.requests == s.requests[jobs := Request("f", Holding(0))];
  }

  /** The worker is handed out and sent the job. */
  lemma Serve(s: State, n: nat, jobs: nat) returns (s': State)
    requires Reached(s) && s.maxqueue == n && s.workers.Keys == {0} && jobs <= n
    requires s.client.queue == [] && s.client.listed == [0] && |s.client.handlers| == jobs
    requires forall id :: id in s.client.handlers ==> id < jobs
    requires (forall id :: id in s.sent ==> id < jobs) && (forall r :: r in s.requests ==> r <= jobs)
    requires jobs in s.requests && s.requests[jobs].stage == Holding(0)
    requires
      var k := s.workers[0];
      k.phase == Receiving && k.timeouts == n && k.completed == 0
      && AllReady(k.outbox, n - jobs) && |k.inbox| == jobs && |k.sentTo| == jobs
    ensures Loaded(s', n, jobs + 1)
  {
    ReachedStep(s, ClaimStep(jobs, jobs, true));
    s' := Do(s, ClaimStep(jobs, jobs, true));
    hide Reached;
    assert s'.client.handlers == s.client.handlers[jobs := jobs];
  }

  /** The bound is met: for every number of timeouts a worker of some run holds
      one job more, all of them waiting. */
  lemma BoundIsExact(n: nat)
    ensures exists s :: Reached(s) && 0 in s.workers && s.workers[0].timeouts == n
              && |s.workers[0].inbox| == n + 1 && Outstanding(s.workers[0]) == n + 1
  {
    var s := Load(n, n + 1);
  }

  ghost predicate OneJob(s: State, w: WorkerId, n: nat) {
    Reached(s) && w in s.workers && s.workers[w].timeouts == n ==> Outstanding(s.workers[w]) <= 1
  }

  /** So a worker holds one job at most, on all runs, exactly when its receive
      has never timed out. */
  lemma OneJobIff(n: nat)
    ensures (forall s, w :: OneJob(s, w, n)) <==> n == 0
  {
    hide Reached;
    if n == 0 {
      forall s, w ensures OneJob(s, w, n) {
        if Reached(s) && w in s.workers { OutstandingBound(s, w); }
      }
    } else {
      BoundIsExact(n);
      var s :| Reached(s) && 0 in s.workers && s.workers[0].timeouts == n && Outstanding(s.workers[0]) == n + 1;
      assert !OneJob(s, 0, n);
    }
  }
}
