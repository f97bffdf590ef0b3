/** What every reachable state of the worker-pool protocol satisfies. */
module PoolInvariants {
  import opened Wrappers
  import opened PoolProtocol

  // ---- One worker ------------------------------------------------------

  ghost predicate NoDup<T>(s: seq<T>) {
    forall i, j :: 0 <= i < j < |s| ==> s[i] != s[j]
  }

  predicate Alive(k: Worker) {
    !k.phase.Exited?
  }

  /** Ids sent to a worker and not yet answered to the client, oldest first:
      replies on their way, the job running, jobs waiting, ids lost. */
  ghost function Held(k: Worker): seq<CorrId> {
    Replies(k.outbox) + Unanswered(k)
  }

  ghost function Unanswered(k: Worker): seq<CorrId> {
    RunningIds(k.phase) + Ids(k.inbox) + k.lost
  }

  /** The pipeline: what was sent is what was polled, then what is held; and
      it is what was received, then what waits or was lost. */
  ghost predicate Pipeline(k: Worker) {
    && NoDup(Ids(k.sentTo))
    && Ids(k.sentTo) == k.polled + Held(k)
    && (if Alive(k) then k.lost == [] && k.sentTo == k.received + k.inbox
        else k.inbox == [] && k.received <= k.sentTo)
    && k.completed <= |k.received|
    && (Alive(k) ==> |k.received| == k.completed + |RunningIds(k.phase)|)
    && (k.phase.Running? ==> k.received[k.completed] == k.phase.job)
  }

  /** Each reply carries what its own job gave. */
  ghost predicate Faithful(k: Worker) {
    && (forall i :: 0 <= i < |k.outbox| ==> Carries(k.computed, k.outbox[i]))
    && (forall i :: 0 <= i < |k.polled| ==> k.polled[i] in k.computed)
    && (forall id :: id in k.computed ==> Finished(k.received, k.completed, Job(id, k.computed[id].0)))
  }

  ghost predicate Carries(computed: map<CorrId, (Payload, Outcome)>, m: ToClient) {
    m.Reply? ==> m.id in computed && computed[m.id].1 == m.outcome
  }

  /** The job was received and ran to its end. */
  ghost predicate Finished(received: seq<Job>, completed: nat, job: Job) {
    exists i :: 0 <= i < completed <= |received| && received[i] == job
  }

  /** DONE is the last message of a worker, and only a gone worker sent it. */
  ghost predicate DoneLast(k: Worker) {
    && (forall i :: 0 <= i < |k.outbox| && k.outbox[i].Done? ==> i == |k.outbox| - 1 && !Alive(k) && !k.doneSeen)
    && (k.doneSeen ==> !Alive(k) && k.outbox == [])
  }

  ghost predicate Cycles(maxcycles: Option<nat>, k: Worker) {
    && (k.phase.Receiving? ==> MayLoop(maxcycles, k.completed))
    && (maxcycles.Some? ==> |k.received| <= maxcycles.value && k.completed <= maxcycles.value)
  }

  /** One READY per turn of the loop; a turn completes a job, times out or is
      the present one. */
  ghost predicate Heartbeat(k: Worker) {
    && k.accepted + multiset(k.outbox)[Ready] <= k.readies
    && k.readies <= k.completed + k.timeouts + (if k.phase.AtLoop? || k.phase.Checking? then 0 else 1)
  }

  /** The books of a worker against its being listed. */
  ghost predicate Books(k: Worker, listed: bool) {
    && k.accepted == k.handouts + k.removals + (if listed then 1 else 0)
    && k.handouts == |k.sentTo| + k.bounced
    && (k.doneSeen ==> !listed)
  }

  ghost predicate WorkerInv(maxcycles: Option<nat>, k: Worker) {
    Pipeline(k) && Faithful(k) && DoneLast(k) && Cycles(maxcycles, k) && Heartbeat(k)
  }

  // ---- Sequences of ids ------------------------------------------------

  lemma IdsConcat(a: seq<Job>, b: seq<Job>)
    ensures Ids(a + b) == Ids(a) + Ids(b)
  {}

  lemma {:induction false} RepliesConcat(a: seq<ToClient>, b: seq<ToClient>)
    ensures Replies(a + b) == Replies(a) + Replies(b)
  {
    if a == [] {
      assert a + b == b;
    } else {
      var t := a[1..];
      assert (a + b)[0] == a[0] && (a + b)[1..] == t + b;
      RepliesConcat(t, b);
      var head := if a[0].Reply? then [a[0].id] else [];
      assert Replies(a + b) == head + Replies(t + b) && Replies(a) == head + Replies(t);
      hide Replies;
    }
  }

  lemma TailCount<T>(s: seq<T>, x: T)
    requires s != []
    ensures multiset(s)[x] == multiset(s[1..])[x] + if s[0] == x then 1 else 0
  {
    assert s == [s[0]] + s[1..];
  }

  lemma PrefixCount<T>(s: seq<T>, n: nat, x: T)
    requires n <= |s|
    ensures multiset(s[..n])[x] <= multiset(s)[x]
  {
    assert s == s[..n] + s[n..];
  }

  lemma RepliesSingle(m: ToClient)
    ensures Replies([m]) == if m.Reply? then [m.id] else []
  {
    assert [m][1..] == [];
  }

  // ---- Steps of one worker ---------------------------------------------

  lemma ExitKeeps(maxcycles: Option<nat>, k: Worker)
    requires WorkerInv(maxcycles, k) && Alive(k)
    ensures WorkerInv(maxcycles, Exit(k))
  {
    var k' := Exit(k);
    assert Pipeline(k') by {
      hide Faithful, DoneLast, Cycles, Heartbeat;
      assert Unanswered(k') == Unanswered(k);
    }
    hide Pipeline;
  }

  /** A message other than a reply does not show among the ids held. */
  lemma SilentHeld(k: Worker, m: ToClient)
    requires !m.Reply?
    ensures Replies(k.outbox + [m]) == Replies(k.outbox)
    ensures Pipeline(k) ==> Pipeline(k.(outbox := k.outbox + [m]))
  {
    RepliesConcat(k.outbox, [m]);
    RepliesSingle(m);
  }

  lemma LoopTopPipeline(maxcycles: Option<nat>, k: Worker)
    requires Pipeline(k) && k.phase.AtLoop? && MayLoop(maxcycles, k.completed)
    ensures Pipeline(LoopTop(maxcycles, k))
  {
    SilentHeld(k, Ready);
    hide NoDup, Replies, Ids;
    assert Held(LoopTop(maxcycles, k)) == Held(k);
  }

  lemma LoopTopKeeps(maxcycles: Option<nat>, k: Worker)
    requires WorkerInv(maxcycles, k)
    ensures WorkerInv(maxcycles, LoopTop(maxcycles, k))
  {
    hide Pipeline;
    if k.phase.AtLoop? {
      if MayLoop(maxcycles, k.completed) {
        LoopTopPipeline(maxcycles, k);
      } else {
        ExitKeeps(maxcycles, k);
      }
    }
  }

  lemma ReceivePipeline(k: Worker)
    requires Pipeline(k)
    ensures Pipeline(Receive(k))
  {
    var k' := Receive(k);
    if k != k' {
      var job := k.inbox[0];
      assert k.inbox == [job] + k'.inbox;
      IdsConcat([job], k'.inbox);
      assert Ids([job]) == [job.id];
      assert Unanswered(k') == Unanswered(k);
      assert k.received + k.inbox == k'.received + k'.inbox;
    }
  }

  lemma ReceiveKeeps(maxcycles: Option<nat>, k: Worker)
    requires WorkerInv(maxcycles, k)
    ensures WorkerInv(maxcycles, Receive(k))
  {
    ReceivePipeline(k);
    var k' := Receive(k);
    assert Faithful(k') by {
      hide DoneLast, Cycles, Heartbeat;
      forall job | Finished(k.received, k.completed, job) ensures Finished(k'.received, k'.completed, job) {
        var i :| 0 <= i < k.completed && k.received[i] == job;
        assert k'.received[i] == job;
      }
    }
    assert Cycles(maxcycles, k') && Heartbeat(k');
    hide Faithful, Pipeline;
  }

  lemma FinishPipeline(k: Worker, o: Outcome)
    requires Pipeline(k)
    ensures Pipeline(Finish(k, o))
  {
    hide NoDup, Ids, Replies;
    if k.phase.Running? {
      var m, k' := Reply(k.phase.job.id, o), Finish(k, o);
      RepliesConcat(k.outbox, [m]);
      RepliesSingle(m);
      assert Held(k') == Held(k);
    }
  }

  /** The job that runs is none of those that gave a result. */
  lemma RunningIsNew(k: Worker)
    requires Pipeline(k) && Faithful(k) && k.phase.Running?
    ensures k.phase.job.id !in k.computed
  {
    forall id | id in k.computed ensures id != k.phase.job.id {
      assert Finished(k.received, k.completed, Job(id, k.computed[id].0));
      var i :| 0 <= i < k.completed && k.received[i] == Job(id, k.computed[id].0);
      assert Ids(k.sentTo)[i] == id && Ids(k.sentTo)[k.completed] == k.phase.job.id;
    }
  }

  lemma FinishFaithful(k: Worker, o: Outcome)
    requires Pipeline(k) && Faithful(k)
    ensures Faithful(Finish(k, o))
  {
    if k.phase.Running? {
      RunningIsNew(k);
      var job, k' := k.phase.job, Finish(k, o);
      assert k.received[k.completed] == job && |k.received| == k.completed + 1;
      hide Pipeline;
      forall x | Finished(k.received, k.completed, x) ensures Finished(k'.received, k'.completed, x) {
        var i :| 0 <= i < k.completed && k.received[i] == x;
      }
      assert Finished(k'.received, k'.completed, job);
    }
  }

  lemma FinishKeeps(maxcycles: Option<nat>, k: Worker, o: Outcome)
    requires WorkerInv(maxcycles, k)
    ensures WorkerInv(maxcycles, Finish(k, o))
  {
    FinishPipeline(k, o);
    FinishFaithful(k, o);
    var k' := Finish(k, o);
    assert Cycles(maxcycles, k') && Heartbeat(k');
    hide Pipeline, Faithful;
  }

  lemma CheckPipeline(k: Worker, restart: bool)
    requires Pipeline(k)
    ensures Pipeline(Check(k, restart))
  {
    hide NoDup, Replies;
    if k.phase.Checking? && restart {
      var k1 := k.(outbox := k.outbox + [Done]);
      SilentHeld(k, Done);
      assert Unanswered(Exit(k1)) == Unanswered(k1);
    }
  }

  lemma CheckKeeps(maxcycles: Option<nat>, k: Worker, restart: bool)
    requires WorkerInv(maxcycles, k)
    ensures WorkerInv(maxcycles, Check(k, restart))
  {
    CheckPipeline(k, restart);
    hide Pipeline;
  }

  lemma DropPipeline(k: Worker, keep: nat)
    requires Pipeline(k)
    ensures Pipeline(Drop(k, keep))
  {
    var k' := Drop(k, keep);
    if k != k' {
      assert k.outbox == k.outbox[..keep] + k.outbox[keep..];
      RepliesConcat(k.outbox[..keep], k.outbox[keep..]);
      assert Held(k') == Held(k);
    }
  }

  lemma DropKeeps(maxcycles: Option<nat>, k: Worker, keep: nat)
    requires WorkerInv(maxcycles, k)
    ensures WorkerInv(maxcycles, Drop(k, keep))
  {
    DropPipeline(k, keep);
    hide Pipeline;
    if k.phase.Exited? && keep <= |k.outbox| {
      PrefixCount(k.outbox, keep, Ready);
    }
  }

  lemma WorkerStepKeeps(maxcycles: Option<nat>, k: Worker, a: WorkerStep)
    requires WorkerInv(maxcycles, k)
    ensures WorkerInv(maxcycles, DoWorker(maxcycles, k, a))
  {
    match a
    case TopStep => LoopTopKeeps(maxcycles, k);
    case RecvTimeoutStep =>
    case RecvStep => ReceiveKeeps(maxcycles, k);
    case FinishStep(o) => FinishKeeps(maxcycles, k, o);
    case CheckStep(restart) => CheckKeeps(maxcycles, k, restart);
    case KillStep => if Alive(k) { ExitKeeps(maxcycles, k); }
    case DropStep(keep) => DropKeeps(maxcycles, k, keep);
  }

  lemma DeliverHeld(k: Worker, job: Job)
    requires Alive(k) ==> k.lost == []
    ensures Held(Deliver(k, job)) == Held(k) + [job.id]
  {
    IdsConcat(k.inbox, [job]);
    assert Ids([job]) == [job.id];
    assert Unanswered(Deliver(k, job)) == Unanswered(k) + [job.id];
  }

  lemma NoDupAppend<T>(s: seq<T>, x: T)
    requires NoDup(s) && x !in s
    ensures NoDup(s + [x])
  {}

  lemma DeliverPipeline(k: Worker, job: Job)
    requires Pipeline(k) && job.id !in Ids(k.sentTo)
    ensures Pipeline(Deliver(k, job))
  {
    hide NoDup, Held, Replies;
    var k' := Deliver(k, job);
    DeliverHeld(k, job);
    NoDupAppend(Ids(k.sentTo), job.id);
    IdsConcat(k.sentTo, [job]);
    assert Ids([job]) == [job.id];
    hide Ids;
    assert Ids(k'.sentTo) == k'.polled + Held(k');
    if Alive(k) {
      assert k'.sentTo == k'.received + k'.inbox;
    }
  }

  lemma DeliverKeeps(maxcycles: Option<nat>, k: Worker, job: Job)
    requires WorkerInv(maxcycles, k) && job.id !in Ids(k.sentTo)
    ensures WorkerInv(maxcycles, Deliver(k, job))
  {
    DeliverPipeline(k, job);
    hide Pipeline;
  }

  lemma ReplyHead(outbox: seq<ToClient>)
    requires outbox != []
    ensures Replies(outbox) == Replies([outbox[0]]) + Replies(outbox[1..])
  {
    RepliesSingle(outbox[0]);
  }

  lemma Regroup<T>(a: seq<T>, b: seq<T>, c: seq<T>, d: seq<T>)
    ensures a + ((b + c) + d) == (a + b) + (c + d)
  {}

  /** Polling moves the boundary between polled and held. */
  lemma PolledHeld(k: Worker, accepted: nat, removals: nat)
    requires k.outbox != []
    ensures Polled(k, accepted, removals).polled + Held(Polled(k, accepted, removals)) == k.polled + Held(k)
  {
    var head := Replies([k.outbox[0]]);
    ReplyHead(k.outbox);
    RepliesSingle(k.outbox[0]);
    Regroup(k.polled, head, Replies(k.outbox[1..]), Unanswered(k));
    assert Polled(k, accepted, removals).polled == k.polled + head;
  }

  lemma PolledPipeline(k: Worker, accepted: nat, removals: nat)
    requires Pipeline(k) && k.outbox != []
    ensures Pipeline(Polled(k, accepted, removals))
  {
    PolledHeld(k, accepted, removals);
  }

  lemma PolledFaithful(k: Worker, accepted: nat, removals: nat)
    requires Faithful(k) && k.outbox != []
    ensures Faithful(Polled(k, accepted, removals))
  {
    var k' := Polled(k, accepted, removals);
    assert Carries(k.computed, k.outbox[0]);
    forall i | 0 <= i < |k'.outbox| ensures Carries(k'.computed, k'.outbox[i]) {
      assert Carries(k.computed, k.outbox[i + 1]);
    }
  }

  lemma PolledDoneLast(k: Worker, accepted: nat, removals: nat)
    requires DoneLast(k) && k.outbox != []
    ensures DoneLast(Polled(k, accepted, removals))
  {
    var k' := Polled(k, accepted, removals);
    assert forall i :: 0 <= i < |k'.outbox| ==> k'.outbox[i] == k.outbox[i + 1];
    assert k.outbox[0].Done? ==> |k.outbox| == 1;
  }

  lemma PolledHeartbeat(k: Worker, accepted: nat, removals: nat)
    requires Heartbeat(k) && k.outbox != [] && accepted <= k.accepted + 1
    ensures Heartbeat(Polled(k, accepted, removals))
  {
    TailCount(k.outbox, Ready);
  }

  lemma PolledKeeps(maxcycles: Option<nat>, k: Worker, accepted: nat, removals: nat)
    requires WorkerInv(maxcycles, k) && k.outbox != [] && accepted <= k.accepted + 1
    ensures WorkerInv(maxcycles, Polled(k, accepted, removals))
  {
    hide Pipeline, Faithful, DoneLast, Heartbeat;
    PolledPipeline(k, accepted, removals);
    PolledFaithful(k, accepted, removals);
    PolledDoneLast(k, accepted, removals);
    PolledHeartbeat(k, accepted, removals);
  }
}
