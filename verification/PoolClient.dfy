/** The imperative side of the pool: `_Client` (pyqgiswps/poolserver/client.py)
    and the loop of `worker_handler` (pyqgiswps/poolserver/worker.py), proved
    against the functions of the protocol. */
module PoolClient {
  import opened Wrappers
  import opened PoolProtocol
  import opened PoolInvariants
  import opened PoolSafety
  import opened PoolTheorems
  import Supervision

  // ---- Taking a worker -------------------------------------------------

  /** `_get_worker` without its waiting: stale entries are thrown away, the
      first listed one is taken; `None` when the queue runs dry. */
  function Take(c: Client): (Option<WorkerId>, Client)
    decreases |c.queue|
  {
    if c.queue == [] then (None, c)
    else
      var rest := c.(queue := c.queue[1..]);
      if c.queue[0] in c.listed then (Some(c.queue[0]), RemoveWorker(rest, c.queue[0])) else Take(rest)
  }

  /** The lists agree: no worker listed twice, every listed worker queued. */
  ghost predicate Lists(c: Client) {
    NoDup(c.listed) && forall w :: w in c.listed ==> w in c.queue
  }

  /** The worker taken is the first queued one that is listed; it leaves the
      list, and the queue loses everything up to it. */
  lemma {:induction false} TakeFirst(c: Client)
    ensures
      var (r, c') := Take(c);
      match r
      case None => c' == c.(queue := []) && forall j :: 0 <= j < |c.queue| ==> c.queue[j] !in c.listed
      case Some(w) => exists i :: 0 <= i < |c.queue| && Took(c, i, w, c')
    decreases |c.queue|
  {
    if c.queue != [] {
      var rest := c.(queue := c.queue[1..]);
      if c.queue[0] in c.listed {
        assert Took(c, 0, c.queue[0], Take(c).1);
      } else {
        TakeFirst(rest);
        if Take(rest).0.Some? {
          var w := Take(rest).0.value;
          var i :| 0 <= i < |rest.queue| && Took(rest, i, w, Take(rest).1);
          assert FirstListed(c, i + 1) by {
            forall j | 0 <= j < i + 1 ensures c.queue[j] !in c.listed {
              if j > 0 { assert rest.queue[j - 1] == c.queue[j]; }
            }
          }
          assert rest.queue[i + 1..] == c.queue[i + 2..];
          assert Took(c, i + 1, w, Take(c).1);
        } else {
          forall j | 0 <= j < |c.queue| ensures c.queue[j] !in c.listed {
            if j > 0 { assert rest.queue[j - 1] == c.queue[j]; }
          }
        }
      }
    }
  }

  ghost predicate FirstListed(c: Client, i: nat) {
    i < |c.queue| && c.queue[i] in c.listed && forall j :: 0 <= j < i ==> c.queue[j] !in c.listed
  }

  ghost predicate Took(c: Client, i: nat, w: WorkerId, c': Client) {
    FirstListed(c, i) && w == c.queue[i] && c' == RemoveWorker(c, w).(queue := c.queue[i + 1..])
  }

  /** With agreeing lists, taking succeeds exactly when some worker is listed,
      and the lists agree afterwards. */
  lemma TakeKeepsLists(c: Client)
    requires Lists(c)
    ensures Take(c).0.Some? <==> c.listed != []
    ensures Lists(Take(c).1)
  {
    TakeFirst(c);
    var (r, c') := Take(c);
    match r
    case None =>
      NonEmpty(c.listed);
    case Some(w) =>
      var i :| 0 <= i < |c.queue| && Took(c, i, w, c');
      RemoveFacts(c.listed, w);
      forall x | x in c'.listed ensures x in c'.queue {
        var j :| 0 <= j < |c.queue| && c.queue[j] == x;
        assert c.queue[i + 1..][j - i - 1] == x;
      }
  }

  lemma NonEmpty<T>(s: seq<T>)
    ensures s == [] || exists x :: x in s
  {
    if s != [] { assert s[0] in s; }
  }

  lemma PutKeepsLists(c: Client, w: WorkerId)
    requires Lists(c)
    ensures Lists(PutWorker(c, w)) && Lists(RemoveWorker(c, w))
  {
    RemoveFacts(c.listed, w);
    forall x | x in PutWorker(c, w).listed ensures x in PutWorker(c, w).queue {
      if x in c.listed { assert x in c.queue; }
    }
  }

  /** Between the calls of `_get_worker` the protocol's lists agree: a listed
      worker not queued is in the hand of a call. */
  lemma ReachedLists(s: State)
    requires Reached(s) && forall r :: r in s.requests ==> !s.requests[r].stage.Holding?
    ensures Lists(s.client) && (Take(s.client).0.Some? <==> s.client.listed != [])
  {
    ReachedInv(s);
    forall w | w in s.client.listed ensures w in s.client.queue {
      assert Reachable(s, w);
    }
    TakeKeepsLists(s.client);
  }

  /** Taking is a run of pops and failed claims of the protocol. It ends in a
      pop that holds the worker taken, or with the queue dry and the call still
      waiting. */
  lemma {:induction false} TakeIsSteps(s: State, r: ReqId) returns (steps: seq<Step>)
    requires r in s.requests && s.requests[r].stage.Waiting?
    ensures
      var (taken, c) := Take(s.client);
      var s' := Run(s, steps);
      match taken
      case Some(w) =>
        s' == SetStage(s, r, Holding(w)).(client := s.client.(queue := c.queue)) && RemoveWorker(s'.client, w) == c
      case None => s' == s.(client := c) && c.queue == []
    decreases |s.client.queue|
  {
    if s.client.queue == [] {
      steps := [];
    } else {
      var w := s.client.queue[0];
      var s1 := Do(s, PopStep(r));
      Run1(s, PopStep(r));
      if w in s.client.listed {
        steps := [PopStep(r)];
      } else {
        var s2 := Do(s1, ClaimStep(r, 0, false));
        assert s2 == s.(client := s.client.(queue := s.client.queue[1..])) by {
          assert s2.requests[r] == s.requests[r];
          assert s2.requests == s.requests;
        }
        Run1(s1, ClaimStep(r, 0, false));
        RunConcat(s, [PopStep(r)], [ClaimStep(r, 0, false)]);
        var rest := TakeIsSteps(s2, r);
        steps := [PopStep(r), ClaimStep(r, 0, false)] + rest;
        assert [PopStep(r)] + [ClaimStep(r, 0, false)] == [PopStep(r), ClaimStep(r, 0, false)];
        RunConcat(s, [PopStep(r), ClaimStep(r, 0, false)], rest);
      }
    }
  }

  lemma Run1(s: State, a: Step)
    ensures Run(s, [a]) == Do(s, a)
  {
    hide Do;
    assert [a][..0] == [];
  }

  // ---- One message -----------------------------------------------------

  function HandleAll(v: View, messages: seq<(WorkerId, ToClient)>): View {
    if messages == [] then v
    else
      var n := |messages| - 1;
      Handle(HandleAll(v, messages[..n]), messages[n].0, messages[n].1)
  }

  /** The steps of the protocol that poll these workers in turn, and the
      messages they meet; an empty channel gives none. */
  function Polls(workers: seq<WorkerId>): seq<Step> {
    seq(|workers|, i requires 0 <= i < |workers| => PollStep(workers[i]))
  }

  function Met(s: State, workers: seq<WorkerId>): seq<(WorkerId, ToClient)> {
    if workers == [] then []
    else
      var n := |workers| - 1;
      var s', w := Run(s, Polls(workers[..n])), workers[n];
      Met(s, workers[..n])
      + if w in s'.workers && s'.workers[w].outbox != [] then [(w, s'.workers[w].outbox[0])] else []
  }

  /** Polling any workers in any order is one run of the loop over the messages
      met: the client ends in the same lists, handlers and futures. */
  lemma {:induction false} PollingIsSteps(s: State, workers: seq<WorkerId>)
    ensures ViewOf(Run(s, Polls(workers))) == HandleAll(ViewOf(s), Met(s, workers))
    decreases |workers|
  {
    if workers != [] {
      hide Handle, HandleAll, Polled, Poll;
      var n := |workers| - 1;
      PollingIsSteps(s, workers[..n]);
      assert Polls(workers)[..n] == Polls(workers[..n]);
      var before, w, messages := Run(s, Polls(workers[..n])), workers[n], Met(s, workers);
      PollIsHandle(before, w);
      assert Polls(workers)[n] == PollStep(w);
      assert Run(s, Polls(workers)) == Do(before, PollStep(w)) == Poll(before, w);
      if w in before.workers && before.workers[w].outbox != [] {
        var m := before.workers[w].outbox[0];
        assert messages == Met(s, workers[..n]) + [(w, m)];
        HandleLast(ViewOf(s), Met(s, workers[..n]), w, m);
      } else {
        assert messages == Met(s, workers[..n]);
      }
    }
  }

  lemma HandleLast(v: View, messages: seq<(WorkerId, ToClient)>, w: WorkerId, m: ToClient)
    ensures HandleAll(v, messages + [(w, m)]) == Handle(HandleAll(v, messages), w, m)
  {
    hide Handle;
    assert (messages + [(w, m)])[..|messages|] == messages;
  }

  lemma PollIsHandle(s: State, w: WorkerId)
    ensures ViewOf(Poll(s, w)) ==
      if w in s.workers && s.workers[w].outbox != [] then Handle(ViewOf(s), w, s.workers[w].outbox[0]) else ViewOf(s)
  {}

  class PoolClient {
    var queue: seq<WorkerId>
    var listed: seq<WorkerId>
    var handlers: map<CorrId, ReqId>
    var requests: map<ReqId, Request>
    const maxqueue: nat

    ghost function Client(): Client
      reads this
    {
      PoolProtocol.Client(queue, listed, handlers)
    }

    ghost function Now(): View
      reads this
    {
      View(Client(), requests)
    }

    ghost predicate Valid()
      reads this
    {
      Lists(Client())
    }

    constructor (maxqueue: nat)
      ensures Valid() && this.maxqueue == maxqueue
      ensures Now() == View(PoolProtocol.Client([], [], map[]), map[])
    {
      queue, listed, handlers, requests := [], [], map[], map[];
      this.maxqueue := maxqueue;
    }

    method PutWorker(w: WorkerId)
      requires Valid()
      modifies this`queue, this`listed
      ensures Valid() && Client() == PoolProtocol.PutWorker(old(Client()), w)
      ensures queue == old(queue) + (if w in old(listed) then [] else [w])
      ensures listed == old(listed) + if w in old(listed) then [] else [w]
    {
      PutKeepsLists(Client(), w);
      if w !in listed {
        listed := listed + [w];
        queue := queue + [w];
      }
    }

    method RemoveWorker(w: WorkerId)
      requires Valid()
      modifies this`listed
      ensures Valid() && Client() == PoolProtocol.RemoveWorker(old(Client()), w)
      ensures queue == old(queue) && forall x :: x in listed <==> x in old(listed) && x != w
    {
      PutKeepsLists(Client(), w);
      RemoveFacts(listed, w);
      if w in listed {
        listed := Remove(listed, w);
      }
    }

    /** Waits (`None`) only when no worker is listed. */
    method GetWorker() returns (r: Option<WorkerId>)
      requires Valid()
      modifies this`queue, this`listed
      ensures Valid() && (r, Client()) == Take(old(Client()))
      ensures r.Some? <==> old(listed) != []
      ensures r.Some? ==> exists i :: 0 <= i < |old(queue)| && Took(old(Client()), i, r.value, Client())
    {
      TakeFirst(Client());
      TakeKeepsLists(Client());
      while queue != []
        invariant Take(Client()) == Take(old(Client()))
        invariant listed == old(listed)
        decreases |queue|
      {
        var w := queue[0];
        queue := queue[1..];
        if w in listed {
          listed := Remove(listed, w);
          return Some(w);
        }
      }
      return None;
    }

    /** `_poll` over the messages received until it is cancelled. */
    method Poll(messages: seq<(WorkerId, ToClient)>)
      requires Valid()
      modifies this
      ensures Valid() && Now() == HandleAll(old(Now()), messages)
    {
      for n := 0 to |messages|
        invariant Valid() && Now() == HandleAll(old(Now()), messages[..n])
      {
        var (w, m) := messages[n];
        assert messages[..n + 1][..n] == messages[..n];
        match m {
          case Ready => PutWorker(w);
          case Done => RemoveWorker(w);
          case Reply(id, o) =>
            if id in handlers {
              var r := handlers[id];
              handlers := handlers - {id};
              if r in requests && requests[r].stage == Sent(id) {
                requests := requests[r := requests[r].(stage := Answered(id, o))];
              }
            }
        }
      }
      assert messages[..|messages|] == messages;
    }
  }

  // ---- The worker loop -------------------------------------------------

  /** One turn of the loop: what the receive gave, and the broadcast check. */
  datatype Turn = Turn(job: Option<(Job, Outcome)>, restart: bool)

  function ReplyOf(turn: Turn): seq<ToClient> {
    if turn.job.Some? then [Reply(turn.job.value.0.id, turn.job.value.1)] else []
  }

  function CompletedBy(turn: Turn, completed: nat): nat {
    if turn.job.Some? then completed + 1 else completed
  }

  /** What the turns send to the client, after the messages in `out`. */
  function Sends(maxcycles: Option<nat>, turns: seq<Turn>, completed: nat, out: seq<ToClient>): seq<ToClient>
    decreases |turns|
  {
    if turns == [] || !MayLoop(maxcycles, completed) then out
    else
      var out' := out + [Ready] + ReplyOf(turns[0]);
      if turns[0].restart then out' + [Done]
      else Sends(maxcycles, turns[1..], CompletedBy(turns[0], completed), out')
  }

  function Alternating(n: nat): seq<Supervision.Note> {
    if n == 0 then [] else Alternating(n - 1) + [Supervision.Busy] + [Supervision.Done]
  }

  /** `worker_handler` until its process is stopped, after `|turns|` turns at
      the latest: the messages sent, the notifications made, the jobs done. */
  method WorkerHandler(maxcycles: Option<nat>, turns: seq<Turn>)
    returns (out: seq<ToClient>, notes: seq<Supervision.Note>, completed: nat)
    ensures out == Sends(maxcycles, turns, 0, [])
    ensures completed == |Replies(out)|
    ensures notes == Alternating(completed)
  {
    out, notes, completed := [], [], 0;
    var busy := false;
    AppendReply([], Ready);
    var i := 0;
    assert turns[0..] == turns;
    hide Replies;
    while i < |turns| && MayLoop(maxcycles, completed)
      invariant 0 <= i <= |turns|
      invariant Sends(maxcycles, turns[i..], completed, out) == Sends(maxcycles, turns, 0, [])
      invariant completed == |Replies(out)| && notes == Alternating(completed) && !busy
    {
      var turn := turns[i];
      assert turns[i..][0] == turn && turns[i..][1..] == turns[i + 1..];
      AppendReply(out, Ready);
      out := out + [Ready];
      assert out + [] == out;
      if turn.job.Some? {
        var reply := Reply(turn.job.value.0.id, turn.job.value.1);
        var notified := Supervision.Notified(busy, notes, Supervision.Busy, true);
        busy, notes := notified.0, notified.1;
        notified := Supervision.Notified(busy, notes, Supervision.Done, true);
        busy, notes := notified.0, notified.1;
        AppendReply(out, reply);
        out := out + [reply];
        completed := completed + 1;
      }
      if turn.restart {
        AppendReply(out, Done);
        out := out + [Done];
        return;
      }
      i := i + 1;
    }
  }

  // ---- What the loop sends ---------------------------------------------

  /** Jobs back to back, none of the turns ending in a restart. */
  predicate AllJobs(turns: seq<Turn>) {
    forall i :: 0 <= i < |turns| ==> turns[i].job.Some? && !turns[i].restart
  }

  /** A READY and a reply for every job, in their order. */
  function Exchanges(turns: seq<Turn>): seq<ToClient>
    requires AllJobs(turns)
  {
    if turns == [] then []
    else [Ready, Reply(turns[0].job.value.0.id, turns[0].job.value.1)] + Exchanges(turns[1..])
  }

  /** How many of so many jobs a worker still takes. */
  function Served(maxcycles: Option<nat>, completed: nat, jobs: nat): (n: nat)
    ensures n <= jobs
  {
    if maxcycles.None? || completed + jobs <= maxcycles.value then jobs
    else if completed <= maxcycles.value then maxcycles.value - completed else 0
  }

  /** Jobs back to back are all served, up to `maxcycles` of them; the end at
      `maxcycles` is silent. */
  lemma {:induction false} SendsJobs(maxcycles: Option<nat>, turns: seq<Turn>, completed: nat, out: seq<ToClient>)
    requires AllJobs(turns)
    ensures
      var served := turns[..Served(maxcycles, completed, |turns|)];
      AllJobs(served) && Sends(maxcycles, turns, completed, out) == out + Exchanges(served)
    decreases |turns|
  {
    var n := Served(maxcycles, completed, |turns|);
    if n == 0 {
      assert out + [] == out;
    } else {
      var reply := Reply(turns[0].job.value.0.id, turns[0].job.value.1);
      var rest := turns[1..];
      assert turns[..n][1..] == rest[..n - 1];
      SendsJobs(maxcycles, rest, completed + 1, out + [Ready] + [reply]);
      hide Sends, Exchanges;
      assert out + [Ready] + [reply] + Exchanges(rest[..n - 1]) == out + ([Ready, reply] + Exchanges(rest[..n - 1]));
    }
  }

  /** A turn without a job sends its READY alone, and a restart ends the loop with
      DONE, whatever turns would follow. */
  lemma SendsTurn(maxcycles: Option<nat>, turn: Turn, rest: seq<Turn>, completed: nat, out: seq<ToClient>)
    requires MayLoop(maxcycles, completed)
    ensures turn.job.None? && !turn.restart ==>
      Sends(maxcycles, [turn] + rest, completed, out) == Sends(maxcycles, rest, completed, out + [Ready])
    ensures turn.job.None? && turn.restart ==> Sends(maxcycles, [turn] + rest, completed, out) == out + [Ready] + [Done]
    ensures turn.job.Some? && turn.restart ==>
      Sends(maxcycles, [turn] + rest, completed, out)
        == out + [Ready] + [Reply(turn.job.value.0.id, turn.job.value.1)] + [Done]
  {
    assert ([turn] + rest)[1..] == rest;
    assert turn.job.None? ==> out + [Ready] + [] == out + [Ready];
  }

  lemma AppendReply(out: seq<ToClient>, m: ToClient)
    ensures |Replies([])| == 0
    ensures |Replies(out + [m])| == |Replies(out)| + if m.Reply? then 1 else 0
  {
    RepliesConcat(out, [m]);
    RepliesSingle(m);
  }

  function Script(turns: seq<Turn>): seq<WorkerStep> {
    if turns == [] then []
    else
      [TopStep]
      + (if turns[0].job.Some? then [RecvStep, FinishStep(turns[0].job.value.1)] else [RecvTimeoutStep])
      + [CheckStep(turns[0].restart)] + Script(turns[1..])
  }

  function Jobs(turns: seq<Turn>): seq<Job> {
    if turns == [] then []
    else (if turns[0].job.Some? then [turns[0].job.value.0] else []) + Jobs(turns[1..])
  }

  function RunWorker(maxcycles: Option<nat>, k: Worker, steps: seq<WorkerStep>): Worker
    decreases |steps|
  {
    if steps == [] then k else RunWorker(maxcycles, DoWorker(maxcycles, k, steps[0]), steps[1..])
  }

  lemma {:induction false} GoneStaysQuiet(maxcycles: Option<nat>, k: Worker, turns: seq<Turn>)
    requires k.phase.Exited?
    ensures RunWorker(maxcycles, k, Script(turns)) == k
    decreases |turns|
  {
    if turns != [] {
      TurnSteps(maxcycles, k, turns);
      GoneStaysQuiet(maxcycles, k, turns[1..]);
    }
  }

  /** A turn is three or four steps of the protocol's worker. */
  function DoTurn(maxcycles: Option<nat>, k: Worker, turn: Turn): Worker {
    var k1 := LoopTop(maxcycles, k);
    var k2 := if turn.job.Some? then Finish(Receive(k1), turn.job.value.1) else ReceiveTimeout(k1);
    Check(k2, turn.restart)
  }

  lemma TurnSteps(maxcycles: Option<nat>, k: Worker, turns: seq<Turn>)
    requires turns != []
    ensures RunWorker(maxcycles, k, Script(turns))
         == RunWorker(maxcycles, DoTurn(maxcycles, k, turns[0]), Script(turns[1..]))
  {
    var turn, rest := turns[0], Script(turns[1..]);
    if turn.job.Some? {
      var o := turn.job.value.1;
      assert Script(turns) == [TopStep] + ([RecvStep] + ([FinishStep(o)] + ([CheckStep(turn.restart)] + rest)));
      hide Script, RunWorker;
      JobSteps(maxcycles, k, turn, rest);
    } else {
      assert Script(turns) == [TopStep] + ([RecvTimeoutStep] + ([CheckStep(turn.restart)] + rest));
      hide Script, RunWorker;
      IdleSteps(maxcycles, k, turn, rest);
    }
  }

  lemma JobSteps(maxcycles: Option<nat>, k: Worker, turn: Turn, rest: seq<WorkerStep>)
    requires turn.job.Some?
    ensures RunWorker(maxcycles, k,
                      [TopStep] + ([RecvStep] + ([FinishStep(turn.job.value.1)] + ([CheckStep(turn.restart)] + rest))))
         == RunWorker(maxcycles, DoTurn(maxcycles, k, turn), rest)
  {
    hide LoopTop, Receive, Finish, ReceiveTimeout, Check, RunWorker;
    var o, k1 := turn.job.value.1, LoopTop(maxcycles, k);
    FirstStep(maxcycles, k, TopStep, [RecvStep] + ([FinishStep(o)] + ([CheckStep(turn.restart)] + rest)));
    FirstStep(maxcycles, k1, RecvStep, [FinishStep(o)] + ([CheckStep(turn.restart)] + rest));
    FirstStep(maxcycles, Receive(k1), FinishStep(o), [CheckStep(turn.restart)] + rest);
    FirstStep(maxcycles, Finish(Receive(k1), o), CheckStep(turn.restart), rest);
  }

  lemma IdleSteps(maxcycles: Option<nat>, k: Worker, turn: Turn, rest: seq<WorkerStep>)
    requires turn.job.None?
    ensures RunWorker(maxcycles, k, [TopStep] + ([RecvTimeoutStep] + ([CheckStep(turn.restart)] + rest)))
         == RunWorker(maxcycles, DoTurn(maxcycles, k, turn), rest)
  {
    hide LoopTop, Receive, Finish, ReceiveTimeout, Check, RunWorker;
    var k1 := LoopTop(maxcycles, k);
    FirstStep(maxcycles, k, TopStep, [RecvTimeoutStep] + ([CheckStep(turn.restart)] + rest));
    FirstStep(maxcycles, k1, RecvTimeoutStep, [CheckStep(turn.restart)] + rest);
    FirstStep(maxcycles, ReceiveTimeout(k1), CheckStep(turn.restart), rest);
  }

  lemma FirstStep(maxcycles: Option<nat>, k: Worker, a: WorkerStep, rest: seq<WorkerStep>)
    ensures RunWorker(maxcycles, k, [a] + rest) == RunWorker(maxcycles, DoWorker(maxcycles, k, a), rest)
  {
    assert ([a] + rest)[1..] == rest;
  }

  /** One turn from the top of the loop. */
  lemma TurnEffect(maxcycles: Option<nat>, k: Worker, turn: Turn)
    requires k.phase.AtLoop? && (turn.job.Some? ==> k.inbox != [] && k.inbox[0] == turn.job.value.0)
    ensures
      var k' := DoTurn(maxcycles, k, turn);
      if !MayLoop(maxcycles, k.completed) then k'.phase.Exited? && k'.outbox == k.outbox
      else if turn.restart then k'.phase.Exited? && k'.outbox == k.outbox + [Ready] + ReplyOf(turn) + [Done]
      else
        && k'.phase.AtLoop? && k'.outbox == k.outbox + [Ready] + ReplyOf(turn)
        && k'.inbox == (if turn.job.Some? then k.inbox[1..] else k.inbox)
        && k'.completed == CompletedBy(turn, k.completed)
  {}

  /** The loop sends what the protocol's worker sends when it receives the same
      jobs: the loop is a run of the worker steps. */
  lemma {:induction false} LoopIsSteps(maxcycles: Option<nat>, k: Worker, turns: seq<Turn>)
    requires k.phase.AtLoop? && Jobs(turns) <= k.inbox
    ensures RunWorker(maxcycles, k, Script(turns)).outbox == Sends(maxcycles, turns, k.completed, k.outbox)
    decreases |turns|
  {
    if turns != [] {
      var turn := turns[0];
      var k' := DoTurn(maxcycles, k, turn);
      TurnSteps(maxcycles, k, turns);
      TurnEffect(maxcycles, k, turn);
      assert turn.job.Some? ==> Jobs(turns)[1..] == Jobs(turns[1..]);
      assert k'.phase.AtLoop? ==> Jobs(turns[1..]) <= k'.inbox;
      hide DoTurn, Script, RunWorker;
      if k'.phase.Exited? {
        GoneStaysQuiet(maxcycles, k', turns[1..]);
      } else {
        LoopIsSteps(maxcycles, k', turns[1..]);
      }
    }
  }
}
