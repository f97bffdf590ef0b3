/** pyqgiswps/poolserver/supervisor.py: the notifier each worker owns, and the
    supervisor that keeps one kill timer per busy pid. */
module Supervision {
  import opened Wrappers

  type Pid = nat
  type TimerId = nat

  datatype Note = Busy | Done

  /** A `call_later` handle of the event loop. */
  datatype Timer = Timer(pid: Pid, deadline: nat)

  /** What happened, for the record. `found` tells whether the pid was busy. */
  datatype Event =
    | GotBusy(pid: Pid, found: bool) | GotDone(pid: Pid, found: bool) | Killed(pid: Pid) | Stopped(busy: set<Pid>)

  /** The supervisor with the timers its event loop has armed. `lastNote` keeps
      the last notification processed for a pid, and when. */
  datatype Sup = Sup(
    timeout: nat, now: nat, stopped: bool,
    busy: map<Pid, TimerId>, armed: map<TimerId, Timer>, next: TimerId,
    lastNote: map<Pid, (Note, nat)>, log: seq<Event>)

  function Started(timeout: nat): Sup {
    Sup(timeout, 0, false, map[], map[], 0, map[], [])
  }

  /** A BUSY arms a timer and overwrites the entry, leaving any timer it held. */
  function OnBusy(s: Sup, pid: Pid): Sup {
    if s.stopped then s else
    s.(busy := s.busy[pid := s.next], armed := s.armed[s.next := Timer(pid, s.now + s.timeout)], next := s.next + 1,
       lastNote := s.lastNote[pid := (Busy, s.now)], log := s.log + [GotBusy(pid, pid in s.busy)])
  }

  /** A DONE cancels the timer of the entry, if there is one. */
  function OnDone(s: Sup, pid: Pid): Sup {
    if s.stopped then s else
    var s' := s.(lastNote := s.lastNote[pid := (Done, s.now)], log := s.log + [GotDone(pid, pid in s.busy)]);
    if pid in s.busy then s'.(busy := s.busy - {pid}, armed := s.armed - {s.busy[pid]}) else s'
  }

  function Drop(s: Sup, pid: Pid): Sup {
    s.(busy := s.busy - {pid}, log := s.log + [Killed(pid)])
  }

  /** `kill_worker_busy`: the timer stays armed. */
  function KillBusy(s: Sup, pid: Pid): Sup {
    if pid in s.busy then Drop(s, pid) else s
  }

  /** A due timer runs `kill`; without an entry it ends in a KeyError. */
  function Fire(s: Sup, t: TimerId): Sup {
    if t in s.armed && s.armed[t].deadline <= s.now then
      KillBusy(s.(armed := s.armed - {t}), s.armed[t].pid)
    else s
  }

  /** `stop` cancels the timers of the entries and forgets them. */
  function Stop(s: Sup): Sup {
    s.(stopped := true, armed := s.armed - s.busy.Values, busy := map[], log := s.log + [Stopped(s.busy.Keys)])
  }

  /** The pid a firing would kill. */
  function Target(s: Sup, t: TimerId): Option<Pid> {
    if t in s.armed && s.armed[t].deadline <= s.now && s.armed[t].pid in s.busy then Some(s.armed[t].pid) else None
  }

  // ---- The classes -----------------------------------------------------

  /** `notify_busy` and `notify_done` on the flag and the channel. */
  function Notified(busy: bool, channel: seq<Note>, note: Note, accepted: bool): (bool, seq<Note>) {
    if busy == note.Busy? then (busy, channel) else (note.Busy?, channel + if accepted then [note] else [])
  }

  /** The notifier of a worker process. A notification the socket refuses is
      dropped, but the flag has already changed. */
  class Client {
    var busy: bool
    var channel: seq<Note>

    constructor ()
      ensures !busy && channel == []
    {
      busy, channel := false, [];
    }

    method Send(note: Note, accepted: bool)
      modifies this`channel
      ensures channel == old(channel) + if accepted then [note] else []
    {
      if accepted {
        channel := channel + [note];
      }
    }

    method NotifyDone(accepted: bool)
      modifies this
      ensures !busy && (busy, channel) == Notified(old(busy), old(channel), Done, accepted)
      ensures channel == old(channel) + if old(busy) && accepted then [Done] else []
    {
      if busy {
        busy := false;
        Send(Done, accepted);
      }
    }

    method NotifyBusy(accepted: bool)
      modifies this
      ensures busy && (busy, channel) == Notified(old(busy), old(channel), Busy, accepted)
      ensures channel == old(channel) + if !old(busy) && accepted then [Busy] else []
    {
      if !busy {
        busy := true;
        Send(Busy, accepted);
      }
    }
  }

  class Supervisor {
    const timeout: nat
    var now: nat
    var stopped: bool
    var busy: map<Pid, TimerId>
    var armed: map<TimerId, Timer>
    var next: TimerId
    var killed: seq<Pid>
    ghost var lastNote: map<Pid, (Note, nat)>
    ghost var log: seq<Event>

    ghost function Now(): Sup
      reads this
    {
      Sup(timeout, now, stopped, busy, armed, next, lastNote, log)
    }

    /** The kill function was called exactly for the kills on record. */
    ghost predicate Valid()
      reads this
    {
      killed == KillsOf(log) && Inv(Now())
    }

    constructor (timeout: nat)
      ensures Valid() && Now() == Started(timeout)
    {
      this.timeout := timeout;
      now, stopped, busy, armed, next, killed := 0, false, map[], map[], 0, [];
      lastNote, log := map[], [];
    }

    method KillWorkerBusy(pid: Pid) returns (r: bool)
      requires Valid()
      modifies this
      ensures Valid() && Now() == KillBusy(old(Now()), pid) && r == (pid in old(busy))
      ensures killed == old(killed) + if r then [pid] else []
      ensures busy == old(busy) - {pid} && armed == old(armed)
    {
      hide Inv, KillsOf;
      KillBusyKeeps(Now(), pid);
      r := pid in busy;
      if r {
        busy := busy - {pid};
        killed := killed + [pid];
        log := log + [Killed(pid)];
      }
    }

    method ReceiveBusy(pid: Pid)
      requires Valid() && !stopped
      modifies this
      ensures Valid() && killed == old(killed) && Now() == OnBusy(old(Now()), pid)
      ensures old(next) !in old(armed) && busy == old(busy)[pid := old(next)]
      ensures armed == old(armed)[old(next) := Timer(pid, now + timeout)]
    {
      hide Inv, KillsOf;
      NextIsNew(Now());
      NoteKeeps(Now(), pid, Busy);
      ghost var before := Now();
      var t := next;
      armed, next := armed[t := Timer(pid, now + timeout)], t + 1;
      log, lastNote := log + [GotBusy(pid, pid in busy)], lastNote[pid := (Busy, now)];
      busy := busy[pid := t];
      assert Now() == OnBusy(before, pid);
    }

    method ReceiveDone(pid: Pid)
      requires Valid() && !stopped
      modifies this
      ensures Valid() && killed == old(killed) && Now() == OnDone(old(Now()), pid)
      ensures busy == old(busy) - {pid}
      ensures armed == old(armed) - if pid in old(busy) then {old(busy)[pid]} else {}
    {
      hide Inv, KillsOf;
      ghost var before := Now();
      NoteKeeps(Now(), pid, Done);
      log := log + [GotDone(pid, pid in busy)];
      lastNote := lastNote[pid := (Done, now)];
      if pid in busy {
        armed := armed - {busy[pid]};
        busy := busy - {pid};
      }
      assert Now() == OnDone(before, pid);
    }

    /** One message received by `_run_async`; nothing is received after `stop`. */
    method Receive(pid: Pid, note: Note)
      requires Valid()
      modifies this
      ensures Valid() && killed == old(killed)
      ensures Now() == if note.Busy? then OnBusy(old(Now()), pid) else OnDone(old(Now()), pid)
      ensures old(stopped) ==> busy == old(busy) && armed == old(armed)
      ensures !old(stopped) && note.Busy? ==>
        && old(next) !in old(armed) && busy == old(busy)[pid := old(next)]
        && armed == old(armed)[old(next) := Timer(pid, now + timeout)]
      ensures !old(stopped) && note.Done? ==>
        && busy == old(busy) - {pid}
        && armed == old(armed) - if pid in old(busy) then {old(busy)[pid]} else {}
    {
      if !stopped {
        match note {
          case Busy => ReceiveBusy(pid);
          case Done => ReceiveDone(pid);
        }
      }
    }

    /** The event loop runs a due timer. */
    method RunTimer(t: TimerId)
      requires Valid()
      modifies this
      ensures Valid() && Now() == Fire(old(Now()), t)
      ensures killed == old(killed) + match old(Target(Now(), t)) { case Some(pid) => [pid] case None => [] }
      ensures
        if t in old(armed) && old(armed)[t].deadline <= now then
          var pid := old(armed)[t].pid;
          && armed == old(armed) - {t} && busy == old(busy) - {pid}
          && killed == old(killed) + if pid in old(busy) then [pid] else []
        else armed == old(armed) && busy == old(busy) && killed == old(killed)
    {
      hide Inv, KillsOf;
      FireKeeps(Now(), t);
      if t in armed && armed[t].deadline <= now {
        var pid := armed[t].pid;
        armed := armed - {t};
        if pid in busy {
          busy := busy - {pid};
          killed := killed + [pid];
          log := log + [Killed(pid)];
        }
      }
    }

    method StopAll()
      requires Valid()
      modifies this
      ensures Valid() && Now() == Stop(old(Now())) && killed == old(killed)
      ensures stopped && busy == map[] && armed == old(armed) - old(busy).Values
    {
      hide Inv, KillsOf;
      StopKeeps(Now());
      stopped := true;
      log := log + [Stopped(busy.Keys)];
      armed := armed - busy.Values;
      busy := map[];
    }
  }

  // ---- The invariant ---------------------------------------------------

  function KillsOf(log: seq<Event>): seq<Pid> {
    if log == [] then []
    else
      var last := log[|log| - 1];
      KillsOf(log[..|log| - 1]) + if last.Killed? then [last.pid] else []
  }

  /** How often an event of some kind is on record for a pid. */
  function Count(log: seq<Event>, kind: Event -> bool): nat {
    if log == [] then 0
    else Count(log[..|log| - 1], kind) + if kind(log[|log| - 1]) then 1 else 0
  }

  function Starts(log: seq<Event>, pid: Pid): nat { Count(log, (e: Event) => e == GotBusy(pid, false)) }
  function Pops(log: seq<Event>, pid: Pid): nat { Count(log, (e: Event) => e == GotDone(pid, true)) }
  function Kills(log: seq<Event>, pid: Pid): nat { Count(log, (e: Event) => e == Killed(pid)) }
  function Forgotten(log: seq<Event>, pid: Pid): nat { Count(log, (e: Event) => e.Stopped? && pid in e.busy) }

  /** An entry holds an armed timer of its pid, due one timeout after the last
      notification processed for the pid, which was a BUSY. */
  ghost predicate EntryInv(s: Sup, pid: Pid)
    requires pid in s.busy
  {
    && s.busy[pid] in s.armed && s.armed[s.busy[pid]].pid == pid
    && pid in s.lastNote && s.lastNote[pid].0.Busy?
    && s.armed[s.busy[pid]].deadline == s.lastNote[pid].1 + s.timeout
  }

  ghost predicate Books(s: Sup, pid: Pid) {
    Starts(s.log, pid) == Pops(s.log, pid) + Kills(s.log, pid) + Forgotten(s.log, pid) + if pid in s.busy then 1 else 0
  }

  ghost predicate Inv(s: Sup) {
    && (forall pid :: pid in s.busy ==> EntryInv(s, pid))
    && (forall t :: t in s.armed ==> t < s.next)
    && (forall pid :: Books(s, pid))
    && (s.stopped ==> s.busy == map[])
  }

  lemma NextIsNew(s: Sup)
    requires Inv(s)
    ensures s.next !in s.armed
  {}

  lemma CountAppend(log: seq<Event>, e: Event, pid: Pid)
    ensures Starts(log + [e], pid) == Starts(log, pid) + if e == GotBusy(pid, false) then 1 else 0
    ensures Pops(log + [e], pid) == Pops(log, pid) + if e == GotDone(pid, true) then 1 else 0
    ensures Kills(log + [e], pid) == Kills(log, pid) + if e == Killed(pid) then 1 else 0
    ensures Forgotten(log + [e], pid) == Forgotten(log, pid) + if e.Stopped? && pid in e.busy then 1 else 0
  {
    assert (log + [e])[..|log|] == log;
  }

  lemma NoteKeeps(s: Sup, pid: Pid, note: Note)
    requires Inv(s)
    ensures Inv(if note.Busy? then OnBusy(s, pid) else OnDone(s, pid))
    ensures KillsOf(if note.Busy? then OnBusy(s, pid).log else OnDone(s, pid).log) == KillsOf(s.log)
  {
    var s' := if note.Busy? then OnBusy(s, pid) else OnDone(s, pid);
    if s' != s {
      var e := if note.Busy? then GotBusy(pid, pid in s.busy) else GotDone(pid, pid in s.busy);
      assert s'.log[..|s.log|] == s.log;
      forall p ensures Books(s', p) { assert Books(s, p); CountAppend(s.log, e, p); }
      forall p | p in s'.busy ensures EntryInv(s', p) { if p in s.busy { assert EntryInv(s, p); } }
    }
  }

  lemma KillBusyKeeps(s: Sup, pid: Pid)
    requires Inv(s)
    ensures Inv(KillBusy(s, pid))
    ensures KillsOf(KillBusy(s, pid).log) == KillsOf(s.log) + if pid in s.busy then [pid] else []
  {
    if pid in s.busy {
      var s' := KillBusy(s, pid);
      assert s'.log[..|s.log|] == s.log;
      forall p ensures Books(s', p) { assert Books(s, p); CountAppend(s.log, Killed(pid), p); }
      forall p | p in s'.busy ensures EntryInv(s', p) { assert EntryInv(s, p); }
    }
  }

  lemma FireKeeps(s: Sup, t: TimerId)
    requires Inv(s)
    ensures Inv(Fire(s, t))
    ensures KillsOf(Fire(s, t).log) == KillsOf(s.log) + match Target(s, t) { case Some(pid) => [pid] case None => [] }
  {
    var s' := Fire(s, t);
    if s' != s {
      var pid := s.armed[t].pid;
      forall p | p in s.busy && p != pid ensures s.busy[p] != t { assert EntryInv(s, p); }
      if pid in s.busy {
        KillBusyKeeps(s, pid);
        var k := KillBusy(s, pid);
        assert s' == k.(armed := s'.armed);
        forall p | p in s'.busy ensures EntryInv(s', p) { assert EntryInv(k, p); }
        forall p ensures Books(s', p) { assert Books(k, p); }
      } else {
        forall p | p in s'.busy ensures EntryInv(s', p) { assert EntryInv(s, p); }
        forall p ensures Books(s', p) { assert Books(s, p); }
      }
    }
  }

  /** The timer an entry holds kills its pid one timeout after the BUSY that
      armed it, and not before. */
  lemma DueTimerKills(s: Sup, pid: Pid)
    requires Inv(s) && pid in s.busy
    ensures pid in s.lastNote && s.lastNote[pid].0.Busy?
    ensures s.lastNote[pid].1 + s.timeout <= s.now ==>
      && pid !in Fire(s, s.busy[pid]).busy
      && KillsOf(Fire(s, s.busy[pid]).log) == KillsOf(s.log) + [pid]
    ensures s.now < s.lastNote[pid].1 + s.timeout ==>
      Fire(s, s.busy[pid]).busy == s.busy && KillsOf(Fire(s, s.busy[pid]).log) == KillsOf(s.log)
  {
    assert EntryInv(s, pid);
    FireKeeps(s, s.busy[pid]);
    hide Inv, KillsOf;
  }

  lemma StopKeeps(s: Sup)
    requires Inv(s)
    ensures Inv(Stop(s)) && KillsOf(Stop(s).log) == KillsOf(s.log)
  {
    assert Stop(s).log[..|s.log|] == s.log;
    forall p ensures Books(Stop(s), p) { assert Books(s, p); CountAppend(s.log, Stopped(s.busy.Keys), p); }
  }
}
