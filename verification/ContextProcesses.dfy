/** `ProcessingExecutor.get_processes` and `reload_qgis_processes`
    (pyqgiswps/executors/processingexecutor.py): processes bound to a map are
    created by the factory once per provider generation and then cached. */
module ContextProcesses {
  import opened Wrappers
  import opened LruTable
  import LruLaws
  import opened LruCaches

  datatype Process = Process(identifier: string, body: string)

  type ContextKey = (string, string)

  /** Creation is a function of generation, map and identifier. */
  type Builder = (nat, string, string) -> string

  const CONTEXT_CACHE_SIZE := 50

  function Contextual(build: Builder, generation: nat, uri: string, identifier: string): Process {
    Process(identifier, build(generation, uri, identifier))
  }

  /** What `create_contextualized_processes` returns. */
  function Created(build: Builder, generation: nat, uri: string, identifiers: seq<string>): (r: seq<Process>)
    ensures |r| == |identifiers|
    ensures forall i :: 0 <= i < |r| ==> r[i] == Contextual(build, generation, uri, identifiers[i])
  {
    seq(|identifiers|, i requires 0 <= i < |identifiers| => Contextual(build, generation, uri, identifiers[i]))
  }

  /** The cache entries of processes bound to a map. */
  function Entries(uri: string, processes: seq<Process>): (r: seq<(ContextKey, Process)>)
    ensures |r| == |processes|
    ensures forall i :: 0 <= i < |r| ==> r[i] == ((uri, processes[i].identifier), processes[i])
  {
    seq(|processes|, i requires 0 <= i < |processes| => ((uri, processes[i].identifier), processes[i]))
  }

  function EntryKeys(uri: string, identifiers: seq<string>): (r: seq<ContextKey>)
    ensures |r| == |identifiers|
    ensures forall i :: 0 <= i < |r| ==> r[i] == (uri, identifiers[i])
  {
    seq(|identifiers|, i requires 0 <= i < |identifiers| => (uri, identifiers[i]))
  }

  predicate AllHeld(t: Table<ContextKey, Process>, uri: string, identifiers: seq<string>) {
    forall i :: 0 <= i < |identifiers| ==> (uri, identifiers[i]) in Keys(t)
  }

  ghost predicate Current(build: Builder, generation: nat, e: (ContextKey, Process)) {
    e.1 == Contextual(build, generation, e.0.0, e.0.1)
  }

  ghost predicate AllCurrent(build: Builder, generation: nat, t: Table<ContextKey, Process>) {
    forall i :: 0 <= i < |t| ==> Current(build, generation, t[i])
  }

  lemma CurrentPart(build: Builder, generation: nat, t: Table<ContextKey, Process>, keep: set<ContextKey>)
    requires Distinct(t) && AllCurrent(build, generation, t)
    ensures AllCurrent(build, generation, Only(t, keep))
  {
    var p := Only(t, keep);
    OnlyKeys(t, keep);
    OnlyDistinct(t, keep);
    forall i | 0 <= i < |p| ensures Current(build, generation, p[i]) {
      assert p[i].0 in Keys(p);
      var j := IndexOf(t, p[i].0);
      FindAt(t, j);
      FindAt(p, i);
      LruLaws.FindOther(t, keep, p[i].0);
      assert p[i] == t[j];
    }
  }

  /** Every cache operation keeps the entries current, a set of a current
      process included. */
  lemma CurrentApply(build: Builder, generation: nat, t: Table<ContextKey, Process>, capacity: nat,
                     op: Op<ContextKey, Process>)
    requires capacity > 0 && LruLaws.Valid(t, capacity) && AllCurrent(build, generation, t)
    requires op.Set? ==> Current(build, generation, (op.k, op.v))
    ensures AllCurrent(build, generation, Apply(t, capacity, op))
  {
    match op
    case Set(k, v) => CurrentPart(build, generation, t, Keys(t) - {k});
    case Get(k) =>
      if k in Keys(t) {
        CurrentPart(build, generation, t, Keys(t) - {k});
        var i := IndexOf(t, k);
        FindAt(t, i);
      }
    case Del(k) => CurrentPart(build, generation, t, Keys(t) - {k});
    case Clear =>
  }

  class ProcessingExecutor {
    var processes: map<string, Process>
    var qgisEnabled: bool
    const build: Builder
    const contextProcesses: LruCache<ContextKey, Process>
    /** How many times the providers were loaded anew: state of the factory. */
    var generation: nat

    ghost predicate Valid()
      reads this, contextProcesses
    {
      && contextProcesses.Valid() && contextProcesses.capacity == CONTEXT_CACHE_SIZE
      && (forall k :: k in processes ==> processes[k].identifier == k)
      && AllCurrent(build, generation, contextProcesses.table)
    }

    constructor (build: Builder, initial: seq<Process>, qgisEnabled: bool)
      ensures Valid() && fresh(contextProcesses) && generation == 0
      ensures this.build == build && this.qgisEnabled == qgisEnabled && processes == ByIdentifier(initial)
    {
      this.build, this.qgisEnabled, generation := build, qgisEnabled, 0;
      contextProcesses := new LruCache(CONTEXT_CACHE_SIZE);
      processes := ByIdentifier(initial);
    }

    /** The processes named, or the first name that is unknown. */
    method FindAll(identifiers: seq<string>) returns (r: Result<seq<Process>, string>)
      ensures r.Err? <==> exists i :: 0 <= i < |identifiers| && identifiers[i] !in processes
      ensures r.Err? ==> r.error in identifiers && r.error !in processes
      ensures r.Ok? ==> |r.value| == |identifiers|
      ensures r.Ok? ==> forall i :: 0 <= i < |identifiers| ==>
        identifiers[i] in processes && r.value[i] == processes[identifiers[i]]
    {
      var found: seq<Process> := [];
      for n := 0 to |identifiers|
        invariant |found| == n
        invariant forall i :: 0 <= i < n ==> identifiers[i] in processes && found[i] == processes[identifiers[i]]
      {
        if identifiers[n] !in processes {
          return Err(identifiers[n]);
        }
        found := found + [processes[identifiers[n]]];
      }
      return Ok(found);
    }

    /** `creation` tells whether the factory can create processes; when it
        cannot, it answers with an empty list. `Err` is UnknownProcessError. */
    method GetProcesses(identifiers: seq<string>, mapUri: Option<string>, creation: bool)
      returns (r: Result<seq<Process>, string>)
      requires Valid()
      modifies contextProcesses
      ensures Valid()
      ensures r.Err? <==> exists i :: 0 <= i < |identifiers| && identifiers[i] !in processes
      ensures r.Err? ==> r.error in identifiers && r.error !in processes
      ensures r.Err? || mapUri.None? || !qgisEnabled ==> contextProcesses.table == old(contextProcesses.table)
      ensures r.Ok? && (mapUri.None? || !qgisEnabled) ==>
        |r.value| == |identifiers| &&
        forall i :: 0 <= i < |identifiers| ==> identifiers[i] in processes && r.value[i] == processes[identifiers[i]]
      ensures r.Ok? && mapUri.Some? && qgisEnabled ==>
        r.value == if creation || AllHeld(old(contextProcesses.table), mapUri.value, identifiers)
                   then Created(build, generation, mapUri.value, identifiers) else []
      ensures r.Ok? && mapUri.Some? && qgisEnabled && r.value != [] ==>
        && |r.value| == |identifiers|
        && forall i :: 0 <= i < |identifiers| ==>
          r.value[i] == Process(identifiers[i], build(generation, mapUri.value, identifiers[i]))
      ensures r.Ok? && mapUri.Some? && qgisEnabled ==>
        contextProcesses.table ==
          if AllHeld(old(contextProcesses.table), mapUri.value, identifiers)
          then LruLaws.GetAll(old(contextProcesses.table), CONTEXT_CACHE_SIZE, EntryKeys(mapUri.value, identifiers))
          else if creation then
            LruLaws.SetAll(old(contextProcesses.table), CONTEXT_CACHE_SIZE,
                           Entries(mapUri.value, Created(build, generation, mapUri.value, identifiers)))
          else old(contextProcesses.table)
      ensures r.Ok? && mapUri.Some? && qgisEnabled && creation && |identifiers| <= 50 ==>
        AllHeld(contextProcesses.table, mapUri.value, identifiers)
    {
      r := FindAll(identifiers);
      if r.Ok? && qgisEnabled && mapUri.Some? {
        var uri := mapUri.value;
        var missing := exists p <- r.value :: !contextProcesses.Contains((uri, p.identifier));
        assert missing <==> !AllHeld(contextProcesses.table, uri, identifiers) by {
          assert forall i :: 0 <= i < |identifiers| ==>
            r.value[i] in r.value && r.value[i].identifier == identifiers[i];
        }
        hide AllCurrent, Keys, Distinct;
        if missing {
          var created := if creation then Created(build, generation, uri, identifiers) else [];
          StoreAll(uri, created);
          r := Ok(created);
          if creation && |identifiers| <= 50 { StoredHold(old(contextProcesses.table), uri, created, identifiers); }
        } else {
          var cached := ReadAll(uri, r.value, identifiers);
          assert cached == Created(build, generation, uri, identifiers);
          r := Ok(cached);
        }
      }
    }

    /** The cache update after a creation. */
    method StoreAll(uri: string, created: seq<Process>)
      requires Valid()
      requires forall i :: 0 <= i < |created| ==>
        created[i] == Contextual(build, generation, uri, created[i].identifier)
      modifies contextProcesses
      ensures Valid()
      ensures contextProcesses.table
           == LruLaws.SetAll(old(contextProcesses.table), CONTEXT_CACHE_SIZE, Entries(uri, created))
    {
      ghost var entries := Entries(uri, created);
      for n := 0 to |created|
        invariant Valid()
        invariant contextProcesses.table
               == LruLaws.SetAll(old(contextProcesses.table), CONTEXT_CACHE_SIZE, entries[..n])
      {
        assert entries[..n + 1][..n] == entries[..n];
        var key := (uri, created[n].identifier);
        CurrentApply(build, generation, contextProcesses.table, CONTEXT_CACHE_SIZE, Op.Set(key, created[n]));
        contextProcesses.SetItem(key, created[n]);
      }
      assert entries[..|created|] == entries;
    }

    /** The cached branch: every access hits. */
    method ReadAll(uri: string, found: seq<Process>, ghost identifiers: seq<string>) returns (cached: seq<Process>)
      requires Valid() && |found| == |identifiers|
      requires forall i :: 0 <= i < |found| ==> found[i].identifier == identifiers[i]
      requires AllHeld(contextProcesses.table, uri, identifiers)
      modifies contextProcesses
      ensures Valid() && AllHeld(contextProcesses.table, uri, identifiers)
      ensures |cached| == |found|
      ensures forall i :: 0 <= i < |found| ==> cached[i] == Contextual(build, generation, uri, found[i].identifier)
      ensures contextProcesses.table
           == LruLaws.GetAll(old(contextProcesses.table), CONTEXT_CACHE_SIZE, EntryKeys(uri, identifiers))
    {
      cached := [];
      ghost var keys := EntryKeys(uri, identifiers);
      for n := 0 to |found|
        invariant Valid() && Keys(contextProcesses.table) == old(Keys(contextProcesses.table))
        invariant |cached| == n
        invariant forall i :: 0 <= i < n ==> cached[i] == Contextual(build, generation, uri, found[i].identifier)
        invariant contextProcesses.table
               == LruLaws.GetAll(old(contextProcesses.table), CONTEXT_CACHE_SIZE, keys[..n])
      {
        assert keys[..n + 1][..n] == keys[..n];
        var key := (uri, found[n].identifier);
        CurrentApply(build, generation, contextProcesses.table, CONTEXT_CACHE_SIZE, Op.Get(key));
        LruLaws.TouchFacts(contextProcesses.table, key);
        var p := contextProcesses.GetItem(key);
        assert Current(build, generation, contextProcesses.table[|contextProcesses.table| - 1]);
        cached := cached + [p.value];
      }
      assert keys[..|found|] == keys;
    }

    /** `None` is a failed reload: the error is logged and nothing changes. */
    method ReloadQgisProcesses(created: Option<seq<Process>>)
      requires Valid()
      modifies this, contextProcesses
      ensures Valid() && qgisEnabled == old(qgisEnabled)
      ensures
        if old(qgisEnabled) && created.Some? then
          && processes == ByIdentifier(created.value) && contextProcesses.table == []
          && generation == old(generation) + 1
        else
          && processes == old(processes) && contextProcesses.table == old(contextProcesses.table)
          && generation == old(generation)
    {
      if qgisEnabled && created.Some? {
        processes := ByIdentifier(created.value);
        generation := generation + 1;
        contextProcesses.Clear();
      }
    }
  }

  /** Up to fifty processes created together are all cached. */
  lemma StoredHold(t: Table<ContextKey, Process>, uri: string, created: seq<Process>, identifiers: seq<string>)
    requires LruLaws.Valid(t, CONTEXT_CACHE_SIZE) && |created| == |identifiers| <= 50
    requires forall i :: 0 <= i < |created| ==> created[i].identifier == identifiers[i]
    ensures AllHeld(LruLaws.SetAll(t, CONTEXT_CACHE_SIZE, Entries(uri, created)), uri, identifiers)
  {
    var entries := Entries(uri, created);
    LruLaws.SetAllHolds(t, CONTEXT_CACHE_SIZE, entries);
    LruLaws.SetAllValid(t, CONTEXT_CACHE_SIZE, entries);
    LruLaws.NewestFacts(LruLaws.SetAll(t, CONTEXT_CACHE_SIZE, entries), |entries|);
    forall i | 0 <= i < |created|
      ensures (uri, identifiers[i]) in Keys(LruLaws.SetAll(t, CONTEXT_CACHE_SIZE, entries))
    {
      assert entries[i].0 == (uri, identifiers[i]);
    }
  }

  /** The dictionary `{p.identifier: p for p in processes}`: the last one wins. */
  function ByIdentifier(processes: seq<Process>): (m: map<string, Process>)
    ensures forall k :: k in m ==> m[k].identifier == k && m[k] in processes
    ensures forall p :: p in processes ==> p.identifier in m
  {
    if processes == [] then map[]
    else
      var last := processes[|processes| - 1];
      ByIdentifier(processes[..|processes| - 1])[last.identifier := last]
  }

  predicate IsLast(processes: seq<Process>, i: nat)
    requires i < |processes|
  {
    forall j :: i < j < |processes| ==> processes[j].identifier != processes[i].identifier
  }

  lemma {:induction false} LastWins(processes: seq<Process>, i: nat)
    requires i < |processes| && IsLast(processes, i)
    ensures ByIdentifier(processes)[processes[i].identifier] == processes[i]
    decreases |processes|
  {
    if i < |processes| - 1 {
      LastWins(processes[..|processes| - 1], i);
    }
  }
}
