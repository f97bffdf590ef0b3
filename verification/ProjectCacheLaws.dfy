/** The project caches over whole runs: they are transparent, and they are the
    same cache but for projects the manager's layer check refuses. */
module ProjectCacheLaws {
  import opened Wrappers
  import opened LruTable
  import opened LruLaws
  import opened ProjectCache

  datatype Config = Config(capacity: nat, resolve: Resolver, reader: Reader)

  datatype Action = Change(files: Files) | Lookup(key: string) | Remove(key: string) | ClearAll

  /** `history` lists the file systems seen so far, the current one last. */
  datatype World = World(history: seq<Files>, table: Table<string, Details>)

  function Current(w: World): Files
    requires w.history != []
  {
    w.history[|w.history| - 1]
  }

  function Start(files: Files): World {
    World([files], [])
  }

  /** One lookup implementation: the manager's or the file cache's. */
  datatype Kind = Manager | FileBased

  function LookupWith(kind: Kind, cfg: Config, w: World, key: string): Answer
    requires cfg.capacity > 0 && w.history != []
  {
    var view := KeyView(cfg.resolve, Current(w), key);
    match kind
    case Manager => ManagerLookup(cfg.reader, w.table, cfg.capacity, key, view)
    case FileBased => FileLookup(cfg.reader.read, w.table, cfg.capacity, key, view)
  }

  function Do(kind: Kind, cfg: Config, w: World, a: Action): (w': World)
    requires cfg.capacity > 0 && w.history != []
    ensures w'.history != []
  {
    match a
    case Change(files) => w.(history := w.history + [files])
    case Lookup(key) => w.(table := LookupWith(kind, cfg, w, key).table)
    case Remove(key) => w.(table := Apply(w.table, cfg.capacity, Op.Del(key)))
    case ClearAll => w.(table := [])
  }

  function Run(kind: Kind, cfg: Config, files: Files, actions: seq<Action>): (w: World)
    requires cfg.capacity > 0
    ensures w.history != []
  {
    if actions == [] then Start(files)
    else Do(kind, cfg, Run(kind, cfg, files, actions[..|actions| - 1]), actions[|actions| - 1])
  }

  // ---- Growing file systems --------------------------------------------

  /** What a key last showed, over the file systems of a history. */
  function LastView(resolve: Resolver, history: seq<Files>, key: string): Option<File> {
    if history == [] then None
    else match KeyView(resolve, history[|history| - 1], key)
      case Ok(file) => Some(file)
      case Err(_) => LastView(resolve, history[..|history| - 1], key)
  }

  /** Whatever a change shows anew under the key is newer than what the key
      showed before, even when the file was missing in between. */
  predicate Grows(resolve: Resolver, history: seq<Files>, files: Files, key: string) {
    match (KeyView(resolve, files, key), LastView(resolve, history, key))
    case (Ok(file), Some(last)) => file == last || file.mtime > last.mtime
    case _ => true
  }

  ghost predicate Growing(resolve: Resolver, history: seq<Files>, key: string) {
    forall i :: 0 < i < |history| ==> Grows(resolve, history[..i], history[i], key)
  }

  // ---- Transparency ----------------------------------------------------

  /** How each cache reads: only the manager checks the layers. */
  function ReadBy(kind: Kind, reader: Reader, content: string): Result<Project, Error> {
    if kind.Manager? then ReadProject(reader, content) else Ok(reader.read(content))
  }

  /** An entry of the key is no newer than what the key last showed, and equal
      times mean it is what a read of that file gives. */
  ghost predicate Sound(kind: Kind, cfg: Config, history: seq<Files>, key: string, e: (string, Details)) {
    e.0 == key ==>
      match LastView(cfg.resolve, history, key)
      case None => false
      case Some(last) =>
        && e.1.timestamp <= last.mtime
        && (e.1.timestamp == last.mtime ==> ReadBy(kind, cfg.reader, last.content) == Ok(e.1.project))
  }

  ghost predicate AllSound(kind: Kind, cfg: Config, history: seq<Files>, key: string, t: Table<string, Details>) {
    forall i :: 0 <= i < |t| ==> Sound(kind, cfg, history, key, t[i])
  }

  ghost predicate Inv(kind: Kind, cfg: Config, w: World, key: string) {
    w.history != [] && LruLaws.Valid(w.table, cfg.capacity) && AllSound(kind, cfg, w.history, key, w.table)
  }

  lemma SoundPart(kind: Kind, cfg: Config, history: seq<Files>, key: string, t: Table<string, Details>,
                  keep: set<string>)
    requires Distinct(t) && AllSound(kind, cfg, history, key, t)
    ensures AllSound(kind, cfg, history, key, Only(t, keep))
  {
    var p := Only(t, keep);
    OnlyKeys(t, keep);
    OnlyDistinct(t, keep);
    forall i | 0 <= i < |p| ensures Sound(kind, cfg, history, key, p[i]) {
      assert p[i].0 in Keys(p);
      var j := IndexOf(t, p[i].0);
      FindAt(t, j);
      FindAt(p, i);
      FindOther(t, keep, p[i].0);
      assert p[i] == t[j];
    }
  }

  lemma SoundApply(kind: Kind, cfg: Config, history: seq<Files>, key: string, t: Table<string, Details>,
                   op: Op<string, Details>)
    requires cfg.capacity > 0 && LruLaws.Valid(t, cfg.capacity) && AllSound(kind, cfg, history, key, t)
    requires op.Set? ==> Sound(kind, cfg, history, key, (op.k, op.v))
    ensures LruLaws.Valid(Apply(t, cfg.capacity, op), cfg.capacity)
    ensures AllSound(kind, cfg, history, key, Apply(t, cfg.capacity, op))
  {
    ApplyValid(t, cfg.capacity, op);
    match op
    case Set(k, v) => SoundPart(kind, cfg, history, key, t, Keys(t) - {k});
    case Get(k) =>
      if k in Keys(t) {
        SoundPart(kind, cfg, history, key, t, Keys(t) - {k});
        var i := IndexOf(t, k);
        FindAt(t, i);
      }
    case Del(k) => SoundPart(kind, cfg, history, key, t, Keys(t) - {k});
    case Clear =>
  }

  /** What a fresh read of the current file gives. */
  function Fresh(kind: Kind, cfg: Config, files: Files, key: string): Result<Project, Error> {
    match KeyView(cfg.resolve, files, key)
    case Err(e) => Err(e)
    case Ok(file) => ReadBy(kind, cfg.reader, file.content)
  }

  /** The entry was read from the file the key shows now. */
  predicate UpToDate(cfg: Config, w: World, key: string)
    requires w.history != []
  {
    key in Keys(w.table) &&
    KeyView(cfg.resolve, Current(w), key).Ok? &&
    Find(w.table, key).timestamp == KeyView(cfg.resolve, Current(w), key).value.mtime
  }

  /** The lookup of the key answers with a fresh read. */
  ghost predicate AnswersFresh(kind: Kind, cfg: Config, w: World, key: string)
    requires cfg.capacity > 0 && w.history != []
  {
    LookupWith(kind, cfg, w, key).result ==
      match Fresh(kind, cfg, Current(w), key)
      case Err(e) => Err(e)
      case Ok(project) => Ok((project, !UpToDate(cfg, w, key)))
  }

  lemma LastIsCurrent(cfg: Config, w: World, key: string)
    requires w.history != [] && KeyView(cfg.resolve, Current(w), key).Ok?
    ensures LastView(cfg.resolve, w.history, key) == Some(KeyView(cfg.resolve, Current(w), key).value)
  {}

  /** A lookup of any key keeps the entry of `key` sound. */
  lemma LookupKeeps(kind: Kind, cfg: Config, w: World, key: string, asked: string)
    requires cfg.capacity > 0 && Inv(kind, cfg, w, key)
    ensures Inv(kind, cfg, w.(table := LookupWith(kind, cfg, w, asked).table), key)
  {
    var view := KeyView(cfg.resolve, Current(w), asked);
    var t, h := w.table, w.history;
    if view.Ok? {
      LastIsCurrent(cfg, w, asked);
      var prior := Entry(t, asked);
      if prior.Some? {
        var i := IndexOf(t, asked);
        FindAt(t, i);
        assert Sound(kind, cfg, h, key, t[i]);
      }
      if kind.Manager? {
        var d := Fetch(cfg.reader, view, prior);
        if d.Ok? { SoundSetGet(kind, cfg, h, key, t, asked, d.value); }
      } else if prior.Some? && prior.value.timestamp >= view.value.mtime {
        SoundApply(kind, cfg, h, key, t, Op.Get(asked));
      } else {
        var d := Details(cfg.reader.read(view.value.content), view.value.mtime);
        SoundApply(kind, cfg, h, key, t, Op.Del(asked));
        SoundSetGet(kind, cfg, h, key, t, asked, d);
        SoundSetGet(kind, cfg, h, key, Without(t, asked), asked, d);
      }
    }
  }

  /** A held entry is replaced exactly when the file is newer. */
  lemma HeldLookup(kind: Kind, cfg: Config, w: World, key: string, now: File)
    requires cfg.capacity > 0 && w.history != [] && LruLaws.Valid(w.table, cfg.capacity) && key in Keys(w.table)
    requires KeyView(cfg.resolve, Current(w), key) == Ok(now)
    requires now.mtime > Find(w.table, key).timestamp ==> ReadBy(kind, cfg.reader, now.content).Ok?
    ensures
      var held := Find(w.table, key);
      LookupWith(kind, cfg, w, key).result ==
        if now.mtime > held.timestamp then Ok((cfg.reader.read(now.content), true)) else Ok((held.project, false))
  {
    var t, c := w.table, cfg.capacity;
    var fresh_, held := Details(cfg.reader.read(now.content), now.mtime), Find(t, key);
    PutFacts(t, c, key, fresh_);
    PutFacts(t, c, key, held);
    WithoutFacts(t, key);
    PutFacts(Without(t, key), c, key, fresh_);
    hide Put, Without, Keys, Find, Touch, LruLaws.Valid;
  }

  /** With no entry held the lookup is the read. */
  lemma MissedLookup(kind: Kind, cfg: Config, w: World, key: string, now: File)
    requires cfg.capacity > 0 && w.history != [] && LruLaws.Valid(w.table, cfg.capacity) && key !in Keys(w.table)
    requires KeyView(cfg.resolve, Current(w), key) == Ok(now) && ReadBy(kind, cfg.reader, now.content).Ok?
    ensures LookupWith(kind, cfg, w, key).result == Ok((cfg.reader.read(now.content), true))
  {
    PutFacts(w.table, cfg.capacity, key, Details(cfg.reader.read(now.content), now.mtime));
    hide Put, Without, Keys, Find, Touch, LruLaws.Valid;
  }

  /** A refused project fails the manager's lookup and leaves its table alone. */
  lemma FailedLookup(cfg: Config, w: World, key: string, now: File)
    requires cfg.capacity > 0 && w.history != [] && KeyView(cfg.resolve, Current(w), key) == Ok(now)
    requires !Accepts(cfg.reader, now.content) && (key in Keys(w.table) ==> Find(w.table, key).timestamp < now.mtime)
    ensures LookupWith(Manager, cfg, w, key) == Answer(Err(StrictChecking), w.table)
  {}

  lemma LookupIsFresh(kind: Kind, cfg: Config, w: World, key: string)
    requires cfg.capacity > 0 && Inv(kind, cfg, w, key)
    ensures AnswersFresh(kind, cfg, w, key)
  {
    hide LruLaws.Valid;
    var view, t := KeyView(cfg.resolve, Current(w), key), w.table;
    if view.Ok? {
      var now := view.value;
      LastIsCurrent(cfg, w, key);
      if key in Keys(t) {
        var i := IndexOf(t, key);
        ValidFindAt(t, cfg.capacity, i);
        assert Sound(kind, cfg, w.history, key, t[i]);
      }
      hide LookupWith, KeyView, Keys, Find, LastView;
      if key in Keys(t) && Find(t, key).timestamp >= now.mtime {
        HeldLookup(kind, cfg, w, key, now);
      } else if ReadBy(kind, cfg.reader, now.content).Err? {
        FailedLookup(cfg, w, key, now);
      } else if key in Keys(t) {
        HeldLookup(kind, cfg, w, key, now);
      } else {
        MissedLookup(kind, cfg, w, key, now);
      }
    } else {
      NoFile(kind, cfg, w, key);
    }
  }

  lemma NoFile(kind: Kind, cfg: Config, w: World, key: string)
    requires cfg.capacity > 0 && w.history != [] && KeyView(cfg.resolve, Current(w), key).Err?
    ensures LookupWith(kind, cfg, w, key) == Answer(Err(KeyView(cfg.resolve, Current(w), key).error), w.table)
  {}

  lemma ValidFindAt(t: Table<string, Details>, capacity: nat, i: nat)
    requires LruLaws.Valid(t, capacity) && i < |t|
    ensures t[i].0 in Keys(t) && Find(t, t[i].0) == t[i].1
  {
    FindAt(t, i);
  }

  lemma SoundSetGet(kind: Kind, cfg: Config, history: seq<Files>, key: string, t: Table<string, Details>,
                    asked: string, d: Details)
    requires cfg.capacity > 0 && LruLaws.Valid(t, cfg.capacity) && AllSound(kind, cfg, history, key, t)
    requires Sound(kind, cfg, history, key, (asked, d))
    ensures
      var t1 := Apply(t, cfg.capacity, Op.Set(asked, d));
      var t2 := Apply(t1, cfg.capacity, Op.Get(asked));
      asked in Keys(t1) && LruLaws.Valid(t2, cfg.capacity) && AllSound(kind, cfg, history, key, t2)
  {
    SoundApply(kind, cfg, history, key, t, Op.Set(asked, d));
    PutFacts(t, cfg.capacity, asked, d);
    SoundApply(kind, cfg, history, key, Apply(t, cfg.capacity, Op.Set(asked, d)), Op.Get(asked));
  }

  lemma DoSound(kind: Kind, cfg: Config, w: World, a: Action, key: string)
    requires cfg.capacity > 0 && Inv(kind, cfg, w, key)
    requires a.Change? ==> Grows(cfg.resolve, w.history, a.files, key)
    ensures Inv(kind, cfg, Do(kind, cfg, w, a), key)
  {
    match a
    case Change(files) =>
      var h := w.history + [files];
      assert h[..|w.history|] == w.history;
      forall i | 0 <= i < |w.table| ensures Sound(kind, cfg, h, key, w.table[i]) {
        assert Sound(kind, cfg, w.history, key, w.table[i]);
      }
    case Lookup(asked) => LookupKeeps(kind, cfg, w, key, asked);
    case Remove(k) => SoundApply(kind, cfg, w.history, key, w.table, Op.Del(k));
    case ClearAll =>
  }

  lemma {:induction false} RunSound(kind: Kind, cfg: Config, files: Files, actions: seq<Action>, key: string)
    requires cfg.capacity > 0
    requires Growing(cfg.resolve, Run(kind, cfg, files, actions).history, key)
    ensures Inv(kind, cfg, Run(kind, cfg, files, actions), key)
  {
    if actions != [] {
      var n := |actions| - 1;
      var w := Run(kind, cfg, files, actions[..n]);
      var w' := Run(kind, cfg, files, actions);
      assert w.history == w'.history[..|w.history|];
      forall i | 0 < i < |w.history| ensures Grows(cfg.resolve, w.history[..i], w.history[i], key) {
        assert w.history[..i] == w'.history[..i];
      }
      RunSound(kind, cfg, files, actions[..n], key);
      if actions[n].Change? {
        assert Grows(cfg.resolve, w'.history[..|w.history|], w'.history[|w.history|], key);
      }
      DoSound(kind, cfg, w, actions[n], key);
    }
  }

  /** After any run in which the files behind the key grow newer, whatever the
      others do, with evictions, removals and clears, a lookup of the key gives
      what a fresh read of its current file gives and reports a reload exactly
      when no up-to-date entry was held. It never misses on its own last table
      access. */
  lemma Transparency(kind: Kind, cfg: Config, files: Files, actions: seq<Action>, key: string)
    requires cfg.capacity > 0
    requires Growing(cfg.resolve, Run(kind, cfg, files, actions).history, key)
    ensures AnswersFresh(kind, cfg, Run(kind, cfg, files, actions), key)
  {
    RunSound(kind, cfg, files, actions, key);
    LookupIsFresh(kind, cfg, Run(kind, cfg, files, actions), key);
  }

  /** When an entry is held for the file a key showed and the key now shows
      another readable content, the lookup is fresh if and only if the new
      modification time is greater. */
  lemma FreshIffNewer(kind: Kind, cfg: Config, w: World, key: string, before: File, now: File, project: Project)
    requires cfg.capacity > 0 && w.history != [] && LruLaws.Valid(w.table, cfg.capacity)
    requires key in Keys(w.table) && Find(w.table, key) == Details(project, before.mtime)
    requires KeyView(cfg.resolve, Current(w), key) == Ok(now)
    requires ReadBy(kind, cfg.reader, now.content).Ok? && cfg.reader.read(now.content) != project
    ensures
      var a := LookupWith(kind, cfg, w, key).result;
      a.Ok? && (a.value.0 == cfg.reader.read(now.content) <==> now.mtime > before.mtime)
  {
    HeldLookup(kind, cfg, w, key, now);
  }

  /** A key looked up, its file changed, and the key looked up again: the change
      is seen exactly when it has a greater time. */
  lemma Reread(kind: Kind, cfg: Config, files: Files, changed: Files, key: string, before: File, now: File)
    requires cfg.capacity > 0 && KeyView(cfg.resolve, files, key) == Ok(before)
    requires KeyView(cfg.resolve, changed, key) == Ok(now)
    requires ReadBy(kind, cfg.reader, before.content).Ok? && ReadBy(kind, cfg.reader, now.content).Ok?
    ensures
      var w := Run(kind, cfg, files, [Lookup(key), Change(changed)]);
      && Current(w) == changed
      && LookupWith(kind, cfg, w, key).result ==
           if now.mtime > before.mtime then Ok((cfg.reader.read(now.content), true))
           else Ok((cfg.reader.read(before.content), false))
  {
    var t := [(key, Details(cfg.reader.read(before.content), before.mtime))];
    var w := World([files, changed], t);
    RereadWorld(kind, cfg, files, changed, key, before);
    FindAt(t, 0);
    hide Run, KeyView, LookupWith, Keys, Find;
    HeldLookup(kind, cfg, w, key, now);
  }

  lemma RereadWorld(kind: Kind, cfg: Config, files: Files, changed: Files, key: string, before: File)
    requires cfg.capacity > 0 && KeyView(cfg.resolve, files, key) == Ok(before)
    requires ReadBy(kind, cfg.reader, before.content).Ok?
    ensures Run(kind, cfg, files, [Lookup(key), Change(changed)])
         == World([files, changed], [(key, Details(cfg.reader.read(before.content), before.mtime))])
  {
    var actions := [Lookup(key), Change(changed)];
    OneLookup(kind, cfg, files, key);
    RunNext(kind, cfg, files, actions, 1);
    hide Run, LookupWith, KeyView;
    assert actions[..1] == [Lookup(key)] && actions[..2] == actions;
    assert [files] + [changed] == [files, changed];
  }

  /** A run that fails it: the file is rewritten within the resolution of its
      modification time, and the lookup gives what it held before. */
  lemma StaleRun(kind: Kind)
    ensures exists cfg: Config, files, actions, key :: cfg.capacity > 0
              && Fresh(kind, cfg, Current(Run(kind, cfg, files, actions)), key) == Ok("new")
              && LookupWith(kind, cfg, Run(kind, cfg, files, actions), key).result == Ok(("old", false))
  {
    var path := FilePath(true, "p", ".qgs");
    var cfg := Config(1, (k: string) => Ok(path), Reader((c: string) => c, false, (c: string) => true));
    var files, changed := map[path := File(0, "old")], map[path := File(0, "new")];
    assert path.suffix == ALLOWED_SFX[0];
    assert KeyView(cfg.resolve, files, "p") == Ok(files[path]);
    assert KeyView(cfg.resolve, changed, "p") == Ok(changed[path]);
    hide KeyView, Run, LookupWith;
    Reread(kind, cfg, files, changed, "p", File(0, "old"), File(0, "new"));
    assert Fresh(kind, cfg, changed, "p") == Ok("new");
  }

  /** The first lookup of a run fills the table. */
  lemma OneLookup(kind: Kind, cfg: Config, files: Files, key: string)
    requires cfg.capacity > 0 && KeyView(cfg.resolve, files, key).Ok?
    requires ReadBy(kind, cfg.reader, KeyView(cfg.resolve, files, key).value.content).Ok?
    ensures
      var file := KeyView(cfg.resolve, files, key).value;
      Run(kind, cfg, files, [Lookup(key)])
        == World([files], [(key, Details(cfg.reader.read(file.content), file.mtime))])
  {
    var file := KeyView(cfg.resolve, files, key).value;
    var d := Details(cfg.reader.read(file.content), file.mtime);
    assert [Lookup(key)][..0] == [];
    assert Put([], cfg.capacity, key, d) == [(key, d)];
    TouchLast([(key, d)]);
    PutFacts([], cfg.capacity, key, d);
  }

  // ---- The two caches are one ------------------------------------------

  lemma TouchLast<K, V>(t: Table<K, V>)
    requires Distinct(t) && t != []
    ensures t[|t| - 1].0 in Keys(t) && Touch(t, t[|t| - 1].0) == t
  {
    FindAt(t, |t| - 1);
    WithoutAt(t, |t| - 1);
  }

  lemma SetGetIsSet(t: Table<string, Details>, capacity: nat, key: string, d: Details)
    requires capacity > 0 && LruLaws.Valid(t, capacity)
    ensures key in Keys(Put(t, capacity, key, d)) && Find(Put(t, capacity, key, d), key) == d
    ensures Apply(Put(t, capacity, key, d), capacity, Op.Get(key)) == Put(t, capacity, key, d)
  {
    PutFacts(t, capacity, key, d);
    TouchLast(Put(t, capacity, key, d));
  }

  lemma PutAfterDelete(t: Table<string, Details>, capacity: nat, key: string, d: Details)
    requires capacity > 0 && LruLaws.Valid(t, capacity)
    ensures LruLaws.Valid(Without(t, key), capacity)
    ensures Put(Without(t, key), capacity, key, d) == Put(t, capacity, key, d)
  {
    WithoutFacts(t, key);
    WithoutAbsent(Without(t, key), key);
  }

  /** No read is needed, or the layer check accepts what is read. */
  predicate Agrees(cfg: Config, w: World, key: string)
    requires w.history != []
  {
    match KeyView(cfg.resolve, Current(w), key)
    case Err(_) => true
    case Ok(file) =>
      (key in Keys(w.table) && Find(w.table, key).timestamp >= file.mtime) || Accepts(cfg.reader, file.content)
  }

  /** Answers and tables agree, each of them, exactly when no read is needed or
      the check accepts. */
  lemma SameLookup(cfg: Config, w: World, key: string)
    requires cfg.capacity > 0 && w.history != [] && LruLaws.Valid(w.table, cfg.capacity)
    ensures
      var a, b := LookupWith(Manager, cfg, w, key), LookupWith(FileBased, cfg, w, key);
      && LruLaws.Valid(a.table, cfg.capacity)
      && (a.result == b.result <==> Agrees(cfg, w, key))
      && (a.table == b.table <==> Agrees(cfg, w, key))
  {
    var view := KeyView(cfg.resolve, Current(w), key);
    if view.Ok? {
      if Agrees(cfg, w, key) { AgreeingLookup(cfg, w, key); } else { RefusedLookup(cfg, w, key); }
    }
  }

  lemma AgreeingLookup(cfg: Config, w: World, key: string)
    requires cfg.capacity > 0 && w.history != [] && LruLaws.Valid(w.table, cfg.capacity)
    requires KeyView(cfg.resolve, Current(w), key).Ok? && Agrees(cfg, w, key)
    ensures LookupWith(Manager, cfg, w, key) == LookupWith(FileBased, cfg, w, key)
    ensures LruLaws.Valid(LookupWith(Manager, cfg, w, key).table, cfg.capacity)
  {
    var t, c := w.table, cfg.capacity;
    var d := Fetch(cfg.reader, KeyView(cfg.resolve, Current(w), key), Entry(t, key)).value;
    SetGetIsSet(t, c, key, d);
    ApplyValid(t, c, Op.Set(key, d));
    ApplyValid(Put(t, c, key, d), c, Op.Get(key));
    PutAfterDelete(t, c, key, d);
    if key in Keys(t) {
      RewriteIsTouch(t, c, key);
      TouchFacts(t, key);
    }
    hide Put, Touch, Keys, Distinct, Without, Find, LruLaws.Valid, KeyView;
  }

  /** A project with bad layers: the manager refuses it and leaves its table
      alone, the file cache answers with it and stores it. */
  lemma RefusedLookup(cfg: Config, w: World, key: string)
    requires cfg.capacity > 0 && w.history != [] && LruLaws.Valid(w.table, cfg.capacity)
    requires KeyView(cfg.resolve, Current(w), key).Ok? && !Agrees(cfg, w, key)
    ensures
      var a, b := LookupWith(Manager, cfg, w, key), LookupWith(FileBased, cfg, w, key);
      var file := KeyView(cfg.resolve, Current(w), key).value;
      && a == Answer(Err(StrictChecking), w.table)
      && b.result == Ok((cfg.reader.read(file.content), true))
      && key in Keys(b.table) && Find(b.table, key) == Details(cfg.reader.read(file.content), file.mtime)
      && b.table != w.table
  {
    var t, c := w.table, cfg.capacity;
    var file := KeyView(cfg.resolve, Current(w), key).value;
    var d := Details(cfg.reader.read(file.content), file.mtime);
    hide LookupWith, KeyView, Put, Keys, Find, LruLaws.Valid;
    FailedLookup(cfg, w, key, file);
    FileStores(cfg, w, key, file);
    SetGetIsSet(t, c, key, d);
  }

  /** The file cache reads and stores whatever the key shows. */
  lemma FileStores(cfg: Config, w: World, key: string, file: File)
    requires cfg.capacity > 0 && w.history != [] && LruLaws.Valid(w.table, cfg.capacity)
    requires KeyView(cfg.resolve, Current(w), key) == Ok(file)
    requires key in Keys(w.table) ==> Find(w.table, key).timestamp < file.mtime
    ensures
      var d := Details(cfg.reader.read(file.content), file.mtime);
      LookupWith(FileBased, cfg, w, key) == Answer(Ok((d.project, true)), Put(w.table, cfg.capacity, key, d))
  {
    var d := Details(cfg.reader.read(file.content), file.mtime);
    SetGetIsSet(w.table, cfg.capacity, key, d);
    PutAfterDelete(w.table, cfg.capacity, key, d);
    hide Put, Without, Keys, Find, Touch, LruLaws.Valid, ManagerLookup, KeyView;
  }

  /** There is such a project. */
  lemma RefusedProject()
    ensures exists cfg: Config, files, key :: cfg.capacity > 0
              && LookupWith(Manager, cfg, Start(files), key).result == Err(StrictChecking)
              && LookupWith(FileBased, cfg, Start(files), key).result == Ok(("bad", true))
  {
    var path := FilePath(true, "p", ".qgs");
    var cfg := Config(1, (k: string) => Ok(path), Reader((c: string) => c, true, (c: string) => c != "bad"));
    var files := map[path := File(0, "bad")];
    assert path.suffix == ALLOWED_SFX[0];
    assert KeyView(cfg.resolve, files, "p") == Ok(files[path]);
    RefusedLookup(cfg, Start(files), "p");
  }

  lemma {:induction false} RunTableValid(kind: Kind, cfg: Config, files: Files, actions: seq<Action>)
    requires cfg.capacity > 0
    ensures LruLaws.Valid(Run(kind, cfg, files, actions).table, cfg.capacity)
  {
    if actions != [] {
      var n := |actions| - 1;
      RunTableValid(kind, cfg, files, actions[..n]);
      var w := Run(kind, cfg, files, actions[..n]);
      match actions[n]
      case Change(_) =>
      case Lookup(key) => LookupTableValid(kind, cfg, w, key);
      case Remove(key) => ApplyValid(w.table, cfg.capacity, Op.Del(key));
      case ClearAll =>
    }
  }

  lemma LookupTableValid(kind: Kind, cfg: Config, w: World, key: string)
    requires cfg.capacity > 0 && w.history != [] && LruLaws.Valid(w.table, cfg.capacity)
    ensures LruLaws.Valid(LookupWith(kind, cfg, w, key).table, cfg.capacity)
  {
    var t, c := w.table, cfg.capacity;
    forall op ensures LruLaws.Valid(Apply(t, c, op), c) { ApplyValid(t, c, op); }
    forall op, op' ensures LruLaws.Valid(Apply(Apply(t, c, op), c, op'), c) { ApplyValid(Apply(t, c, op), c, op'); }
    forall op, op', op'' ensures LruLaws.Valid(Apply(Apply(Apply(t, c, op), c, op'), c, op''), c) {
      ApplyValid(Apply(Apply(t, c, op), c, op'), c, op'');
    }
    hide Apply, LruLaws.Valid;
  }

  ghost predicate AllAgree(cfg: Config, files: Files, actions: seq<Action>)
    requires cfg.capacity > 0
  {
    forall i :: 0 <= i < |actions| && actions[i].Lookup? ==>
      Agrees(cfg, Run(Manager, cfg, files, actions[..i]), actions[i].key)
  }

  ghost predicate SameAt(cfg: Config, files: Files, actions: seq<Action>, n: nat)
    requires cfg.capacity > 0 && n <= |actions|
  {
    Run(Manager, cfg, files, actions[..n]) == Run(FileBased, cfg, files, actions[..n])
  }

  lemma {:induction false} SameRuns(cfg: Config, files: Files, actions: seq<Action>)
    requires cfg.capacity > 0 && AllAgree(cfg, files, actions)
    ensures Run(Manager, cfg, files, actions) == Run(FileBased, cfg, files, actions)
  {
    if actions != [] {
      var n := |actions| - 1;
      assert forall i :: 0 <= i <= n ==> actions[..n][..i] == actions[..i];
      SameRuns(cfg, files, actions[..n]);
      RunTableValid(Manager, cfg, files, actions[..n]);
      if actions[n].Lookup? {
        SameLookup(cfg, Run(Manager, cfg, files, actions[..n]), actions[n].key);
      }
    }
  }

  /** A lookup that does not agree parts the two caches. */
  lemma Parting(cfg: Config, files: Files, actions: seq<Action>, i: nat)
    requires cfg.capacity > 0 && i < |actions| && actions[i].Lookup?
    requires !Agrees(cfg, Run(Manager, cfg, files, actions[..i]), actions[i].key)
    ensures !SameAt(cfg, files, actions, i) || !SameAt(cfg, files, actions, i + 1)
  {
    hide LruLaws.Valid, LookupWith, Agrees;
    var w := Run(Manager, cfg, files, actions[..i]);
    RunTableValid(Manager, cfg, files, actions[..i]);
    SameLookup(cfg, w, actions[i].key);
    RunNext(Manager, cfg, files, actions, i);
    RunNext(FileBased, cfg, files, actions, i);
    hide Run;
  }

  lemma RunNext(kind: Kind, cfg: Config, files: Files, actions: seq<Action>, i: nat)
    requires cfg.capacity > 0 && i < |actions|
    ensures Run(kind, cfg, files, actions[..i + 1]) == Do(kind, cfg, Run(kind, cfg, files, actions[..i]), actions[i])
  {
    hide Do;
    assert actions[..i + 1][..i] == actions[..i];
  }

  lemma SameMoment(cfg: Config, files: Files, actions: seq<Action>, n: nat)
    requires cfg.capacity > 0 && n <= |actions| && AllAgree(cfg, files, actions)
    ensures SameAt(cfg, files, actions, n)
  {
    hide Run, Agrees;
    assert forall i :: 0 <= i <= n ==> actions[..n][..i] == actions[..i];
    SameRuns(cfg, files, actions[..n]);
  }

  /** The two caches hold the same entries in the same recency order at every
      moment of a run, and so answer and evict alike, exactly when each of its
      lookups needs no read or reads a project the check accepts. */
  lemma SameRunsIff(cfg: Config, files: Files, actions: seq<Action>)
    requires cfg.capacity > 0
    ensures (forall n :: 0 <= n <= |actions| ==> SameAt(cfg, files, actions, n)) <==> AllAgree(cfg, files, actions)
  {
    hide Run, Agrees, SameAt;
    if AllAgree(cfg, files, actions) {
      forall n | 0 <= n <= |actions| ensures SameAt(cfg, files, actions, n) {
        SameMoment(cfg, files, actions, n);
      }
    } else {
      var i :| 0 <= i < |actions| && actions[i].Lookup?
               && !Agrees(cfg, Run(Manager, cfg, files, actions[..i]), actions[i].key);
      Parting(cfg, files, actions, i);
    }
  }

  /** Without the strict check there is no such lookup: the caches are the same on
      every run. */
  lemma LenientRunsAgree(cfg: Config, files: Files, actions: seq<Action>)
    requires cfg.capacity > 0 && !cfg.reader.strict
    ensures forall n :: 0 <= n <= |actions| ==> SameAt(cfg, files, actions, n)
  {
    hide Run, SameAt;
    SameRunsIff(cfg, files, actions);
  }

  /** A path without a project suffix finds the ".qgs" file before the ".qgz" one. */
  lemma SuffixOrder(files: Files, stem: string)
    ensures
      var qgs, qgz := FilePath(true, stem, ".qgs"), FilePath(true, stem, ".qgz");
      View(files, FilePath(true, stem, "")) ==
        if qgs in files then Ok(files[qgs]) else if qgz in files then Ok(files[qgz]) else Err(FileNotFound)
  {
    assert forall i :: 0 <= i < |ALLOWED_SFX| ==> ALLOWED_SFX[i] != "";
  }
}
