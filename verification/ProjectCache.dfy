/** The two timestamp-validated project caches: pyqgiswps/qgscache/cachemanager.py
    with its file handler, and pyqgiswps/utils/filecache.py. A project is what
    a read makes of a file's content, and only the manager checks its layers;
    keys resolve to paths through `resolve`. */
module ProjectCache {
  import opened Wrappers
  import opened LruTable
  import LruLaws
  import opened LruCaches

  type Project = string

  datatype Error = PathNotAllowed | NotAbsolute | FileNotFound | StrictChecking | KeyMissing

  datatype File = File(mtime: int, content: string)
  datatype FilePath = FilePath(absolute: bool, stem: string, suffix: string)
  type Files = map<FilePath, File>

  datatype Details = Details(project: Project, timestamp: int)

  type Resolver = string -> Result<FilePath, Error>

  /** `QgsProject.read` makes a project of any content: neither cache looks at
      its result. `layersValid` is the manager's check of the bad layers. */
  datatype Reader = Reader(read: string -> Project, strict: bool, layersValid: string -> bool)

  predicate Accepts(reader: Reader, content: string) {
    reader.strict ==> reader.layersValid(content)
  }

  /** `QgsCacheManager.read_project`. */
  function ReadProject(reader: Reader, content: string): Result<Project, Error> {
    if Accepts(reader, content) then Ok(reader.read(content)) else Err(StrictChecking)
  }

  const ALLOWED_SFX := [".qgs", ".qgz"]

  // ---- What a key shows of the file system -----------------------------

  /** The file behind a path: the path itself when its suffix is a project
      suffix, else the first existing candidate. */
  ghost predicate IsFileOf(files: Files, path: FilePath, found: FilePath) {
    && found in files
    && if path.suffix in ALLOWED_SFX then found == path
       else exists i :: 0 <= i < |ALLOWED_SFX| && found == path.(suffix := ALLOWED_SFX[i])
              && forall j :: 0 <= j < i ==> path.(suffix := ALLOWED_SFX[j]) !in files
  }

  function View(files: Files, path: FilePath): (r: Result<File, Error>)
    ensures r.Ok? <==> path.absolute && exists p :: IsFileOf(files, path, p)
    ensures r.Ok? ==> exists p :: IsFileOf(files, path, p) && r.value == files[p]
    ensures r.Err? ==> r.error == if path.absolute then FileNotFound else NotAbsolute
  {
    if !path.absolute then Err(NotAbsolute)
    else if path.suffix in ALLOWED_SFX then
      if path in files then (assert IsFileOf(files, path, path); Ok(files[path])) else Err(FileNotFound)
    else
      var p0, p1 := path.(suffix := ALLOWED_SFX[0]), path.(suffix := ALLOWED_SFX[1]);
      if p0 in files then (assert IsFileOf(files, path, p0); Ok(files[p0]))
      else if p1 in files then (assert IsFileOf(files, path, p1); Ok(files[p1]))
      else Err(FileNotFound)
  }

  function KeyView(resolve: Resolver, files: Files, key: string): Result<File, Error> {
    match resolve(key)
    case Ok(path) => View(files, path)
    case Err(e) => Err(e)
  }

  /** The reload-if-newer rule. */
  function Fetch(reader: Reader, view: Result<File, Error>, prior: Option<Details>): Result<Details, Error> {
    match view
    case Err(e) => Err(e)
    case Ok(file) =>
      if prior.Some? && prior.value.timestamp >= file.mtime then Ok(prior.value)
      else match ReadProject(reader, file.content)
           case Ok(project) => Ok(Details(project, file.mtime))
           case Err(e) => Err(e)
  }

  function Entry(t: Table<string, Details>, key: string): Option<Details> {
    if key in Keys(t) then Some(Find(t, key)) else None
  }

  /** `FileProtocolHandler.get_project`. */
  method GetProject(reader: Reader, files: Files, url: FilePath, prior: Option<Details>)
    returns (r: Result<Details, Error>)
    ensures r == Fetch(reader, View(files, url), prior)
  {
    var path := url;
    if !path.absolute { return Err(NotAbsolute); }
    var exists_ := false;
    if path.suffix !in ALLOWED_SFX {
      var i := 0;
      while i < |ALLOWED_SFX|
        invariant 0 <= i <= |ALLOWED_SFX| && !exists_
        invariant path.absolute && path.stem == url.stem
        invariant forall j :: 0 <= j < i ==> url.(suffix := ALLOWED_SFX[j]) !in files
      {
        path := path.(suffix := ALLOWED_SFX[i]);
        exists_ := path in files;
        if exists_ { break; }
        i := i + 1;
      }
      assert url.(suffix := ALLOWED_SFX[0]) !in files || (path == url.(suffix := ALLOWED_SFX[0]) && exists_);
    } else {
      exists_ := path in files;
    }
    if !exists_ { return Err(FileNotFound); }
    var modified := files[path].mtime;
    if prior.None? || prior.value.timestamp < modified {
      var project := ReadProject(reader, files[path].content);
      match project {
        case Ok(p) => r := Ok(Details(p, modified));
        case Err(e) => r := Err(e);
      }
    } else {
      r := Ok(prior.value);
    }
  }

  // ---- The two lookups on the table ------------------------------------

  datatype Answer = Answer(result: Result<(Project, bool), Error>, table: Table<string, Details>)

  /** `QgsCacheManager.lookup`: rewrite the entry, then access it; `KeyMissing`
      stands for the KeyError that access would raise. */
  function ManagerLookup(reader: Reader, t: Table<string, Details>, capacity: nat, key: string,
                         view: Result<File, Error>): Answer
    requires capacity > 0
  {
    var prior := Entry(t, key);
    match Fetch(reader, view, prior)
    case Err(e) => Answer(Err(e), t)
    case Ok(d) =>
      var updated := prior.None? || d.timestamp != prior.value.timestamp;
      var t' := Apply(t, capacity, Op.Set(key, d));
      if key in Keys(t') then Answer(Ok((Find(t', key).project, updated)), Apply(t', capacity, Op.Get(key)))
      else Answer(Err(KeyMissing), t')
  }

  /** `FileCache.validate`: delete a stale entry, then read and insert. */
  function FileValidate(read: string -> Project, t: Table<string, Details>, capacity: nat, key: string,
                        view: Result<File, Error>): (Result<bool, Error>, Table<string, Details>)
    requires capacity > 0
  {
    match view
    case Err(e) => (Err(e), t)
    case Ok(file) =>
      var prior := Entry(t, key);
      if prior.Some? && prior.value.timestamp >= file.mtime then (Ok(false), t)
      else
        var t' := if prior.Some? then Apply(t, capacity, Op.Del(key)) else t;
        (Ok(true), Apply(t', capacity, Op.Set(key, Details(read(file.content), file.mtime))))
  }

  /** `FileCache.lookup`, together with the flag `validate` returned. */
  function FileLookup(read: string -> Project, t: Table<string, Details>, capacity: nat, key: string,
                      view: Result<File, Error>): Answer
    requires capacity > 0
  {
    var (validated, t') := FileValidate(read, t, capacity, key, view);
    match validated
    case Err(e) => Answer(Err(e), t')
    case Ok(updated) =>
      if key in Keys(t') then Answer(Ok((Find(t', key).project, updated)), Apply(t', capacity, Op.Get(key)))
      else Answer(Err(KeyMissing), t')
  }

  class QgsCacheManager {
    const resolve: Resolver
    const reader: Reader
    const cache: LruCache<string, Details>

    ghost predicate Valid()
      reads this, cache
    {
      cache.Valid()
    }

    constructor (resolve: Resolver, reader: Reader, size: int)
      requires size > 0
      ensures Valid() && fresh(cache) && cache.table == [] && cache.capacity == size
      ensures this.resolve == resolve && this.reader == reader
    {
      this.resolve, this.reader := resolve, reader;
      cache := new LruCache(size);
    }

    method Clear()
      requires Valid()
      modifies cache
      ensures Valid() && cache.table == [] && cache.capacity == old(cache.capacity)
    {
      cache.Clear();
    }

    method RemoveEntry(key: string) returns (ok: bool)
      requires Valid()
      modifies cache
      ensures Valid() && cache.capacity == old(cache.capacity)
      ensures cache.table == Without(old(cache.table), key) && ok == (key in Keys(old(cache.table)))
    {
      ok := cache.DelItem(key);
    }

    method UpdateEntry(key: string, files: Files) returns (r: Result<bool, Error>)
      requires Valid()
      modifies cache
      ensures Valid() && cache.capacity == old(cache.capacity)
      ensures
        var prior := Entry(old(cache.table), key);
        match Fetch(reader, KeyView(resolve, files, key), prior)
        case Err(e) => r == Err(e) && cache.table == old(cache.table)
        case Ok(d) =>
          && r == Ok(prior.None? || d.timestamp != prior.value.timestamp)
          && cache.table == Apply(old(cache.table), cache.capacity, Op.Set(key, d))
          && cache.Peek(key) == Some(d)
    {
      match resolve(key) {
        case Err(e) => return Err(e);
        case Ok(url) =>
          var details := cache.Peek(key);
          var fetched := GetProject(reader, files, url, details);
          match fetched {
            case Err(e) => return Err(e);
            case Ok(d) =>
              var updated := details.None? || d.timestamp != details.value.timestamp;
              cache.SetItem(key, d);
              return Ok(updated);
          }
      }
    }

    method Lookup(key: string, files: Files) returns (r: Result<(Project, bool), Error>)
      requires Valid()
      modifies cache
      ensures Valid() && cache.capacity == old(cache.capacity)
      ensures Answer(r, cache.table)
        == ManagerLookup(reader, old(cache.table), old(cache.capacity), key, KeyView(resolve, files, key))
    {
      var updated := UpdateEntry(key, files);
      match updated {
        case Err(e) => return Err(e);
        case Ok(flag) =>
          var entry := cache.GetItem(key);
          return Ok((entry.value.project, flag));
      }
    }
  }

  class FileCache {
    const getpath: Resolver
    const read: string -> Project
    const cache: LruCache<string, Details>

    ghost predicate Valid()
      reads this, cache
    {
      cache.Valid()
    }

    constructor (getpath: Resolver, read: string -> Project, size: int)
      requires size > 0
      ensures Valid() && fresh(cache) && cache.table == [] && cache.capacity == size
      ensures this.getpath == getpath && this.read == read
    {
      this.getpath, this.read := getpath, read;
      cache := new LruCache(size);
    }

    /** An outdated entry goes before the read, whose project is stored as it is. */
    method Validate(key: string, files: Files) returns (r: Result<bool, Error>)
      requires Valid()
      modifies cache
      ensures Valid() && cache.capacity == old(cache.capacity)
      ensures (r, cache.table)
        == FileValidate(read, old(cache.table), old(cache.capacity), key, KeyView(getpath, files, key))
    {
      var file;
      match KeyView(getpath, files, key) {
        case Err(e) => return Err(e);
        case Ok(f) => file := f;
      }
      var details := cache.Peek(key);
      if details.Some? {
        if details.value.timestamp < file.mtime {
          var _ := cache.DelItem(key);
        } else {
          return Ok(false);
        }
      }
      var project := read(file.content);
      cache.SetItem(key, Details(project, file.mtime));
      return Ok(true);
    }

    method Lookup(key: string, files: Files) returns (r: Result<Project, Error>, ghost updated: bool)
      requires Valid()
      modifies cache
      ensures Valid() && cache.capacity == old(cache.capacity)
      ensures
        var a := FileLookup(read, old(cache.table), old(cache.capacity), key, KeyView(getpath, files, key));
        && cache.table == a.table
        && match a.result
           case Ok((project, flag)) => r == Ok(project) && updated == flag
           case Err(e) => r == Err(e)
    {
      ghost var t, capacity := cache.table, cache.capacity;
      var validated := Validate(key, files);
      match validated {
        case Err(e) => r, updated := Err(e), false;
        case Ok(flag) =>
          FileValidateHits(read, t, capacity, key, KeyView(getpath, files, key));
          var entry := cache.GetItem(key);
          r, updated := Ok(entry.value.project), flag;
      }
    }
  }

  /** A validated key is in the table, so the access that follows cannot miss. */
  lemma FileValidateHits(read: string -> Project, t: Table<string, Details>, capacity: nat, key: string,
                         view: Result<File, Error>)
    requires capacity > 0 && LruLaws.Valid(t, capacity)
    requires FileValidate(read, t, capacity, key, view).0.Ok?
    ensures key in Keys(FileValidate(read, t, capacity, key, view).1)
  {
    LruLaws.WithoutFacts(t, key);
    match view {
      case Ok(file) =>
        LruLaws.PutFacts(t, capacity, key, Details(read(file.content), file.mtime));
        LruLaws.PutFacts(Without(t, key), capacity, key, Details(read(file.content), file.mtime));
    }
  }
}
