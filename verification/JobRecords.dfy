/** The job records of pyqgiswps/executors/logstore.py, their readers in
    pyqgiswps/ogc/api/request.py, and the reaper of
    pyqgiswps/executors/processingexecutor.py. The Redis hash and keys are maps;
    clock readings are whole seconds of one clock. */
module JobRecords {
  import opened Wrappers

  datatype Status = NoStatus | Accepted | Started | Done | Error | Dismiss

  function Code(s: Status): nat {
    match s
    case NoStatus => 0
    case Accepted => 21
    case Started => 25
    case Done => 30
    case Error => 40
    case Dismiss => 50
  }

  predicate Terminal(s: Status) {
    Code(s) >= Code(Done)
  }

  /** The stored name of a status; older records may hold an unknown one. */
  datatype StatusName = Known(status: Status) | Legacy(name: string)

  datatype Conformance = OwsWps | OapiProcesses

  datatype Request = Request(
    conformance: Conformance, identifier: string, mapUri: Option<string>,
    timeout: int, expiration: int, realm: Option<string>)

  datatype Response = Response(
    request: Request, status: Status, message: string, percent: int, outputFiles: seq<string>)

  /** A record; `None` is a missing key, except for `timeEnd` and `expireAt`'s
      content, whose key `time_end` is always there and may hold null. */
  datatype Record = Record(
    uuid: string, conformance: Conformance, identifier: string, mapUri: Option<string>, realm: Option<string>,
    status: StatusName, percent: int, message: string, timeStart: int, timeEnd: Option<int>,
    expiration: Option<int>, timeout: Option<int>, pinned: Option<bool>,
    timestamp: Option<int>, jobStart: Option<int>, pid: Option<int>,
    outputFiles: Option<seq<string>>, expireAt: Option<int>)

  function NewRecord(uuid: string, r: Request, now: int): Record {
    Record(uuid, r.conformance, r.identifier, r.mapUri, r.realm, Known(NoStatus), -1, "", now, None,
           Some(r.expiration), Some(r.timeout), Some(false), None, None, None, None, None)
  }

  /** An update raises KeyError on an unknown status name, and on a terminal
      status when the record has no expiration. */
  predicate Updatable(rec: Record, r: Response) {
    rec.status.Known? && (Terminal(r.status) ==> rec.expiration.Some?)
  }

  /** `update_response` on the record it read. */
  function Updated(rec: Record, r: Response, now: int, pid: int): Record
    requires Updatable(rec, r)
  {
    var starting := Code(rec.status.status) < Code(Started) && r.status == Started;
    var rec1 := if starting then rec.(jobStart := Some(now), pid := Some(pid)) else rec;
    var rec2 := rec1.(message := r.message, percent := r.percent, status := Known(r.status), timestamp := Some(now));
    if Terminal(r.status) then
      rec2.(outputFiles := Some(r.outputFiles), timeEnd := Some(now),
            expireAt := Some(now + rec.expiration.value), pid := None)
    else rec2
  }

  /** What every record written by the store satisfies. */
  ghost predicate RecordInv(rec: Record) {
    && rec.status.Known? && rec.expiration.Some? && rec.timeout.Some? && rec.pinned == Some(false)
    && (rec.status.status != NoStatus ==> rec.timestamp.Some?)
    && (Terminal(rec.status.status) ==>
          && rec.outputFiles.Some? && rec.pid.None?
          && rec.timestamp.Some? && rec.timeEnd == rec.timestamp
          && rec.expireAt == Some(rec.timestamp.value + rec.expiration.value))
  }

  /** A new record carries what the request asks, and nothing of a run yet. */
  lemma NewRecordFields(uuid: string, r: Request, now: int)
    ensures
      var rec := NewRecord(uuid, r, now);
      && rec.uuid == uuid && OfRequest(rec, r) && rec.status == Known(NoStatus) && rec.timeStart == now
      && rec.percent == -1 && rec.message == "" && rec.pinned == Some(false)
      && rec.timeEnd.None? && rec.timestamp.None? && rec.jobStart.None? && rec.pid.None?
      && rec.outputFiles.None? && rec.expireAt.None?
  {}

  /** The fields a record takes from its request. */
  predicate OfRequest(rec: Record, r: Request) {
    && rec.timeout == Some(r.timeout) && rec.expiration == Some(r.expiration)
    && rec.conformance == r.conformance && rec.identifier == r.identifier
    && rec.mapUri == r.mapUri && rec.realm == r.realm
  }

  predicate Finished(s: Status) {
    s == Done || s == Error || s == Dismiss
  }

  /** What an update sets and what it leaves, on any record it does not fail on. */
  lemma UpdatedFields(rec: Record, r: Response, now: int, pid: int)
    ensures Updatable(rec, r) <==> rec.status.Known? && (Finished(r.status) ==> rec.expiration.Some?)
    ensures Updatable(rec, r) ==>
      var u := Updated(rec, r, now, pid);
      var starts := r.status == Started && (rec.status == Known(NoStatus) || rec.status == Known(Accepted));
      && u.status == Known(r.status) && u.message == r.message && u.percent == r.percent && u.timestamp == Some(now)
      && u.jobStart == (if starts then Some(now) else rec.jobStart)
      && u.pid == (if Finished(r.status) then None else if starts then Some(pid) else rec.pid)
      && u.outputFiles == (if Finished(r.status) then Some(r.outputFiles) else rec.outputFiles)
      && u.timeEnd == (if Finished(r.status) then Some(now) else rec.timeEnd)
      && u.expireAt == (if Finished(r.status) then Some(now + rec.expiration.value) else rec.expireAt)
      && u.uuid == rec.uuid && u.timeStart == rec.timeStart && u.pinned == rec.pinned
      && u.timeout == rec.timeout && u.expiration == rec.expiration && u.conformance == rec.conformance
      && u.identifier == rec.identifier && u.mapUri == rec.mapUri && u.realm == rec.realm
  {}

  /** An update keeps the record good whatever it was read with. */
  lemma UpdatedKeeps(rec: Record, r: Response, now: int, pid: int)
    requires RecordInv(rec)
    ensures Updatable(rec, r) && RecordInv(Updated(rec, r, now, pid)) && Updated(rec, r, now, pid).uuid == rec.uuid
    ensures Updated(rec, r, now, pid).status == Known(r.status)
    ensures Updated(rec, r, now, pid).pid ==
      if Terminal(r.status) then None
      else if r.status == Started && Code(rec.status.status) < Code(Started) then Some(pid) else rec.pid
  {}

  // ---- The job document ------------------------------------------------

  datatype JobStatus = JobAccepted | JobRunning | JobSuccess | JobFailed | JobDismissed

  datatype JobDoc = JobDoc(
    jobId: string, processId: string, message: string, created: int, mapUri: Option<string>, progress: int,
    updated: Option<int>, started: Option<int>, finished: Option<int>, expire: Option<int>,
    status: Option<JobStatus>, results: Option<Conformance>)

  datatype KeyError = KeyError

  /** `_create_job_document`; `Err` is the KeyError of a missing key. */
  function JobDocument(rec: Record): Result<JobDoc, KeyError> {
    if rec.status.Legacy? then Err(KeyError) else
    var status := rec.status.status;
    var updated := if rec.timestamp == Some(0) then None else rec.timestamp;
    var doc := JobDoc(rec.uuid, rec.identifier, rec.message, rec.timeStart, rec.mapUri,
                      if rec.percent < 0 then 0 else rec.percent, updated, rec.jobStart, None, None, None, None);
    if Terminal(status) && rec.expireAt.None? then Err(KeyError) else
    var doc1 := if Terminal(status) then doc.(finished := rec.timeEnd, expire := rec.expireAt) else doc;
    match status
    case NoStatus => Ok(doc1)
    case Accepted => Ok(doc1.(status := Some(JobAccepted)))
    case Started => Ok(doc1.(status := Some(JobRunning)))
    case Done => Ok(doc1.(status := Some(JobSuccess), results := Some(rec.conformance)))
    case Error => Ok(doc1.(status := Some(JobFailed)))
    case Dismiss => Ok(doc1.(status := Some(JobDismissed)))
  }

  /** The document of a good record never misses a key. A finished job shows
      when it ended and that it expires one expiration later, an unfinished one
      neither; and each status has its own name. */
  lemma DocumentOfRecord(rec: Record)
    requires RecordInv(rec)
    ensures JobDocument(rec).Ok?
    ensures
      var doc, status := JobDocument(rec).value, rec.status.status;
      && doc.jobId == rec.uuid && doc.processId == rec.identifier && doc.mapUri == rec.mapUri
      && doc.message == rec.message && doc.created == rec.timeStart && doc.started == rec.jobStart
      && doc.progress >= 0 && doc.progress >= rec.percent && (doc.progress == 0 || doc.progress == rec.percent)
      && doc.updated == (if rec.timestamp == Some(0) then None else rec.timestamp)
      && (doc.finished.Some? <==> Terminal(status)) && (doc.expire.Some? <==> Terminal(status))
      && (Terminal(status) ==>
            doc.expire.value == doc.finished.value + rec.expiration.value && doc.finished == rec.timestamp)
      && (doc.status.None? <==> status == NoStatus)
      && (doc.status == Some(JobAccepted) <==> status == Accepted)
      && (doc.status == Some(JobRunning) <==> status == Started)
      && (doc.status == Some(JobSuccess) <==> status == Done)
      && (doc.status == Some(JobFailed) <==> status == Error)
      && (doc.status == Some(JobDismissed) <==> status == Dismiss)
      && doc.results == if status == Done then Some(rec.conformance) else None
  {}

  /** Of any record, good or not, the document misses a key exactly for an unknown
      status or an end without an expiry. */
  lemma DocumentMisses(rec: Record)
    ensures JobDocument(rec).Err? <==>
      rec.status.Legacy? || (Finished(rec.status.status) && rec.expireAt.None?)
  {}

  // ---- The reaper ------------------------------------------------------

  /** Not marked finished and not updated within its timeout, or never updated. */
  predicate Dangling(rec: Record, now: int) {
    rec.timestamp.None? ||
    (rec.status.Known? && !Terminal(rec.status.status) &&
     (rec.timeout.None? || now - rec.timestamp.value >= rec.timeout.value))
  }

  predicate Unfinished(rec: Record) {
    rec.status.Known? && !Terminal(rec.status.status)
  }

  function ExpirationOf(rec: Record, default: int): int {
    if rec.expiration.Some? then rec.expiration.value else default
  }

  /** Finished, or of an unknown status, and older than its expiration. */
  predicate Expired(rec: Record, now: int, default: int) {
    rec.timestamp.Some? && !Unfinished(rec) && now - rec.timestamp.value >= ExpirationOf(rec, default)
  }

  predicate Reaped(rec: Record, now: int, default: int) {
    rec.pinned != Some(true) && (Dangling(rec, now) || Expired(rec, now, default))
  }

  /** The reaper's rule, on any record: unpinned, and never updated, or in a status
      before the end for its timeout or without one, or in any other status for
      its expiration, the default one if it has none. */
  lemma ReapedIff(rec: Record, now: int, default: int)
    ensures Reaped(rec, now, default) <==>
      && rec.pinned != Some(true)
      && (|| rec.timestamp.None?
          || (if rec.status.Known? && !Finished(rec.status.status) then
                rec.timeout.None? || rec.timestamp.value + rec.timeout.value <= now
              else if rec.expiration.Some? then rec.timestamp.value + rec.expiration.value <= now
              else rec.timestamp.value + default <= now))
  {}

  /** The reaper spares a job within its timeout and a result within its
      expiration, and reclaims every unpinned record by the later of the two. */
  lemma ReaperBounds(rec: Record, now: int, default: int)
    requires rec.timestamp.Some?
    ensures rec.pinned == Some(true) ==> !Reaped(rec, now, default)
    ensures Unfinished(rec) && rec.timeout.Some? && now < rec.timestamp.value + rec.timeout.value ==>
      !Reaped(rec, now, default)
    ensures !Unfinished(rec) && now < rec.timestamp.value + ExpirationOf(rec, default) ==> !Reaped(rec, now, default)
    ensures (rec.pinned != Some(true)
             && (rec.timeout.Some? ==> now >= rec.timestamp.value + rec.timeout.value)
             && now >= rec.timestamp.value + ExpirationOf(rec, default)) ==> Reaped(rec, now, default)
  {}

  /** The reaper keeps the promise of the job document: a finished job goes
      exactly from the expiry the document shows. */
  lemma ReapedAtExpiry(rec: Record, now: int, default: int)
    requires RecordInv(rec) && Terminal(rec.status.status)
    ensures Reaped(rec, now, default) <==> now >= JobDocument(rec).value.expire.value
  {}

  /** An update within its timeout or expiration postpones the reaping. */
  lemma ReapedAfterUpdate(rec: Record, r: Response, at: int, pid: int, now: int, default: int)
    requires RecordInv(rec) && now >= at
    ensures
      var life := if Terminal(r.status) then rec.expiration.value else rec.timeout.value;
      Updatable(rec, r) && (Reaped(Updated(rec, r, at, pid), now, default) <==> now - at >= life)
  {}

  /** The records the reaper deletes. */
  ghost function Doomed(records: map<string, Record>, now: int, default: int): set<string> {
    set k | k in records && Reaped(records[k], now, default)
  }

  ghost predicate Keyed(records: map<string, Record>) {
    forall k :: k in records ==> records[k].uuid == k
  }

  class LogStore {
    var hstatus: map<string, Record>
    var requests: map<string, Request>
    var responses: map<string, string>

    /** Records sit under their own uuid and request documents have a record. */
    ghost predicate Valid()
      reads this
    {
      && Keyed(hstatus)
      && requests.Keys <= hstatus.Keys
    }

    /** Every document has a record. */
    ghost predicate Covered()
      reads this
    {
      Valid() && responses.Keys <= hstatus.Keys
    }

    constructor ()
      ensures Covered() && hstatus == map[] && requests == map[] && responses == map[]
    {
      hstatus, requests, responses := map[], map[], map[];
    }

    method LogRequest(uuid: string, r: Request, now: int) returns (rec: Record)
      requires Valid()
      modifies this`hstatus, this`requests
      ensures Valid() && rec == NewRecord(uuid, r, now) && RecordInv(rec)
      ensures rec.uuid == uuid && rec.timeStart == now && OfRequest(rec, r) && rec.status == Known(NoStatus)
      ensures hstatus == old(hstatus)[uuid := rec] && requests == old(requests)[uuid := r]
    {
      rec := NewRecord(uuid, r, now);
      hstatus := hstatus[uuid := rec];
      requests := requests[uuid := r];
    }

    /** The record an update starts from: the stored one, or one logged anew. */
    function Base(uuid: string, r: Response, now: int): Record
      reads this
    {
      if uuid in hstatus then hstatus[uuid] else NewRecord(uuid, r.request, now)
    }

    method UpdateResponse(uuid: string, r: Response, now: int, pid: int) returns (res: Result<Record, KeyError>)
      requires Valid()
      modifies this`hstatus, this`requests
      ensures Valid() && uuid in hstatus
      ensures res.Ok? <==> Updatable(old(Base(uuid, r, now)), r)
      ensures res.Err? <==>
        && uuid in old(hstatus)
        && (old(hstatus)[uuid].status.Legacy? || (Finished(r.status) && old(hstatus)[uuid].expiration.None?))
      ensures res.Ok? ==> res.value == Updated(old(Base(uuid, r, now)), r, now, pid)
      ensures hstatus == old(hstatus)[uuid := if res.Ok? then res.value else old(Base(uuid, r, now))]
      ensures requests == if uuid in old(hstatus) then old(requests) else old(requests)[uuid := r.request]
    {
      ghost var base := Base(uuid, r, now);
      var record;
      if uuid !in hstatus {
        record := LogRequest(uuid, r.request, now);
      } else {
        record := hstatus[uuid];
      }
      assert record == base && hstatus == old(hstatus)[uuid := base];
      if record.status.Legacy? || (Terminal(r.status) && record.expiration.None?) {
        return Err(KeyError);
      }
      record := Edit(record, r, now, pid);
      hstatus := hstatus[uuid := record];
      return Ok(record);
    }

    /** The edits `update_response` makes to the record, one field at a time. */
    static method Edit(read: Record, r: Response, now: int, pid: int) returns (record: Record)
      requires Updatable(read, r)
      ensures record == Updated(read, r, now, pid)
    {
      record := read;
      if Code(record.status.status) < Code(Started) && r.status == Started {
        record := record.(jobStart := Some(now));
        record := record.(pid := Some(pid));
      }
      record := record.(message := r.message);
      record := record.(percent := r.percent);
      record := record.(status := Known(r.status));
      record := record.(timestamp := Some(now));
      if Terminal(r.status) {
        record := record.(outputFiles := Some(r.outputFiles));
        record := record.(timeEnd := Some(now));
        record := record.(expireAt := Some(now + record.expiration.value));
        record := record.(pid := None);
      }
    }

    method WriteResponse(uuid: string, content: string)
      requires Valid()
      modifies this`responses
      ensures Valid() && responses == old(responses)[uuid := content]
    {
      responses := responses[uuid := content];
    }

    method DeleteResponse(uuid: string)
      requires Valid()
      modifies this
      ensures Valid() && (old(Covered()) ==> Covered())
      ensures hstatus == old(hstatus) - {uuid}
      ensures requests == old(requests) - {uuid} && responses == old(responses) - {uuid}
    {
      responses := responses - {uuid};
      requests := requests - {uuid};
      hstatus := hstatus - {uuid};
    }

    /** `WPSResponse.update_status`: the response document is written before the
        record; taken as one step, no document is left without a record. */
    method UpdateStatus(uuid: string, r: Response, document: string, now: int, pid: int)
      returns (res: Result<Record, KeyError>)
      requires Covered()
      modifies this
      ensures Covered() && uuid in hstatus
      ensures responses == if document == "" then old(responses) else old(responses)[uuid := document]
      ensures res.Ok? <==> Updatable(old(Base(uuid, r, now)), r)
      ensures hstatus == old(hstatus)[uuid := if res.Ok? then Updated(old(Base(uuid, r, now)), r, now, pid)
                                              else old(Base(uuid, r, now))]
    {
      if |document| > 0 {
        WriteResponse(uuid, document);
      }
      res := UpdateResponse(uuid, r, now, pid);
    }

    /** `delete_results`; `Err` is FileNotFoundError. */
    method DeleteResults(uuid: string, force: bool) returns (r: Result<bool, string>)
      requires Covered()
      modifies this
      ensures Covered()
      ensures r == if force then Ok(true) else if uuid !in old(hstatus) then Err(uuid)
                   else Ok(old(hstatus)[uuid].status.Known? ==> Finished(old(hstatus)[uuid].status.status))
      ensures
        if r == Ok(true) then
          && hstatus == old(hstatus) - {uuid}
          && requests == old(requests) - {uuid} && responses == old(responses) - {uuid}
        else hstatus == old(hstatus) && requests == old(requests) && responses == old(responses)
    {
      if !force {
        if uuid !in hstatus { return Err(uuid); }
        var rec := hstatus[uuid];
        if rec.status.Known? && Code(rec.status.status) < Code(Done) {
          return Ok(false);
        }
      }
      DeleteResponse(uuid);
      return Ok(true);
    }

    /** `get_ogcapi_job_dismiss`: an unknown job is no error; an unfinished one
        with a pid asks for a kill; the job's record and documents go. */
    method Dismiss(uuid: string) returns (r: Result<Option<Record>, KeyError>, kill: Option<int>)
      requires Covered()
      modifies this
      ensures Covered()
      ensures r.Err? <==> uuid in old(hstatus) && old(hstatus)[uuid].status.Legacy?
      ensures r.Ok? ==> r.value == if uuid in old(hstatus) then Some(old(hstatus)[uuid]) else None
      ensures kill.Some? <==>
        && r.Ok? && r.value.Some? && !Finished(r.value.value.status.status)
        && r.value.value.pid.Some? && r.value.value.pid != Some(0)
      ensures kill.Some? ==> kill == r.value.value.pid
      ensures hstatus == old(hstatus) - (if r.Ok? then {uuid} else {})
      ensures r.Ok? && r.value.Some? ==> requests == old(requests) - {uuid} && responses == old(responses) - {uuid}
      ensures !(r.Ok? && r.value.Some?) ==> requests == old(requests) && responses == old(responses)
    {
      kill := None;
      if uuid !in hstatus { return Ok(None), None; }
      var rec := hstatus[uuid];
      if rec.status.Legacy? { return Err(KeyError), None; }
      if Code(rec.status.status) < Code(Done) && rec.pid.Some? && rec.pid != Some(0) {
        kill := rec.pid;
      }
      var _ := DeleteResults(uuid, true);
      r := Ok(Some(rec));
    }

    /** The test the reaper makes on one record. */
    static method Inspect(rec: Record, now: int, default: int) returns (reap: bool)
      ensures reap <==> Reaped(rec, now, default)
    {
      var dangling := rec.timestamp.None?;
      if !dangling && rec.status.Known? && Code(rec.status.status) < Code(Done) {
        dangling := rec.timeout.None? || now - rec.timestamp.value >= rec.timeout.value;
        if !dangling { return false; }
      }
      var expiration := ExpirationOf(rec, default);
      var notpinned := rec.pinned != Some(true);
      return notpinned && (dangling || now - rec.timestamp.value >= expiration);
    }

    /** `_clean_processes`: exactly the unpinned records that are dangling or
        expired go, with their documents; a second pass finds nothing. */
    method CleanProcesses(now: int, default: int)
      requires Valid() && Covered()
      modifies this
      ensures Valid() && Covered()
      ensures hstatus == old(hstatus) - Doomed(old(hstatus), now, default)
      ensures requests == old(requests) - Doomed(old(hstatus), now, default)
      ensures responses == old(responses) - Doomed(old(hstatus), now, default)
      ensures Doomed(hstatus, now, default) == {}
    {
      hide Reaped, Doomed, Keyed, Covered;
      var records := hstatus;
      NoneLeft(records, now, default);
      var todo := records.Keys;
      ghost var doomed, gone := Doomed(records, now, default), {};
      ghost var requests0, responses0 := requests, responses;
      while todo != {}
        invariant Valid() && Covered()
        invariant todo <= records.Keys && gone == doomed - todo
        invariant hstatus == records - gone && requests == requests0 - gone && responses == responses0 - gone
        decreases |todo|
      {
        var k :| k in todo;
        todo := todo - {k};
        DoomedIff(records, k, now, default);
        var reap := Inspect(records[k], now, default);
        if reap {
          DeleteResponse(records[k].uuid);
          MinusOne(records, gone, k);
          MinusOne(requests0, gone, k);
          MinusOne(responses0, gone, k);
          gone := gone + {k};
        }
      }
    }
  }

  lemma DoomedIff(records: map<string, Record>, k: string, now: int, default: int)
    requires k in records && Keyed(records)
    ensures k in Doomed(records, now, default) <==> Reaped(records[k], now, default)
    ensures records[k].uuid == k
  {}

  /** The reaper is idempotent at a fixed time. */
  lemma NoneLeft(records: map<string, Record>, now: int, default: int)
    ensures Doomed(records, now, default) <= records.Keys
    ensures Doomed(records - Doomed(records, now, default), now, default) == {}
  {}

  lemma MinusOne<T>(m: map<string, T>, gone: set<string>, k: string)
    ensures m - gone - {k} == m - (gone + {k})
  {}
}
