/** Jobs as Redis hashes of strings, and the list of waiting ids (package queue). */
module JobStore {
  import opened Prelude
  import opened Proto
  import Decimal

  type Id = Bytes

  const QUEUED: Bytes := "queued"
  const RUNNING: Bytes := "running"
  const DONE: Bytes := "done"
  const FAILED: Bytes := "failed"

  predicate Terminal(status: Bytes) {
    status == DONE || status == FAILED
  }

  datatype Job = Job(
    id: Id, language: Bytes, source: Bytes, stdins: seq<Bytes>, timeLimitMs: int, memoryLimitMb: int,
    status: Bytes, error: Bytes, compileError: Bytes, results: Option<seq<CaseResult>>)

  /** A Redis hash: field names to values. */
  type Hash = map<string, Bytes>

  datatype LoadError = NotFound | BadStdins | BadResults | BadTimeLimit | BadMemoryLimit

  // ---------------------------------------------------------------- fields

  /** A missing field of a hash reads as the empty string. */
  function Get(h: Hash, field: string): Bytes {
    if field in h then h[field] else []
  }

  function EnqueueFields(json: Json, j: Job): Hash {
    map["id" := j.id, "language" := j.language, "source" := j.source,
        "stdins" := json.stdins.enc(j.stdins),
        "time_limit_ms" := Decimal.Itoa(j.timeLimitMs),
        "memory_limit_mb" := Decimal.Itoa(j.memoryLimitMb),
        "status" := QUEUED]
  }

  function RunningFields(): Hash {
    map["status" := RUNNING]
  }

  function FinishFields(json: Json, status: Bytes, compileErr: Bytes, errStr: Bytes,
                        results: Option<seq<CaseResult>>): Hash {
    map["status" := status, "compile_error" := compileErr, "error" := errStr,
        "results" := json.results.enc(results)]
  }

  /** A field of JSON or of digits, where an empty one stands for a default. */
  function Decode<T>(s: Bytes, dec: Bytes -> Option<T>, absent: T): Option<T> {
    if s == [] then Some(absent) else dec(s)
  }

  /** The fields Load looks at, as read. */
  datatype Raw = Raw(
    id: Bytes, language: Bytes, source: Bytes, stdins: Bytes, timeLimit: Bytes, memoryLimit: Bytes,
    status: Bytes, error: Bytes, compileError: Bytes, results: Bytes)

  function RawOf(h: Hash): Raw {
    Raw(Get(h, "id"), Get(h, "language"), Get(h, "source"), Get(h, "stdins"), Get(h, "time_limit_ms"),
        Get(h, "memory_limit_mb"), Get(h, "status"), Get(h, "error"), Get(h, "compile_error"),
        Get(h, "results"))
  }

  function Parse(json: Json, r: Raw): Result<Job, LoadError> {
    var stdins := Decode(r.stdins, json.stdins.dec, []);
    var results := Decode(r.results, json.results.dec, None);
    var timeLimit := Decode(r.timeLimit, Decimal.Atoi, 0);
    var memoryLimit := Decode(r.memoryLimit, Decimal.Atoi, 0);
    if stdins.None? then Err(BadStdins)
    else if results.None? then Err(BadResults)
    else if timeLimit.None? then Err(BadTimeLimit)
    else if memoryLimit.None? then Err(BadMemoryLimit)
    else Ok(Job(r.id, r.language, r.source, stdins.value, timeLimit.value, memoryLimit.value,
                r.status, r.error, r.compileError, results.value))
  }

  /** Queue.Load on the fields of one hash. */
  function Load(json: Json, h: Hash): Result<Job, LoadError> {
    if h == map[] then Err(NotFound) else Parse(json, RawOf(h))
  }

  /** A structured field that is present and does not decode. */
  predicate Malformed(json: Json, h: Hash) {
    || (Get(h, "stdins") != [] && json.stdins.dec(Get(h, "stdins")).None?)
    || (Get(h, "results") != [] && json.results.dec(Get(h, "results")).None?)
    || (Get(h, "time_limit_ms") != [] && Decimal.Atoi(Get(h, "time_limit_ms")).None?)
    || (Get(h, "memory_limit_mb") != [] && Decimal.Atoi(Get(h, "memory_limit_mb")).None?)
  }

  /** A hash yields a job, never a partial one, exactly when it exists and no field is malformed. */
  lemma LoadFailsIff(json: Json, h: Hash)
    ensures Load(json, h).Err? <==> h == map[] || Malformed(json, h)
    ensures Load(json, h) == Err(NotFound) <==> h == map[]
  {
  }

  /** An integer field: empty or missing reads as zero. */
  predicate ReadsInt(h: Hash, field: string, n: int) {
    if field in h && h[field] != [] then Decimal.Atoi(h[field]) == Some(n) else n == 0
  }

  predicate ReadsText(h: Hash, field: string, t: Bytes) {
    if field in h then t == h[field] else t == []
  }

  /** Each part of a loaded job comes from the field of its name; absent ones take their defaults. */
  lemma LoadReads(json: Json, h: Hash)
    requires Load(json, h).Ok?
    ensures var j := Load(json, h).value;
      && ReadsText(h, "id", j.id) && ReadsText(h, "language", j.language) && ReadsText(h, "source", j.source)
      && ReadsText(h, "status", j.status) && ReadsText(h, "error", j.error)
      && ReadsText(h, "compile_error", j.compileError)
      && ReadsInt(h, "time_limit_ms", j.timeLimitMs) && ReadsInt(h, "memory_limit_mb", j.memoryLimitMb)
      && (if "stdins" in h && h["stdins"] != [] then json.stdins.dec(h["stdins"]) == Some(j.stdins) else j.stdins == [])
      && (if "results" in h && h["results"] != [] then json.results.dec(h["results"]) == Some(j.results)
          else j.results == None)
  {
  }

  /** A field that is present, not empty and does not decode. */
  predicate Broken<T>(h: Hash, field: string, dec: Bytes -> Option<T>) {
    field in h && h[field] != [] && dec(h[field]).None?
  }

  /** The first field that does not decode, in the order of the code, names the error. */
  lemma LoadErrors(json: Json, h: Hash)
    ensures var stdins := Broken(h, "stdins", json.stdins.dec);
      var results := Broken(h, "results", json.results.dec);
      var time := Broken(h, "time_limit_ms", Decimal.Atoi);
      var memory := Broken(h, "memory_limit_mb", Decimal.Atoi);
      && (Load(json, h) == Err(NotFound) <==> h == map[])
      && (Load(json, h) == Err(BadStdins) <==> stdins)
      && (Load(json, h) == Err(BadResults) <==> !stdins && results)
      && (Load(json, h) == Err(BadTimeLimit) <==> !stdins && !results && time)
      && (Load(json, h) == Err(BadMemoryLimit) <==> !stdins && !results && !time && memory)
  {
  }

  // ---------------------------------------------------------------- the abstract record

  /** The fields of a Job are Go ints. */
  predicate GoInts(j: Job) {
    Decimal.IsInt(j.timeLimitMs) && Decimal.IsInt(j.memoryLimitMb)
  }

  /** The record a new job is read back as. */
  function Accepted(json: Json, j: Job): Job {
    Job(j.id, j.language, j.source, json.Texts(j.stdins), j.timeLimitMs, j.memoryLimitMb,
        QUEUED, [], [], None)
  }

  /** The two updates of a stored job. */
  datatype Update =
    | ToRunning
    | ToFinal(status: Bytes, compileErr: Bytes, errStr: Bytes, results: Option<seq<CaseResult>>)

  function FieldsOf(json: Json, u: Update): Hash {
    match u
    case ToRunning => RunningFields()
    case ToFinal(status, ce, err, rs) => FinishFields(json, status, ce, err, rs)
  }

  function Updated(json: Json, j: Job, u: Update): Job {
    match u
    case ToRunning => j.(status := RUNNING)
    case ToFinal(status, ce, err, rs) =>
      j.(status := status, compileError := ce, error := err, results := json.Results(rs))
  }

  lemma RawEnqueued(json: Json, j: Job)
    ensures RawOf(EnqueueFields(json, j))
         == Raw(j.id, j.language, j.source, json.stdins.enc(j.stdins), Decimal.Itoa(j.timeLimitMs),
                Decimal.Itoa(j.memoryLimitMb), QUEUED, [], [], [])
    ensures EnqueueFields(json, j) != map[]
  {
    assert "id" in EnqueueFields(json, j);
  }

  /** Loading a job that was just enqueued under a fresh key. */
  lemma LoadEnqueued(json: Json, j: Job)
    requires json.Lawful() && GoInts(j)
    ensures Load(json, EnqueueFields(json, j)) == Ok(Accepted(json, j))
  {
    Decimal.AtoiItoa(j.timeLimitMs);
    Decimal.AtoiItoa(j.memoryLimitMb);
    RawEnqueued(json, j);
  }

  lemma RawRunning(h: Hash)
    ensures RawOf(h + RunningFields()) == RawOf(h).(status := RUNNING)
    ensures h + RunningFields() != map[]
  {
    assert "status" in h + RunningFields();
  }

  lemma RawFinal(json: Json, h: Hash, status: Bytes, ce: Bytes, err: Bytes, rs: Option<seq<CaseResult>>)
    ensures RawOf(h + FinishFields(json, status, ce, err, rs))
         == RawOf(h).(status := status, compileError := ce, error := err, results := json.results.enc(rs))
    ensures h + FinishFields(json, status, ce, err, rs) != map[]
  {
    assert "status" in h + FinishFields(json, status, ce, err, rs);
  }

  /** HSET of an update's fields is the update of the record. */
  lemma LoadUpdated(json: Json, h: Hash, j: Job, u: Update)
    requires json.Lawful() && Load(json, h) == Ok(j)
    ensures Load(json, h + FieldsOf(json, u)) == Ok(Updated(json, j, u))
  {
    match u
    case ToRunning => RawRunning(h);
    case ToFinal(status, ce, err, rs) => RawFinal(json, h, status, ce, err, rs);
  }

  function HashAfter(json: Json, h: Hash, us: seq<Update>): Hash
    decreases |us|
  {
    if us == [] then h else HashAfter(json, h + FieldsOf(json, us[0]), us[1..])
  }

  function RecordAfter(json: Json, j: Job, us: seq<Update>): Job
    decreases |us|
  {
    if us == [] then j else RecordAfter(json, Updated(json, j, us[0]), us[1..])
  }

  /** Over any sequence of updates the hash of strings stands for the updated record. */
  lemma {:induction false} HashRefinesRecord(json: Json, h: Hash, j: Job, us: seq<Update>)
    requires json.Lawful() && Load(json, h) == Ok(j)
    ensures Load(json, HashAfter(json, h, us)) == Ok(RecordAfter(json, j, us))
    decreases |us|
  {
    if us != [] {
      LoadUpdated(json, h, j, us[0]);
      HashRefinesRecord(json, h + FieldsOf(json, us[0]), Updated(json, j, us[0]), us[1..]);
    }
  }

  // ---------------------------------------------------------------- the store

  /** The part of Redis the queue uses: job hashes, keys with an expiry, and the list. */
  datatype Store = Store(hashes: map<Id, Hash>, expiring: set<Id>, list: seq<Id>)

  function HSet(s: Store, id: Id, fields: Hash): Store {
    s.(hashes := s.hashes[id := (if id in s.hashes then s.hashes[id] else map[]) + fields])
  }

  function Enqueued(json: Json, s: Store, j: Job): Store {
    HSet(s, j.id, EnqueueFields(json, j)).(list := [j.id] + s.list)
  }

  /** BRPOP takes from the right what LPUSH put at the left. */
  function Popped(s: Store): Store
    requires s.list != []
  {
    s.(list := s.list[..|s.list| - 1])
  }

  function Marked(s: Store, id: Id): Store {
    HSet(s, id, RunningFields())
  }

  function Concluded(json: Json, ttl: int, s: Store, id: Id, status: Bytes, ce: Bytes, err: Bytes,
                     rs: Option<seq<CaseResult>>): Store {
    var s' := HSet(s, id, FinishFields(json, status, ce, err, rs));
    if Terminal(status) && ttl > 0 then s'.(expiring := s'.expiring + {id}) else s'
  }

  function Expired(s: Store, id: Id): Store {
    s.(hashes := s.hashes - {id}, expiring := s.expiring - {id})
  }

  function Stored(s: Store, id: Id): Hash {
    if id in s.hashes then s.hashes[id] else map[]
  }

  /** Nothing but one id's hash differs. */
  ghost predicate OnlyHash(s: Store, s': Store, id: Id) {
    s'.hashes.Keys == s.hashes.Keys + {id} && forall k :: k in s.hashes && k != id ==> s'.hashes[k] == s.hashes[k]
  }

  /** What enqueueing leaves in Redis under a fresh id. */
  lemma EnqueuedHash(json: Json, s: Store, j: Job)
    requires j.id !in s.hashes
    ensures var s' := Enqueued(json, s, j); var h := Stored(s', j.id);
      && h.Keys == {"id", "language", "source", "stdins", "time_limit_ms", "memory_limit_mb", "status"}
      && h["id"] == j.id && h["language"] == j.language && h["source"] == j.source
      && h["stdins"] == json.stdins.enc(j.stdins)
      && h["time_limit_ms"] == Decimal.Itoa(j.timeLimitMs) && h["memory_limit_mb"] == Decimal.Itoa(j.memoryLimitMb)
      && h["status"] == "queued"
      && OnlyHash(s, s', j.id) && s'.expiring == s.expiring && s'.list == [j.id] + s.list
  {
  }

  /** SetRunning changes the status of one hash. */
  lemma MarkedHash(s: Store, id: Id)
    ensures var s' := Marked(s, id); var h := Stored(s', id);
      && h.Keys == Stored(s, id).Keys + {"status"} && h["status"] == "running"
      && (forall f :: f in Stored(s, id) && f != "status" ==> h[f] == Stored(s, id)[f])
      && OnlyHash(s, s', id) && s'.expiring == s.expiring && s'.list == s.list
  {
  }

  /** Finish writes four fields of one hash, and sets an expiry for done and failed under a positive TTL. */
  lemma ConcludedHash(json: Json, ttl: int, s: Store, id: Id, status: Bytes, ce: Bytes, err: Bytes,
                      rs: Option<seq<CaseResult>>)
    ensures var s' := Concluded(json, ttl, s, id, status, ce, err, rs);
      var before, h := Stored(s, id), Stored(s', id);
      && h.Keys == before.Keys + {"status", "compile_error", "error", "results"}
      && h["status"] == status && h["compile_error"] == ce && h["error"] == err
      && h["results"] == json.results.enc(rs)
      && (forall f :: f in before && f !in {"status", "compile_error", "error", "results"} ==> h[f] == before[f])
      && OnlyHash(s, s', id) && s'.list == s.list
      && s'.expiring == s.expiring + (if ttl > 0 && (status == "done" || status == "failed") then {id} else {})
  {
  }

  /**
    Queue.  Every method issues one command, or one MULTI/EXEC pipeline, which either takes
    effect (`up`) or fails and changes nothing.
  */
  class Queue {
    const json: Json
    const ttl: int
    var hashes: map<Id, Hash>
    var expiring: set<Id>
    var list: seq<Id>

    constructor (json: Json, ttl: int)
      ensures this.json == json && this.ttl == ttl
      ensures View() == Store(map[], {}, [])
    {
      this.json := json;
      this.ttl := ttl;
      this.hashes := map[];
      this.expiring := {};
      this.list := [];
    }

    function View(): Store
      reads this
    {
      Store(hashes, expiring, list)
    }

    method SetFields(id: Id, fields: Hash)
      modifies this`hashes
      ensures View() == HSet(old(View()), id, fields)
    {
      var h := if id in hashes then hashes[id] else map[];
      hashes := hashes[id := h + fields];
    }

    method Enqueue(j: Job, up: bool) returns (ok: bool)
      modifies this
      ensures ok == up
      ensures View() == if ok then Enqueued(json, old(View()), j) else old(View())
    {
      if !up {
        return false;
      }
      SetFields(j.id, map["id" := j.id, "language" := j.language, "source" := j.source,
                          "stdins" := json.stdins.enc(j.stdins),
                          "time_limit_ms" := Decimal.Itoa(j.timeLimitMs),
                          "memory_limit_mb" := Decimal.Itoa(j.memoryLimitMb),
                          "status" := QUEUED]);
      list := [j.id] + list;
      return true;
    }

    /** Returns the empty id on a timeout. */
    method Dequeue(up: bool) returns (id: Id, ok: bool)
      modifies this`list
      ensures ok == up
      ensures ok && old(list) != [] ==> id == old(list)[|old(list)| - 1] && View() == Popped(old(View()))
      ensures !ok || old(list) == [] ==> id == [] && View() == old(View())
    {
      if !up {
        return [], false;
      }
      if list == [] {
        return [], true;
      }
      id := list[|list| - 1];
      list := list[..|list| - 1];
      ok := true;
    }

    /** None stands for a Redis error; otherwise the hash is decoded field by field. */
    method LoadJob(id: Id, up: bool) returns (r: Option<Result<Job, LoadError>>)
      ensures r == if up then Some(Load(json, Stored(View(), id))) else None
    {
      if !up {
        return None;
      }
      var m := if id in hashes then hashes[id] else map[];
      if m == map[] {
        return Some(Err(NotFound));
      }
      var j := Job(Get(m, "id"), Get(m, "language"), Get(m, "source"), [], 0, 0,
                   Get(m, "status"), Get(m, "error"), Get(m, "compile_error"), None);
      var s := Get(m, "stdins");
      if s != [] {
        var stdins := json.stdins.dec(s);
        if stdins.None? {
          return Some(Err(BadStdins));
        }
        j := j.(stdins := stdins.value);
      }
      s := Get(m, "results");
      if s != [] {
        var results := json.results.dec(s);
        if results.None? {
          return Some(Err(BadResults));
        }
        j := j.(results := results.value);
      }
      s := Get(m, "time_limit_ms");
      if s != [] {
        var n := Decimal.Atoi(s);
        if n.None? {
          return Some(Err(BadTimeLimit));
        }
        j := j.(timeLimitMs := n.value);
      }
      s := Get(m, "memory_limit_mb");
      if s != [] {
        var n := Decimal.Atoi(s);
        if n.None? {
          return Some(Err(BadMemoryLimit));
        }
        j := j.(memoryLimitMb := n.value);
      }
      return Some(Ok(j));
    }

    method SetRunning(id: Id, up: bool) returns (ok: bool)
      modifies this`hashes
      ensures ok == up
      ensures View() == if ok then Marked(old(View()), id) else old(View())
    {
      if up {
        SetFields(id, map["status" := RUNNING]);
      }
      ok := up;
    }

    method Finish(id: Id, status: Bytes, ce: Bytes, err: Bytes, rs: Option<seq<CaseResult>>, up: bool)
      returns (ok: bool)
      modifies this`hashes, this`expiring
      ensures ok == up
      ensures View() == if ok then Concluded(json, ttl, old(View()), id, status, ce, err, rs) else old(View())
    {
      if !up {
        return false;
      }
      SetFields(id, map["status" := status, "compile_error" := ce, "error" := err,
                        "results" := json.results.enc(rs)]);
      if Terminal(status) && ttl > 0 {
        expiring := expiring + {id};
      }
      return true;
    }
  }
}
