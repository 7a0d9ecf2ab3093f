/**
  Workers, the job queue and its clients as interleaved atomic steps (packages worker and queue).

  Every Redis command, and every MULTI/EXEC pipeline, is one step that takes effect (`up`) or fails
  and changes nothing.  A step that only repeats a poll is left out.  The step Call is the return of
  Execute; nothing here says that every call returns.
*/
module JobProtocol {
  import opened Prelude
  import opened Proto
  import opened JobStore
  import Langs

  datatype Setup = Setup(
    json: Json, ttl: int, languages: map<Bytes, Langs.Language>,
    defaultTimeMs: int, defaultMemoryMb: int, outputLimit: int)

  /** What Executor.Execute returns: an error, or a response. */
  datatype Reply = Failure(msg: Bytes) | Response(resp: ExecResponse)

  /** Where a worker stands in loop and process. */
  datatype Pc =
    | Idle
    | Stopped
    | Loading(id: Id)
    | Marking(id: Id, job: Job)
    | Looking(id: Id, job: Job)
    | Calling(id: Id, job: Job, attempt: nat)
    | Finishing(id: Id, job: Job, verdict: Update)

  /** Calls of Execute: first attempts, failed first attempts, second attempts, failed seconds. */
  datatype Tally = Tally(firsts: nat, firstFails: nat, seconds: nat, bothFail: nat) {
    function Calls(): nat {
      firsts + seconds
    }

    function Failing(): nat {
      firstFails + bothFail
    }
  }

  /**
    The shared store and the workers, and what has happened so far: the ids in the order they were
    enqueued with the jobs behind them, the ids taken from the list, those whose final write took
    effect, those given up because a Redis command failed, those whose key has expired, and the
    abstract record of every job.
  */
  datatype State = State(
    store: Store, workers: seq<Pc>,
    order: seq<Id>, submitted: map<Id, Job>, taken: seq<Id>,
    finished: set<Id>, faulted: set<Id>, expired: set<Id>,
    record: map<Id, Job>, tally: Tally)

  function Workers(n: nat): seq<Pc> {
    seq(n, i => Idle)
  }

  function Init(n: nat): State {
    State(Store(map[], {}, []), Workers(n), [], map[], [], {}, {}, {}, map[], Tally(0, 0, 0, 0))
  }

  datatype Step =
    | Submit(j: Job)
    | Pop(w: nat)
    | Stop(w: nat)
    | LoadJob(w: nat, up: bool)
    | Mark(w: nat, up: bool)
    | Look(w: nat)
    | Call(w: nat, reply: Reply)
    | Finish(w: nat, up: bool)
    | Expire(id: Id)

  const MAX_ATTEMPTS := 2

  function PickPositive(v: int, fallback: int): int {
    if v > 0 then v else fallback
  }

  /** The request a worker builds for a job. */
  function RequestOf(c: Setup, j: Job): ExecRequest
    requires j.language in c.languages
  {
    var l := c.languages[j.language];
    ExecRequest(l.sourceFile, j.source, l.compileCmd, l.runCmd, j.stdins,
                PickPositive(j.timeLimitMs, c.defaultTimeMs),
                PickPositive(j.memoryLimitMb, c.defaultMemoryMb), c.outputLimit)
  }

  const AGENT_PREFIX: Bytes := "agent: "
  const UNKNOWN_LANGUAGE: Bytes := "unknown language"

  /** The final write for a response: agent errors fail the job, anything else is done. */
  function VerdictOf(resp: ExecResponse): Update {
    if resp.agentError != [] then ToFinal(FAILED, [], AGENT_PREFIX + resp.agentError, None)
    else ToFinal(DONE, resp.compileError, [], resp.results)
  }

  /** After a call: finish, try again, or give up after the last attempt. */
  function AfterCall(id: Id, j: Job, attempt: nat, reply: Reply): Pc {
    match reply
    case Response(resp) => Finishing(id, j, VerdictOf(resp))
    case Failure(msg) =>
      if attempt < MAX_ATTEMPTS then Calling(id, j, attempt + 1)
      else Finishing(id, j, ToFinal(FAILED, [], msg, None))
  }

  function Counted(t: Tally, attempt: nat, failed: bool): Tally {
    if attempt == 1 then t.(firsts := t.firsts + 1, firstFails := t.firstFails + if failed then 1 else 0)
    else t.(seconds := t.seconds + 1, bothFail := t.bothFail + if failed then 1 else 0)
  }

  // ---------------------------------------------------------------- steps

  ghost predicate At(s: State, w: nat) {
    w < |s.workers|
  }

  ghost predicate Enabled(c: Setup, s: State, a: Step) {
    match a
    case Submit(j) => j.id != [] && j.id !in s.order && GoInts(j)
    case Pop(w) => At(s, w) && s.workers[w].Idle? && s.store.list != []
    case Stop(w) => At(s, w) && s.workers[w].Idle?
    case LoadJob(w, _) => At(s, w) && s.workers[w].Loading?
    case Mark(w, _) => At(s, w) && s.workers[w].Marking?
    case Look(w) => At(s, w) && s.workers[w].Looking?
    case Call(w, _) => At(s, w) && s.workers[w].Calling?
    case Finish(w, _) => At(s, w) && s.workers[w].Finishing? && s.workers[w].verdict.ToFinal?
    case Expire(id) => id in s.store.expiring
  }

  ghost function Goto(s: State, w: nat, pc: Pc): State
    requires At(s, w)
  {
    s.(workers := s.workers[w := pc])
  }

  /** A Redis error ends the processing of the job. */
  ghost function GiveUp(s: State, w: nat, id: Id): State
    requires At(s, w)
  {
    Goto(s, w, Idle).(faulted := s.faulted + {id})
  }

  ghost function Recorded(c: Setup, s: State, id: Id, u: Update): map<Id, Job> {
    if id in s.record then s.record[id := Updated(c.json, s.record[id], u)] else s.record
  }

  ghost function Apply(c: Setup, s: State, a: Step): State
    requires Enabled(c, s, a)
  {
    match a
    case Submit(j) =>
      s.(store := Enqueued(c.json, s.store, j), order := s.order + [j.id],
         submitted := s.submitted[j.id := j], record := s.record[j.id := Accepted(c.json, j)])
    case Pop(w) =>
      var id := s.store.list[|s.store.list| - 1];
      Goto(s, w, if id == [] then Idle else Loading(id)).(
        store := Popped(s.store), taken := s.taken + [id])
    case Stop(w) => Goto(s, w, Stopped)
    case LoadJob(w, up) =>
      var id := s.workers[w].id;
      if !up then GiveUp(s, w, id)
      else (match Load(c.json, Stored(s.store, id))
            case Err(_) => GiveUp(s, w, id)
            case Ok(j) => Goto(s, w, Marking(id, j)))
    case Mark(w, up) =>
      var Marking(id, j) := s.workers[w];
      if !up then GiveUp(s, w, id)
      else Goto(s, w, Looking(id, j)).(
             store := Marked(s.store, id), record := Recorded(c, s, id, ToRunning))
    case Look(w) =>
      var Looking(id, j) := s.workers[w];
      Goto(s, w, if j.language in c.languages then Calling(id, j, 1)
                 else Finishing(id, j, ToFinal(FAILED, [], UNKNOWN_LANGUAGE, None)))
    case Call(w, reply) =>
      var Calling(id, j, n) := s.workers[w];
      Goto(s, w, AfterCall(id, j, n, reply)).(tally := Counted(s.tally, n, reply.Failure?))
    case Finish(w, up) =>
      var Finishing(id, _, u) := s.workers[w];
      if !up then GiveUp(s, w, id)
      else Goto(s, w, Idle).(
             store := Concluded(c.json, c.ttl, s.store, id, u.status, u.compileErr, u.errStr, u.results),
             record := Recorded(c, s, id, u), finished := s.finished + {id})
    case Expire(id) =>
      s.(store := JobStore.Expired(s.store, id), expired := s.expired + {id})
  }

  ghost predicate Legal(c: Setup, s: State, run: seq<Step>)
    decreases |run|
  {
    run == [] || (Enabled(c, s, run[0]) && Legal(c, Apply(c, s, run[0]), run[1..]))
  }

  ghost function After(c: Setup, s: State, run: seq<Step>): State
    requires Legal(c, s, run)
    decreases |run|
  {
    if run == [] then s else After(c, Apply(c, s, run[0]), run[1..])
  }
}
