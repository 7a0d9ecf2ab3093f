/** From an accepted submission to the results a client reads (package api on top of the rest). */
module EndToEnd {
  import opened Prelude
  import opened Proto
  import opened Guest
  import opened Exchange
  import opened JobStore
  import opened JobProtocol
  import opened JobInvariant
  import opened JobTheorems
  import opened Budget
  import opened Duration
  import opened Wire
  import Decimal

  // ---------------------------------------------------------------- admission

  datatype Submission = Submission(
    language: Bytes, source: Bytes, stdins: seq<Bytes>, timeLimitMs: int, memoryLimitMb: int)

  datatype Refusal = NoLanguage | NoSource | NoStdins | UnknownLang

  function Validate(r: Submission): Option<Refusal> {
    if r.language == [] then Some(NoLanguage)
    else if r.source == [] then Some(NoSource)
    else if r.stdins == [] then Some(NoStdins)
    else None
  }

  /** The checks of POST /exec after decoding, and the job they let through. */
  function Admit(c: Setup, r: Submission, id: Id): Result<Job, Refusal> {
    var bad := Validate(r);
    if bad.Some? then Err(bad.value)
    else if r.language !in c.languages then Err(UnknownLang)
    else Ok(Job(id, r.language, r.source, r.stdins, r.timeLimitMs, r.memoryLimitMb, QUEUED, [], [], None))
  }

  /** Every enqueued job passed admission. */
  ghost predicate Admitted(c: Setup, a: Step) {
    a.Submit? ==> exists r: Submission :: Admit(c, r, a.j.id) == Ok(a.j)
  }

  /** Which submissions are let through, and why the others are refused, in the order of the checks. */
  lemma AdmitDecides(c: Setup, r: Submission, id: Id)
    ensures Admit(c, r, id).Ok?
       <==> r.language != [] && r.source != [] && r.stdins != [] && r.language in c.languages
    ensures Admit(c, r, id) == Err(NoLanguage) <==> r.language == []
    ensures Admit(c, r, id) == Err(NoSource) <==> r.language != [] && r.source == []
    ensures Admit(c, r, id) == Err(NoStdins) <==> r.language != [] && r.source != [] && r.stdins == []
    ensures Admit(c, r, id) == Err(UnknownLang)
       <==> r.language != [] && r.source != [] && r.stdins != [] && r.language !in c.languages
  {
  }

  lemma AdmittedJobs(c: Setup, r: Submission, id: Id)
    requires Admit(c, r, id).Ok?
    ensures var j := Admit(c, r, id).value;
      && j.id == id && j.language == r.language && j.source == r.source && j.stdins == r.stdins
      && j.timeLimitMs == r.timeLimitMs && j.memoryLimitMb == r.memoryLimitMb
      && j.language in c.languages && j.stdins != [] && j.source != [] && j.results.None?
  {
  }

  /**
    What a client submits reaches the guest: a complete submission in a registered language, with
    limits that are Go ints, is accepted; stored, loaded, turned into a request and sent, its texts
    are normalised once, positive limits are its own and others the defaults, and the commands are
    those of its language.
  */
  lemma SubmissionReachesGuest(c: Setup, r: Submission, id: Id)
    requires c.json.Lawful() && Decimal.IsInt(r.timeLimitMs) && Decimal.IsInt(r.memoryLimitMb)
    requires r.language != [] && r.source != [] && r.stdins != [] && r.language in c.languages
    ensures Admit(c, r, id).Ok?
    ensures var json := c.json; var l := c.languages[r.language];
      var loaded := Load(json, EnqueueFields(json, Admit(c, r, id).value));
      && loaded.Ok? && loaded.value.id == id && loaded.value.language == r.language
      && json.Request(RequestOf(c, loaded.value))
      == ExecRequest(
           json.text(l.sourceFile), json.text(r.source), json.text(l.compileCmd), json.text(l.runCmd),
           json.Texts(r.stdins),
           if r.timeLimitMs > 0 then r.timeLimitMs else c.defaultTimeMs,
           if r.memoryLimitMb > 0 then r.memoryLimitMb else c.defaultMemoryMb,
           c.outputLimit)
  {
    AdmitDecides(c, r, id);
    AdmittedJobs(c, r, id);
    LoadEnqueued(c.json, Admit(c, r, id).value);
    c.json.TextsTwice(r.stdins);
  }

  // ---------------------------------------------------------------- attempts

  /**
    What one call of Execute meets: a fault of the pool or the VM, or a peer that greets with a line
    and serves the request with its programs.
  */
  datatype Attempt = Lost(why: Bytes) | Reached(line: Bytes, w: World)

  /** Attempt n of a job; a job is processed once, so every execution is described by such a function. */
  type Attempts = (Id, nat) -> Attempt

  function ErrorText(e: HostError): Bytes {
    match e
    case NoGreeting(_) => "vsock dial"
    case TooLarge(n) => "request frame too large: " + Decimal.Itoa(n)
    case BadFrame(NoHeader) => "read header"
    case BadFrame(BadSize(n)) => "invalid response frame size: " + Decimal.Itoa(n)
    case BadFrame(Truncated) => "read payload"
    case BadJson => "decode response"
  }

  function ReplyOf(json: Json, a: Attempt, req: ExecRequest): Reply {
    match a
    case Lost(why) => Failure(why)
    case Reached(line, w) =>
      match CallResult(json, req, PeerBytes(json, line, w, req))
      case Ok(resp) => Response(resp)
      case Err(e) => Failure(ErrorText(e))
  }

  /** The final write of a job after at most two attempts. */
  function FinalOf(json: Json, att: Attempts, id: Id, req: ExecRequest): Update {
    match ReplyOf(json, att(id, 1), req)
    case Response(resp) => VerdictOf(resp)
    case Failure(_) =>
      match ReplyOf(json, att(id, 2), req)
      case Response(resp) => VerdictOf(resp)
      case Failure(msg) => ToFinal(FAILED, [], msg, None)
  }

  /** Every call of Execute meets what `att` says. */
  ghost predicate Answers(c: Setup, s: State, a: Step, att: Attempts)
    requires Enabled(c, s, a)
  {
    a.Call? && s.workers[a.w].job.language in c.languages ==>
      var Calling(id, j, n) := s.workers[a.w];
      a.reply == ReplyOf(c.json, att(id, n), RequestOf(c, j))
  }

  ghost predicate Faithful(c: Setup, s: State, run: seq<Step>, att: Attempts)
    requires Legal(c, s, run)
    decreases |run|
  {
    run != [] ==> Answers(c, s, run[0], att) && Faithful(c, Apply(c, s, run[0]), run[1..], att)
  }

  /** The final write of a loaded job, in a registered language or not. */
  function FinalFor(c: Setup, att: Attempts, loaded: Job): Update {
    if loaded.language in c.languages then FinalOf(c.json, att, loaded.id, RequestOf(c, loaded))
    else ToFinal(FAILED, [], UNKNOWN_LANGUAGE, None)
  }

  ghost function Expected(c: Setup, att: Attempts, loaded: Job): Job {
    Updated(c.json, loaded.(status := RUNNING), FinalFor(c, att, loaded))
  }

  ghost predicate PcObeys(c: Setup, att: Attempts, pc: Pc) {
    match pc
    case Calling(id, j, n) =>
      && 1 <= n <= MAX_ATTEMPTS && j.language in c.languages
      && (n == 2 ==> ReplyOf(c.json, att(id, 1), RequestOf(c, j)).Failure?)
    case Finishing(id, j, u) => j.id == id ==> u == FinalFor(c, att, j)
    case _ => true
  }

  ghost predicate RecordObeys(c: Setup, s: State, att: Attempts, id: Id) {
    id in s.finished && id in s.submitted && id in s.record ==>
      s.record[id] == Expected(c, att, Fresh(c, s, id))
  }

  ghost predicate Named(s: State) {
    forall id :: id in s.submitted ==> s.submitted[id].id == id
  }

  ghost predicate Obeys(c: Setup, s: State, att: Attempts) {
    && Named(s)
    && (forall w :: 0 <= w < |s.workers| ==> PcObeys(c, att, s.workers[w]))
    && (forall id :: RecordObeys(c, s, att, id))
  }

  lemma PcsObey(c: Setup, s: State, a: Step, att: Attempts)
    requires forall w :: 0 <= w < |s.workers| ==> PcObeys(c, att, s.workers[w])
    requires Enabled(c, s, a) && Answers(c, s, a, att)
    ensures forall w :: 0 <= w < |Apply(c, s, a).workers| ==> PcObeys(c, att, Apply(c, s, a).workers[w])
  {
  }

  lemma NamesKept(c: Setup, s: State, a: Step)
    requires Named(s) && Enabled(c, s, a)
    ensures Named(Apply(c, s, a))
  {
  }

  lemma FinishObeys(c: Setup, s: State, w: nat, up: bool, att: Attempts, id: Id)
    requires HandsOk(s) && Obeys(c, s, att) && Enabled(c, s, Finish(w, up)) && WorkerOk(c, s, s.workers[w])
    ensures RecordObeys(c, Apply(c, s, Finish(w, up)), att, id)
  {
    assert RecordObeys(c, s, att, id) && PcObeys(c, att, s.workers[w]);
  }

  lemma OtherObeys(c: Setup, s: State, a: Step, att: Attempts, id: Id)
    requires id in s.finished ==> id in s.order && id in s.submitted && id in s.record
    requires RecordObeys(c, s, att, id) && Enabled(c, s, a) && !a.Finish?
    requires a.Mark? ==> s.workers[a.w].id !in s.finished
    ensures RecordObeys(c, Apply(c, s, a), att, id)
  {
    if id in s.finished {
      OtherLeaves(c, s, a, id);
    }
  }

  lemma OtherLeaves(c: Setup, s: State, a: Step, id: Id)
    requires id in s.order && id in s.submitted && id in s.record && id in s.finished
    requires Enabled(c, s, a) && !a.Finish? && (a.Mark? ==> s.workers[a.w].id !in s.finished)
    ensures var s' := Apply(c, s, a);
      && id in s'.submitted && s'.submitted[id] == s.submitted[id]
      && id in s'.record && s'.record[id] == s.record[id]
  {
  }

  lemma {:induction false} RunObeys(c: Setup, s: State, run: seq<Step>, att: Attempts)
    requires c.json.Lawful() && Inv(c, s) && Obeys(c, s, att)
    requires Legal(c, s, run) && Faithful(c, s, run, att)
    ensures Obeys(c, After(c, s, run), att)
    decreases |run|
  {
    if run != [] {
      var a := run[0];
      PcsObey(c, s, a, att);
      NamesKept(c, s, a);
      forall id ensures RecordObeys(c, Apply(c, s, a), att, id) {
        if a.Finish? {
          assert WorkerOk(c, s, s.workers[a.w]);
          FinishObeys(c, s, a.w, a.up, att, id);
        } else {
          OtherObeys(c, s, a, att, id);
        }
      }
      StepKeeps(c, s, a);
      RunObeys(c, Apply(c, s, a), run[1..], att);
    }
  }

  // ---------------------------------------------------------------- the whole path

  /** A run in which Redis works, only admitted jobs are enqueued, and calls meet what `att` says. */
  ghost predicate GoodRun(c: Setup, n: nat, run: seq<Step>, att: Attempts) {
    && Legal(c, Init(n), run)
    && (forall i :: 0 <= i < |run| ==> NoFault(run[i]) && Admitted(c, run[i]))
    && Faithful(c, Init(n), run, att)
  }

  /** A stored job passed admission. */
  ghost predicate AdmittedJob(c: Setup, s: State, id: Id) {
    id in s.submitted && exists r: Submission :: Admit(c, r, id) == Ok(s.submitted[id])
  }

  /** The request a worker sends for a submitted job. */
  ghost function JobRequest(c: Setup, s: State, id: Id): ExecRequest
    requires id in s.submitted && s.submitted[id].language in c.languages
  {
    RequestOf(c, Fresh(c, s, id))
  }

  ghost predicate AllAdmitted(c: Setup, s: State) {
    forall id :: id in s.submitted ==> AdmittedJob(c, s, id)
  }

  lemma StepAdmitted(c: Setup, s: State, a: Step)
    requires AllAdmitted(c, s) && Enabled(c, s, a) && Admitted(c, a)
    ensures AllAdmitted(c, Apply(c, s, a))
  {
    var s' := Apply(c, s, a);
    forall id | id in s'.submitted ensures AdmittedJob(c, s', id) {
      if !a.Submit? || id != a.j.id {
        assert AdmittedJob(c, s, id);
      }
    }
  }

  lemma {:induction false} OnlyAdmitted(c: Setup, s: State, run: seq<Step>)
    requires Legal(c, s, run) && forall i :: 0 <= i < |run| ==> Admitted(c, run[i])
    requires AllAdmitted(c, s)
    ensures AllAdmitted(c, After(c, s, run))
    decreases |run|
  {
    if run != [] {
      StepAdmitted(c, s, run[0]);
      forall i | 0 <= i < |run[1..]| ensures Admitted(c, run[1..][i]) {
        assert run[1..][i] == run[i + 1];
      }
      OnlyAdmitted(c, Apply(c, s, run[0]), run[1..]);
    }
  }

  /** Case k of a job's results, from the k-th run of its program. */
  ghost predicate CaseDelivered(json: Json, g: ExecRequest, w: World, got: CaseResult, k: nat)
    requires k < |g.stdins|
  {
    var r := w.run(k, g.runCmd, g.stdins[k]);
    && got.stdout == json.text(Prefix(Concat(r.out), g.outputLimitBytes))
    && got.stderr == json.text(Prefix(Concat(r.err), g.outputLimitBytes))
    && got.exitCode == (match r.exit case Clean => 0 case Status(n) => n case Broken => -1)
    && got.timedOut == r.timedOut && got.timeMs == 0 && got.memoryKb == 0
  }

  /** The guest of the first attempt that got an answer through, if either did. */
  function Decisive(json: Json, att: Attempts, id: Id, req: ExecRequest): Option<World> {
    if ReplyOf(json, att(id, 1), req).Response? then Some(att(id, 1).w)
    else if ReplyOf(json, att(id, 2), req).Response? then Some(att(id, 2).w)
    else None
  }

  /** A peer greets with one line, its guest behaves, and its answer's length does not wrap around. */
  ghost predicate Sane(json: Json, a: Attempt, req: ExecRequest) {
    a.Reached? ==> '\n' !in a.line && a.w.Valid() && !Wraps(AnswerText(json, a.w, req))
  }

  /** The attempts that are made are sane. */
  ghost predicate AllSane(json: Json, att: Attempts, id: Id, req: ExecRequest) {
    Sane(json, att(id, 1), req) && (ReplyOf(json, att(id, 1), req).Failure? ==> Sane(json, att(id, 2), req))
  }

  /** One result per stdin, in order. */
  ghost predicate Succeeded(json: Json, g: ExecRequest, w: World, j: Job) {
    && j.status == "done" && j.error == [] && j.compileError == []
    && j.results.Some? && |j.results.value| == |g.stdins|
    && forall k :: 0 <= k < |g.stdins| ==> CaseDelivered(json, g, w, j.results.value[k], k)
  }

  predicate Builds(w: World, g: ExecRequest) {
    w.setup.None? && (g.compileCmd == [] || w.compile(g.compileCmd).exit.Clean?)
  }

  /** The outcome fields of a job that guest `w` has answered; `g` is the request as the guest reads it. */
  ghost predicate Reported(json: Json, g: ExecRequest, w: World, j: Job) {
    if w.setup.Some? then
      j.status == "failed" && j.error == "agent: " + json.text(w.setup.value)
      && j.compileError == [] && j.results.None?
    else if !Builds(w, g) then
      var r, cap := w.compile(g.compileCmd), g.outputLimitBytes;
      && j.status == "done" && j.error == [] && j.results.None?
      && j.compileError
         == json.text(if cap > 0 && Concat(r.err) != [] then Prefix(Concat(r.err), cap) else Prefix(Concat(r.out), cap))
    else Succeeded(json, g, w, j)
  }

  lemma ResponseReported(json: Json, w: World, req: ExecRequest, j: Job)
    requires json.Lawful() && w.Valid() && req.stdins != []
    ensures Reported(json, json.Request(req), w, Updated(json, j, VerdictOf(Transported(json, w, req))))
  {
    var g := json.Request(req);
    assert json.text([]) == [];
    if w.setup.None? && !Builds(w, g) {
      CompileErrorIs(w, g);
    } else if w.setup.None? {
      TransportedCases(json, w, req);
      json.CrossingTwice(Handle(w, g));
      var cs := CasesOf(w, g, |req.stdins|);
      assert Transported(json, w, req).results == Some(json.Cases(cs));
      forall k | 0 <= k < |cs| ensures json.Cases(cs)[k] == json.Case(CaseOf(w, g, k)) {
      }
    }
  }

  /** What a client reads for a job at the end: the answer of the decisive guest, or the second error. */
  ghost predicate Answered(c: Setup, s: State, id: Id, att: Attempts)
    requires id in s.submitted && s.submitted[id].language in c.languages
  {
    var req := JobRequest(c, s, id);
    match Load(c.json, Stored(s.store, id))
    case Err(_) => false
    case Ok(j) =>
      && SameJob(j, Fresh(c, s, id)) && j.id == id
      && match Decisive(c.json, att, id, req)
         case Some(w) => Reported(c.json, c.json.Request(req), w, j)
         case None =>
           && ReplyOf(c.json, att(id, 2), req).Failure?
           && j.status == "failed" && j.error == ReplyOf(c.json, att(id, 2), req).msg
           && j.compileError == [] && j.results.None?
  }

  lemma FinalReported(json: Json, att: Attempts, id: Id, req: ExecRequest, j: Job)
    requires json.Lawful() && req.stdins != []
    requires AllSane(json, att, id, req)
    ensures var w := Decisive(json, att, id, req);
      w.Some? ==> Reported(json, json.Request(req), w.value, Updated(json, j, FinalOf(json, att, id, req)))
  {
    var w := Decisive(json, att, id, req);
    if w.Some? {
      var a := if ReplyOf(json, att(id, 1), req).Response? then att(id, 1) else att(id, 2);
      CallDecided(json, a.line, a.w, req);
      ExchangeDecided(json, a.w, req);
      ResponseReported(json, a.w, req, j);
    }
  }

  lemma FinishedIsAnswered(c: Setup, s: State, id: Id, att: Attempts)
    requires c.json.Lawful() && StoreOk(c, s) && Named(s) && RecordObeys(c, s, att, id)
    requires id in s.submitted && id in s.record && id in s.finished && id !in s.expired
    requires s.submitted[id].language in c.languages && s.submitted[id].stdins != []
    requires AllSane(c.json, att, id, JobRequest(c, s, id))
    ensures Answered(c, s, id, att)
  {
    FinalReported(c.json, att, id, JobRequest(c, s, id), Fresh(c, s, id).(status := RUNNING));
  }

  lemma RunEnds(c: Setup, n: nat, run: seq<Step>, att: Attempts)
    requires c.json.Lawful() && Legal(c, Init(n), run) && Faithful(c, Init(n), run, att)
    ensures var s := After(c, Init(n), run);
      QueueOk(s) && StoreOk(c, s) && HandsOk(s) && Obeys(c, s, att)
  {
    InitInv(c, n);
    RunInv(c, Init(n), run);
    RunObeys(c, Init(n), run, att);
  }

  lemma FinishedWasSubmitted(s: State, id: Id)
    requires QueueOk(s) && HandsOk(s) && id in s.finished
    ensures id in s.submitted && id in s.record
  {
    assert id in s.taken && id in s.order;
  }

  /**
    At any moment of any run, whatever happens to Redis, to the VMs and to other jobs: an admitted
    job whose final write took effect reads, until it expires, as the first of its two attempts that
    got an answer through: one result per stdin, in order, each output the first OutputLimitBytes
    bytes its program wrote with texts normalised once; or the compile error; or the agent error.
    When neither attempt did, it has failed with the second error.
  */
  lemma FinishedDelivered(c: Setup, n: nat, run: seq<Step>, att: Attempts, id: Id)
    requires c.json.Lawful() && Legal(c, Init(n), run) && Faithful(c, Init(n), run, att)
    requires id in After(c, Init(n), run).finished && id !in After(c, Init(n), run).expired
    requires AdmittedJob(c, After(c, Init(n), run), id)
    ensures var s := After(c, Init(n), run);
      && s.submitted[id].language in c.languages
      && var req := JobRequest(c, s, id);
         AllSane(c.json, att, id, req) ==> Answered(c, s, id, att)
  {
    var s := After(c, Init(n), run);
    RunEnds(c, n, run, att);
    FinishedWasSubmitted(s, id);
    var r: Submission :| Admit(c, r, id) == Ok(s.submitted[id]);
    AdmittedJobs(c, r, id);
    var req := JobRequest(c, s, id);
    if AllSane(c.json, att, id, req) {
      assert RecordObeys(c, s, att, id);
      FinishedIsAnswered(c, s, id, att);
    }
  }

  /** A job in an unregistered language ends as failed, and no worker ever calls Execute for such a job. */
  lemma UnknownLanguageFails(c: Setup, n: nat, run: seq<Step>, att: Attempts, id: Id)
    requires c.json.Lawful() && Legal(c, Init(n), run) && Faithful(c, Init(n), run, att)
    requires id in After(c, Init(n), run).finished && id !in After(c, Init(n), run).expired
    ensures var s := After(c, Init(n), run);
      && id in s.submitted
      && (s.submitted[id].language !in c.languages ==>
            Poll(c, s, id) == Seen(Fresh(c, s, id).(status := "failed", error := "unknown language")))
      && forall w :: 0 <= w < |s.workers| && s.workers[w].Calling? ==> s.workers[w].job.language in c.languages
  {
    var s := After(c, Init(n), run);
    RunEnds(c, n, run, att);
    FinishedWasSubmitted(s, id);
    assert RecordObeys(c, s, att, id);
    PollsRecord(c, s, id);
  }

  lemma PollsRecord(c: Setup, s: State, id: Id)
    requires StoreOk(c, s) && id in s.record && id !in s.expired
    ensures Poll(c, s, id) == Seen(s.record[id])
  {
  }

  /** In a run of admitted jobs without Redis errors, at rest, that is every job that has not expired. */
  lemma Delivered(c: Setup, n: nat, run: seq<Step>, att: Attempts, id: Id)
    requires c.json.Lawful() && GoodRun(c, n, run, att) && Quiet(After(c, Init(n), run))
    requires id in After(c, Init(n), run).order && id !in After(c, Init(n), run).expired
    ensures var s := After(c, Init(n), run);
      && id in s.submitted && s.submitted[id].language in c.languages
      && var req := JobRequest(c, s, id);
         AllSane(c.json, att, id, req) ==> Answered(c, s, id, att)
  {
    OnlyAdmitted(c, Init(n), run);
    RunEnds(c, n, run, att);
    AllJobsTerminal(c, n, run, id);
    FinishedDelivered(c, n, run, att, id);
  }

  /** The peer greets, the request and the answer fit their frames, and the programs build. */
  ghost predicate Healthy(json: Json, a: Attempt, req: ExecRequest) {
    && a.Reached? && '\n' !in a.line && |a.line| <= MAX_REPLY && SaysOk(a.line)
    && a.w.Valid() && Builds(a.w, json.Request(req))
    && |json.request.enc(req)| <= MAX_FRAME_BYTES && |AnswerText(json, a.w, req)| <= MAX_FRAME_BYTES
  }

  /** The first attempt is healthy, or the second one is after a fault of the first. */
  ghost predicate Succeeds(json: Json, att: Attempts, id: Id, req: ExecRequest, n: nat) {
    && Healthy(json, att(id, n), req)
    && (n == 1 || (n == 2 && att(id, 1).Lost?))
  }

  lemma HealthyIsDecisive(json: Json, att: Attempts, id: Id, req: ExecRequest, n: nat)
    requires json.Lawful() && Succeeds(json, att, id, req, n)
    ensures AllSane(json, att, id, req) && Decisive(json, att, id, req) == Some(att(id, n).w)
  {
    CallDecided(json, att(id, n).line, att(id, n).w, req);
    ExchangeDecided(json, att(id, n).w, req);
  }

  /** What a client reads for a job whose n-th attempt succeeded. */
  ghost predicate ReadsResults(c: Setup, s: State, id: Id, att: Attempts, n: nat)
    requires id in s.submitted && s.submitted[id].language in c.languages && att(id, n).Reached?
  {
    var g := c.json.Request(JobRequest(c, s, id));
    match Load(c.json, Stored(s.store, id))
    case Err(_) => false
    case Ok(j) =>
      SameJob(j, Fresh(c, s, id)) && |g.stdins| == |s.submitted[id].stdins| && Succeeded(c.json, g, att(id, n).w, j)
  }

  /**
    The fault-free case, on conditions that can be seen beforehand: in a run of admitted jobs without
    Redis errors, at rest, a job whose first attempt is healthy, or whose second is after a fault of
    the first, reads as done with no error and exactly one result for each of its stdins, in order.
  */
  lemma HealthyDelivered(c: Setup, n: nat, run: seq<Step>, att: Attempts, id: Id, k: nat)
    requires c.json.Lawful() && GoodRun(c, n, run, att) && Quiet(After(c, Init(n), run))
    requires id in After(c, Init(n), run).order && id !in After(c, Init(n), run).expired
    ensures var s := After(c, Init(n), run);
      && id in s.submitted && s.submitted[id].language in c.languages
      && (Succeeds(c.json, att, id, JobRequest(c, s, id), k) ==> ReadsResults(c, s, id, att, k))
  {
    var s := After(c, Init(n), run);
    Delivered(c, n, run, att, id);
    if Succeeds(c.json, att, id, JobRequest(c, s, id), k) {
      HealthyIsDecisive(c.json, att, id, JobRequest(c, s, id), k);
    }
  }

  /**
    A guest that keeps the limits of a job's request answers within the deadline the host computes
    for it, when the default limit is positive and, for a compiled language, three limits fit in the grace.
  */
  lemma JobInBudget(c: Setup, j: Job, w: World, extraNs: int)
    requires j.language in c.languages && c.defaultTimeMs > 0 && extraNs >= 0
    requires var req := RequestOf(c, j);
      && InTime(w, c.json.Request(req))
      && Fits(req.timeLimitMs * NS_PER_MS * (|j.stdins| + 1) + extraNs)
      && (!Compiles(c.json.Request(req)) || 3 * req.timeLimitMs * NS_PER_MS <= extraNs)
    ensures RequestOf(c, j).timeLimitMs > 0
    ensures GuestTime(w, c.json.Request(RequestOf(c, j))) * NS_PER_MS
         <= BudgetNs(RequestOf(c, j).timeLimitMs, |j.stdins|, extraNs)
  {
    GuestInBudget(w, c.json.Request(RequestOf(c, j)), extraNs);
  }
}
