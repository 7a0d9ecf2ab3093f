/** The guest agent: output capping, the compile-then-run loop, and its time. */
module Guest {
  import opened Duration
  import opened Prelude
  import opened Proto

  // ---------------------------------------------------------------- capped output

  /** cappedBuffer: keeps the first `cap` bytes and pretends to accept the rest. */
  class CappedBuffer {
    const cap: int
    var buf: Bytes

    constructor (cap: int)
      ensures this.cap == cap && buf == []
    {
      this.cap := cap;
      this.buf := [];
    }

    ghost predicate Valid()
      reads this
    {
      buf == Prefix(buf, cap)
    }

    method Write(p: Bytes) returns (n: int)
      requires Valid()
      modifies this`buf
      ensures Valid() && n == |p|
      ensures buf == Prefix(old(buf) + p, cap)
    {
      if cap <= 0 || |buf| >= cap {
        return |p|;
      }
      var room := cap - |buf|;
      if room >= |p| {
        buf := buf + p;
        return |p|;
      }
      buf := buf + p[..room];
      return |p|;
    }
  }

  lemma {:induction false} ConcatSnoc(chunks: seq<Bytes>, p: Bytes)
    ensures Concat(chunks + [p]) == Concat(chunks) + p
  {
    if chunks == [] {
      assert chunks + [p] == [p] && Concat([p]) == p + Concat([p][1..]);
    } else {
      assert (chunks + [p])[1..] == chunks[1..] + [p];
      ConcatSnoc(chunks[1..], p);
    }
  }

  lemma PrefixOfPrefix(a: Bytes, b: Bytes, n: int)
    ensures Prefix(Prefix(a, n) + b, n) == Prefix(a + b, n)
  {
  }

  // ---------------------------------------------------------------- one program run

  /** How cmd.Run ended: cleanly, with a non-zero exit status, or with any other error. */
  datatype Exit = Clean | Status(code: int) | Broken

  /** What one run of a program does, as the agent sees it. */
  datatype Run = Run(out: seq<Bytes>, err: seq<Bytes>, exit: Exit, timedOut: bool, elapsedMs: nat) {
    predicate Valid() {
      exit.Status? ==> exit.code != 0
    }

    function Code(): int {
      match exit
      case Clean => 0
      case Status(code) => code
      case Broken => -1
    }
  }

  /** Copy everything a program writes into a capped buffer. */
  method Capture(chunks: seq<Bytes>, outCap: int) returns (out: Bytes)
    ensures out == Prefix(Concat(chunks), outCap)
  {
    var b := new CappedBuffer(outCap);
    for i := 0 to |chunks|
      invariant b.Valid()
      invariant b.buf == Prefix(Concat(chunks[..i]), outCap)
    {
      var n := b.Write(chunks[i]);
      assert chunks[..i + 1] == chunks[..i] + [chunks[i]];
      ConcatSnoc(chunks[..i], chunks[i]);
      PrefixOfPrefix(Concat(chunks[..i]), chunks[i], outCap);
    }
    assert chunks[..|chunks|] == chunks;
    out := b.buf;
  }

  method RunOnce(run: Run, outCap: int)
    returns (stdout: Bytes, code: int, stderr: Bytes, timedOut: bool, failed: bool)
    ensures stdout == Prefix(Concat(run.out), outCap)
    ensures stderr == Prefix(Concat(run.err), outCap)
    ensures code == (match run.exit case Clean => 0 case Status(n) => n case Broken => -1)
    ensures timedOut == run.timedOut
    ensures failed <==> !run.exit.Clean?
  {
    stdout := Capture(run.out, outCap);
    stderr := Capture(run.err, outCap);
    timedOut := run.timedOut;
    failed := !run.exit.Clean?;
    code := 0;
    if failed {
      match run.exit
      case Status(c) => code := c;
      case _ => code := -1;
    }
  }

  // ---------------------------------------------------------------- handle

  /** The programs a request starts; `setup` is the error of writing the source file, if any. */
  datatype World = World(
    setup: Option<Bytes>,
    compile: Bytes -> Run,
    run: (nat, Bytes, Bytes) -> Run)
  {
    ghost predicate Valid() {
      && (setup.Some? ==> setup.value != [])
      && (forall cmd :: compile(cmd).Valid())
      && (forall i, cmd, stdin :: run(i, cmd, stdin).Valid())
    }
  }

  function CaseOf(w: World, req: ExecRequest, i: nat): CaseResult
    requires i < |req.stdins|
  {
    var r := w.run(i, req.runCmd, req.stdins[i]);
    CaseResult(Prefix(Concat(r.out), req.outputLimitBytes), Prefix(Concat(r.err), req.outputLimitBytes),
               r.Code(), 0, 0, r.timedOut)
  }

  function CasesOf(w: World, req: ExecRequest, n: nat): (cs: seq<CaseResult>)
    requires n <= |req.stdins|
    ensures |cs| == n
  {
    seq(n, i requires 0 <= i < n => CaseOf(w, req, i))
  }

  predicate Compiles(req: ExecRequest) {
    req.compileCmd != []
  }

  function CompileMessage(w: World, req: ExecRequest): Bytes {
    var r := w.compile(req.compileCmd);
    var err := Prefix(Concat(r.err), req.outputLimitBytes);
    if err != [] then err else Prefix(Concat(r.out), req.outputLimitBytes)
  }

  const COMPILE_FAILED: Bytes := "compile: "
  const EXEC_FAILED: Bytes := "exec: "

  /** What the guest answers: a set-up error, a compile error, or one case per stdin in order. */
  function Handle(w: World, req: ExecRequest): ExecResponse {
    if w.setup.Some? then ExecResponse([], None, w.setup.value)
    else if Compiles(req) && w.compile(req.compileCmd).Code() != 0 then
      ExecResponse(CompileMessage(w, req), None, [])
    else ExecResponse([], Some(CasesOf(w, req, |req.stdins|)), [])
  }

  /**
    The agent's handler.  Its two "compile:" and "exec:" agent errors need a failed run with exit
    code 0 and are never taken.
  */
  method HandleRequest(w: World, req: ExecRequest) returns (resp: ExecResponse)
    requires w.Valid()
    ensures resp == Handle(w, req)
  {
    if w.setup.Some? {
      return ExecResponse([], None, w.setup.value);
    }
    if req.compileCmd != [] {
      var stdout, code, stderr, _, failed := RunOnce(w.compile(req.compileCmd), req.outputLimitBytes);
      if failed && code == 0 {
        return ExecResponse([], None, COMPILE_FAILED);
      }
      if code != 0 {
        var msg := stderr;
        if msg == [] {
          msg := stdout;
        }
        return ExecResponse(msg, None, []);
      }
    }
    var results: seq<CaseResult> := [];
    for i := 0 to |req.stdins|
      invariant results == CasesOf(w, req, i)
    {
      var stdout, code, stderr, timedOut, failed :=
        RunOnce(w.run(i, req.runCmd, req.stdins[i]), req.outputLimitBytes);
      if failed && code == 0 && !timedOut {
        return ExecResponse([], None, EXEC_FAILED);
      }
      results := results + [CaseResult(stdout, stderr, code, 0, 0, timedOut)];
    }
    return ExecResponse([], Some(results), []);
  }

  /** A compile step that does not end cleanly is answered with its error stream, or its output. */
  lemma CompileErrorIs(w: World, req: ExecRequest)
    requires w.Valid() && w.setup.None? && req.compileCmd != [] && !w.compile(req.compileCmd).exit.Clean?
    ensures var r := w.compile(req.compileCmd); var cap := req.outputLimitBytes;
      && Handle(w, req).results.None? && Handle(w, req).agentError == []
      && (cap > 0 && Concat(r.err) != [] ==> Handle(w, req).compileError == Prefix(Concat(r.err), cap))
      && (Concat(r.err) == [] ==> Handle(w, req).compileError == Prefix(Concat(r.out), cap))
      && (cap <= 0 ==> Handle(w, req).compileError == [])
  {
  }

  /** Otherwise case k is what the k-th run wrote and how it ended. */
  lemma CaseIs(w: World, req: ExecRequest, k: nat)
    requires w.setup.None? && (req.compileCmd == [] || w.compile(req.compileCmd).exit.Clean?)
    requires k < |req.stdins|
    ensures var resp := Handle(w, req); var r := w.run(k, req.runCmd, req.stdins[k]);
      && resp.compileError == [] && resp.agentError == []
      && resp.results.Some? && |resp.results.value| == |req.stdins|
      && var c := resp.results.value[k];
      && c.stdout == Prefix(Concat(r.out), req.outputLimitBytes)
      && c.stderr == Prefix(Concat(r.err), req.outputLimitBytes)
      && c.timedOut == r.timedOut && c.timeMs == 0 && c.memoryKb == 0
      && (r.exit.Clean? ==> c.exitCode == 0)
      && (r.exit.Status? ==> c.exitCode == r.exit.code)
      && (r.exit.Broken? ==> c.exitCode == -1)
  {
  }

  /** A source file that cannot be written is the agent's error, and nothing is run. */
  lemma SetupErrorIs(w: World, req: ExecRequest)
    requires w.setup.Some?
    ensures Handle(w, req) == ExecResponse([], None, w.setup.value) && GuestTime(w, req) == 0
  {
  }

  /** The compile step fails and nothing it wrote is kept. */
  predicate SilentFailure(w: World, req: ExecRequest) {
    var r := w.compile(req.compileCmd);
    && Compiles(req) && r.Code() != 0
    && (req.outputLimitBytes <= 0 || (Concat(r.out) == [] && Concat(r.err) == []))
  }

  /**
    The protocol promises that exactly one of the compile error and the results is present on
    success.  For a request with a stdin that holds exactly unless the compile step fails silently:
    then neither is.
  */
  lemma ExactlyOneAnswer(w: World, req: ExecRequest)
    requires w.setup.None? && req.stdins != []
    ensures var r := Handle(w, req); var hasResults := r.results.Some? && r.results.value != [];
      && r.agentError == []
      && !(r.compileError != [] && hasResults)
      && (r.compileError != [] || hasResults <==> !SilentFailure(w, req))
  {
  }

  /** For every request with a compile step there is a guest that answers with neither. */
  lemma NeitherAnswer(req: ExecRequest) returns (w: World)
    requires Compiles(req)
    ensures w.Valid() && w.setup.None? && SilentFailure(w, req)
    ensures Handle(w, req) == ExecResponse([], None, [])
  {
    var quiet := Run([], [], Status(1), false, 0);
    w := World(None, cmd => quiet, (i, cmd, stdin) => quiet);
  }

  // ---------------------------------------------------------------- time

  /** Every run of the request returns within the timeout runOnce sets for it. */
  ghost predicate InTime(w: World, req: ExecRequest) {
    && (Compiles(req) ==> w.compile(req.compileCmd).elapsedMs * NS_PER_MS <= Timeout(4 * req.timeLimitMs))
    && forall i :: 0 <= i < |req.stdins| ==>
         w.run(i, req.runCmd, req.stdins[i]).elapsedMs * NS_PER_MS <= Timeout(req.timeLimitMs)
  }

  function CaseTime(w: World, req: ExecRequest, n: nat): nat
    requires n <= |req.stdins|
  {
    if n == 0 then 0
    else CaseTime(w, req, n - 1) + w.run(n - 1, req.runCmd, req.stdins[n - 1]).elapsedMs
  }

  /** The time the guest spends running programs for a request. */
  function GuestTime(w: World, req: ExecRequest): nat {
    if w.setup.Some? then 0
    else if !Compiles(req) then CaseTime(w, req, |req.stdins|)
    else
      var c := w.compile(req.compileCmd);
      if c.Code() != 0 then c.elapsedMs else c.elapsedMs + CaseTime(w, req, |req.stdins|)
  }

  function WorstCase(compiles: bool, limitMs: int, n: nat): int {
    (if compiles then 4 * limitMs else 0) + n * limitMs
  }

  lemma {:induction false} CaseTimeBounded(w: World, req: ExecRequest, n: nat)
    requires n <= |req.stdins| && InTime(w, req) && req.timeLimitMs >= 0
    ensures CaseTime(w, req, n) <= n * req.timeLimitMs
  {
    if n > 0 {
      CaseTimeBounded(w, req, n - 1);
      TimeoutBounded(req.timeLimitMs);
      assert n * req.timeLimitMs == (n - 1) * req.timeLimitMs + req.timeLimitMs;
    }
  }

  lemma GuestTimeBounded(w: World, req: ExecRequest)
    requires InTime(w, req) && req.timeLimitMs >= 0
    ensures GuestTime(w, req) <= WorstCase(Compiles(req), req.timeLimitMs, |req.stdins|)
  {
    CaseTimeBounded(w, req, |req.stdins|);
    TimeoutBounded(4 * req.timeLimitMs);
    assert 0 <= |req.stdins| * req.timeLimitMs;
  }

  /** Unless a timeout overflows, the bound is met: programs that all run to their limits. */
  lemma WorstCaseHappens(req: ExecRequest) returns (w: World)
    requires req.timeLimitMs >= 0 && Fits(req.timeLimitMs * NS_PER_MS)
    requires Compiles(req) ==> Fits(4 * req.timeLimitMs * NS_PER_MS)
    ensures w.Valid() && InTime(w, req)
    ensures GuestTime(w, req) == WorstCase(Compiles(req), req.timeLimitMs, |req.stdins|)
  {
    var t: nat := req.timeLimitMs;
    var slow := Run([], [], Clean, false, 4 * t);
    var step := Run([], [], Clean, false, t);
    w := World(None, cmd => slow, (i, cmd, stdin) => step);
    TimeoutBounded(t);
    TimeoutBounded(4 * t);
    SlowCases(w, req, |req.stdins|, t);
  }

  lemma {:induction false} SlowCases(w: World, req: ExecRequest, n: nat, t: nat)
    requires n <= |req.stdins|
    requires forall i, cmd, stdin :: w.run(i, cmd, stdin).elapsedMs == t
    ensures CaseTime(w, req, n) == n * t
  {
    if n > 0 {
      SlowCases(w, req, n - 1, t);
      assert n * t == (n - 1) * t + t;
    }
  }
}
