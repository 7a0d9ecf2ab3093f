/** The messages between host and guest (package agent), and what JSON does to them. */
module Proto {
  import opened Prelude

  datatype ExecRequest = ExecRequest(
    sourceFile: Bytes, source: Bytes, compileCmd: Bytes, runCmd: Bytes, stdins: seq<Bytes>,
    timeLimitMs: int, memoryLimitMb: int, outputLimitBytes: int)

  datatype CaseResult = CaseResult(
    stdout: Bytes, stderr: Bytes, exitCode: int, timeMs: int, memoryKb: int, timedOut: bool)

  /** `results` is None for a nil slice. */
  datatype ExecResponse = ExecResponse(
    compileError: Bytes, results: Option<seq<CaseResult>>, agentError: Bytes)

  /** A pair of encoder and decoder. */
  datatype Codec<!T> = Codec(enc: T -> Bytes, dec: Bytes -> Option<T>)

  /** The JSON library, as far as this project relies on it. */
  datatype Json = Json(
    text: Bytes -> Bytes,
    stdins: Codec<seq<Bytes>>,
    results: Codec<Option<seq<CaseResult>>>,
    request: Codec<ExecRequest>,
    response: Codec<ExecResponse>)
  {
    /** Invalid UTF-8 is replaced when a string is encoded; everything else survives. */
    function Texts(ts: seq<Bytes>): (r: seq<Bytes>)
      ensures |r| == |ts|
    {
      seq(|ts|, i requires 0 <= i < |ts| => text(ts[i]))
    }

    function Case(c: CaseResult): CaseResult {
      c.(stdout := text(c.stdout), stderr := text(c.stderr))
    }

    function Cases(cs: seq<CaseResult>): (r: seq<CaseResult>)
      ensures |r| == |cs|
    {
      seq(|cs|, i requires 0 <= i < |cs| => Case(cs[i]))
    }

    function Results(rs: Option<seq<CaseResult>>): Option<seq<CaseResult>> {
      match rs
      case None => None
      case Some(cs) => Some(Cases(cs))
    }

    function Request(r: ExecRequest): ExecRequest {
      ExecRequest(text(r.sourceFile), text(r.source), text(r.compileCmd), text(r.runCmd), Texts(r.stdins),
                  r.timeLimitMs, r.memoryLimitMb, r.outputLimitBytes)
    }

    /** Results are tagged omitempty: an empty slice comes back as nil. */
    function Response(r: ExecResponse): ExecResponse {
      ExecResponse(text(r.compileError),
                   if r.results == Some([]) then None else Results(r.results),
                   text(r.agentError))
    }

    ghost predicate Lawful() {
      && (forall t :: text(text(t)) == text(t))
      && (forall t :: text(t) == [] <==> t == [])
      && (forall x :: stdins.dec(stdins.enc(x)) == Some(Texts(x)) && stdins.enc(x) != [])
      && (forall x :: results.dec(results.enc(x)) == Some(Results(x)) && results.enc(x) != [])
      && (forall x :: request.dec(request.enc(x)) == Some(Request(x)) && request.enc(x) != [])
      && (forall x :: response.dec(response.enc(x)) == Some(Response(x)) && response.enc(x) != [])
    }

    /** Crossing the frame codec and then the Redis codec normalises once. */
    lemma CrossingTwice(r: ExecResponse)
      requires Lawful()
      ensures Results(Response(r).results) == Response(r).results
      ensures Response(Response(r)) == Response(r)
    {
      if r.results.Some? && r.results.value != [] {
        var cs := r.results.value;
        assert Cases(Cases(cs)) == Cases(cs) by {
          forall i | 0 <= i < |cs| ensures Case(Case(cs[i])) == Case(cs[i]) {
          }
        }
      }
    }

    lemma TextsTwice(ts: seq<Bytes>)
      requires Lawful()
      ensures Texts(Texts(ts)) == Texts(ts)
    {
    }
  }
}
