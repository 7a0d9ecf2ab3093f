/** The laws assumed of the JSON library can be met: a concrete encoding that satisfies them. */
module JsonModel {
  import opened Prelude
  import opened Proto
  import opened Decimal

  // ---------------------------------------------------------------- lists of texts

  // An 'x' announces more, a '.' ends: the end of a value can always be recognised.

  function Text(b: Bytes): Bytes {
    if b == [] then ['.'] else ['x', b[0]] + Text(b[1..])
  }

  function Texts(ts: seq<Bytes>): (s: Bytes)
    ensures s != []
  {
    if ts == [] then ['.'] else ['x'] + (Text(ts[0]) + Texts(ts[1..]))
  }

  lemma {:induction false} TextSplits(a: Bytes, b: Bytes, r: Bytes, r': Bytes)
    requires Text(a) + r == Text(b) + r'
    ensures a == b && r == r'
  {
    assert (Text(a) + r)[0] == Text(a)[0] && (Text(b) + r')[0] == Text(b)[0];
    if a == [] {
      assert (Text(a) + r)[1..] == r && (Text(b) + r')[1..] == r';
    } else {
      assert (Text(a) + r)[1] == a[0] && (Text(b) + r')[1] == b[0];
      assert (Text(a) + r)[2..] == Text(a[1..]) + r && (Text(b) + r')[2..] == Text(b[1..]) + r';
      TextSplits(a[1..], b[1..], r, r');
      assert a == [a[0]] + a[1..] && b == [b[0]] + b[1..];
    }
  }

  lemma Announced(p: Bytes, q: Bytes)
    requires ['x'] + p == ['x'] + q
    ensures p == q
  {
    assert p == (['x'] + p)[1..] && q == (['x'] + q)[1..];
  }

  lemma {:induction false} TextsInjective(a: seq<Bytes>, b: seq<Bytes>)
    requires Texts(a) == Texts(b)
    ensures a == b
  {
    assert a == [] <==> Texts(a)[0] == '.';
    assert b == [] <==> Texts(b)[0] == '.';
    if a != [] {
      Announced(Text(a[0]) + Texts(a[1..]), Text(b[0]) + Texts(b[1..]));
      TextSplits(a[0], b[0], Texts(a[1..]), Texts(b[1..]));
      TextsInjective(a[1..], b[1..]);
      assert a == [a[0]] + a[1..] && b == [b[0]] + b[1..];
    }
  }

  // ---------------------------------------------------------------- messages as lists of texts

  const YES: Bytes := "y"

  function Case(c: CaseResult): (ts: seq<Bytes>)
    ensures |ts| == 6
  {
    [c.stdout, c.stderr, Itoa(c.exitCode), Itoa(c.timeMs), Itoa(c.memoryKb), if c.timedOut then YES else []]
  }

  function Cases(cs: seq<CaseResult>): (ts: seq<Bytes>)
    ensures |ts| == 6 * |cs|
  {
    if cs == [] then [] else Case(cs[0]) + Cases(cs[1..])
  }

  function Results(rs: Option<seq<CaseResult>>): seq<Bytes> {
    if rs.None? then [] else [YES] + Cases(rs.value)
  }

  function Request(r: ExecRequest): seq<Bytes> {
    [r.sourceFile, r.source, r.compileCmd, r.runCmd,
     Itoa(r.timeLimitMs), Itoa(r.memoryLimitMb), Itoa(r.outputLimitBytes)] + r.stdins
  }

  function Response(r: ExecResponse): seq<Bytes> {
    [r.compileError, r.agentError] + Results(r.results)
  }

  lemma CaseInjective(a: CaseResult, b: CaseResult)
    requires Case(a) == Case(b)
    ensures a == b
  {
    assert Case(a)[0] == Case(b)[0] && Case(a)[1] == Case(b)[1] && Case(a)[5] == Case(b)[5];
    assert Case(a)[2] == Case(b)[2] && Case(a)[3] == Case(b)[3] && Case(a)[4] == Case(b)[4];
    ItoaInjective(a.exitCode, b.exitCode);
    ItoaInjective(a.timeMs, b.timeMs);
    ItoaInjective(a.memoryKb, b.memoryKb);
  }

  lemma {:induction false} CasesInjective(a: seq<CaseResult>, b: seq<CaseResult>)
    requires Cases(a) == Cases(b)
    ensures a == b
  {
    if a != [] {
      assert Case(a[0]) == Cases(a)[..6] && Case(b[0]) == Cases(b)[..6];
      assert Cases(a[1..]) == Cases(a)[6..] && Cases(b[1..]) == Cases(b)[6..];
      CaseInjective(a[0], b[0]);
      CasesInjective(a[1..], b[1..]);
      assert a == [a[0]] + a[1..] && b == [b[0]] + b[1..];
    }
  }

  lemma ResultsInjective(a: Option<seq<CaseResult>>, b: Option<seq<CaseResult>>)
    requires Results(a) == Results(b)
    ensures a == b
  {
    if a.Some? && b.Some? {
      assert Cases(a.value) == Results(a)[1..] && Cases(b.value) == Results(b)[1..];
      CasesInjective(a.value, b.value);
    }
  }

  lemma RequestInjective(a: ExecRequest, b: ExecRequest)
    requires Request(a) == Request(b)
    ensures a == b
  {
    assert forall i :: 0 <= i < 7 ==> Request(a)[i] == Request(b)[i];
    assert a.stdins == Request(a)[7..] && b.stdins == Request(b)[7..];
    assert Request(a)[4] == Request(b)[4] && Request(a)[5] == Request(b)[5] && Request(a)[6] == Request(b)[6];
    ItoaInjective(a.timeLimitMs, b.timeLimitMs);
    ItoaInjective(a.memoryLimitMb, b.memoryLimitMb);
    ItoaInjective(a.outputLimitBytes, b.outputLimitBytes);
    assert Request(a)[0] == Request(b)[0] && Request(a)[1] == Request(b)[1];
    assert Request(a)[2] == Request(b)[2] && Request(a)[3] == Request(b)[3];
  }

  lemma ResponseInjective(a: ExecResponse, b: ExecResponse)
    requires Response(a) == Response(b)
    ensures a == b
  {
    assert Response(a)[0] == Response(b)[0] && Response(a)[1] == Response(b)[1];
    assert Results(a.results) == Response(a)[2..] && Results(b.results) == Response(b)[2..];
    ResultsInjective(a.results, b.results);
  }

  // ---------------------------------------------------------------- a lawful library

  /** Decoding by inverting an encoder. */
  ghost function Inverse<T(!new)>(enc: T -> Bytes, b: Bytes): (r: Option<T>)
    ensures r.Some? ==> enc(r.value) == b
    ensures r.None? ==> forall x :: enc(x) != b
  {
    if x :| enc(x) == b then Some(x) else None
  }

  ghost predicate Injective<T(!new)>(enc: T -> Bytes) {
    forall x, y :: enc(x) == enc(y) ==> x == y
  }

  lemma InverseIs<T(!new)>(enc: T -> Bytes, x: T)
    requires Injective(enc)
    ensures Inverse(enc, enc(x)) == Some(x)
  {
    assert Inverse(enc, enc(x)).Some?;
  }

  /** omitempty drops an empty slice. */
  function Dropped(r: ExecResponse): ExecResponse {
    if r.results == Some([]) then r.(results := None) else r
  }

  lemma LawfulJsonExists() returns (json: Json)
    ensures json.Lawful()
  {
    var stdins := (x: seq<Bytes>) => Texts(x);
    var results := (x: Option<seq<CaseResult>>) => Texts(Results(x));
    var request := (x: ExecRequest) => Texts(Request(x));
    var response := (x: ExecResponse) => Texts(Response(x));
    json := Json(
      t => t,
      Codec(stdins, b => Inverse(stdins, b)),
      Codec(results, b => Inverse(results, b)),
      Codec(request, b => Inverse(request, b)),
      Codec(x => response(Dropped(x)), b => Inverse(response, b)));
    forall x, y | stdins(x) == stdins(y) ensures x == y {
      TextsInjective(x, y);
    }
    forall x, y | results(x) == results(y) ensures x == y {
      TextsInjective(Results(x), Results(y));
      ResultsInjective(x, y);
    }
    forall x, y | request(x) == request(y) ensures x == y {
      TextsInjective(Request(x), Request(y));
      RequestInjective(x, y);
    }
    forall x, y | response(x) == response(y) ensures x == y {
      TextsInjective(Response(x), Response(y));
      ResponseInjective(x, y);
    }
    StdinsLaw(json, stdins);
    ResultsLaw(json, results);
    RequestLaw(json, request);
    ResponseLaw(json, response);
  }

  lemma StdinsLaw(json: Json, enc: seq<Bytes> -> Bytes)
    requires (forall t :: json.text(t) == t) && Injective(enc)
    requires forall b :: json.stdins.dec(b) == Inverse(enc, b)
    requires forall x :: json.stdins.enc(x) == enc(x)
    ensures forall x :: json.stdins.dec(json.stdins.enc(x)) == Some(json.Texts(x))
  {
    forall x ensures json.stdins.dec(json.stdins.enc(x)) == Some(json.Texts(x)) {
      InverseIs(enc, x);
      assert json.Texts(x) == x;
    }
  }

  lemma SameResults(json: Json, rs: Option<seq<CaseResult>>)
    requires forall t :: json.text(t) == t
    ensures json.Results(rs) == rs
  {
    if rs.Some? {
      assert json.Cases(rs.value) == rs.value;
    }
  }

  lemma ResultsLaw(json: Json, enc: Option<seq<CaseResult>> -> Bytes)
    requires (forall t :: json.text(t) == t) && Injective(enc)
    requires forall b :: json.results.dec(b) == Inverse(enc, b)
    requires forall x :: json.results.enc(x) == enc(x)
    ensures forall x :: json.results.dec(json.results.enc(x)) == Some(json.Results(x))
  {
    forall x ensures json.results.dec(json.results.enc(x)) == Some(json.Results(x)) {
      InverseIs(enc, x);
      SameResults(json, x);
    }
  }

  lemma RequestLaw(json: Json, enc: ExecRequest -> Bytes)
    requires (forall t :: json.text(t) == t) && Injective(enc)
    requires forall b :: json.request.dec(b) == Inverse(enc, b)
    requires forall x :: json.request.enc(x) == enc(x)
    ensures forall x :: json.request.dec(json.request.enc(x)) == Some(json.Request(x))
  {
    forall x ensures json.request.dec(json.request.enc(x)) == Some(json.Request(x)) {
      InverseIs(enc, x);
      assert json.Texts(x.stdins) == x.stdins;
    }
  }

  lemma ResponseLaw(json: Json, enc: ExecResponse -> Bytes)
    requires (forall t :: json.text(t) == t) && Injective(enc)
    requires forall b :: json.response.dec(b) == Inverse(enc, b)
    requires forall x :: json.response.enc(x) == enc(Dropped(x))
    ensures forall x :: json.response.dec(json.response.enc(x)) == Some(json.Response(x))
  {
    forall x ensures json.response.dec(json.response.enc(x)) == Some(json.Response(x)) {
      InverseIs(enc, Dropped(x));
      SameResults(json, x.results);
    }
  }
}
