/** One request and one response across the connection: Exchange on the host, serve in the guest. */
module Exchange {
  import opened Prelude
  import opened Proto
  import opened Wire
  import opened Guest
  import Decimal

  datatype HostError = NoGreeting(g: Greeting) | TooLarge(n: nat) | BadFrame(error: FrameError) | BadJson

  /** What the host makes of the bytes the guest sends back. */
  function HostResult(json: Json, reply: Bytes): Result<ExecResponse, HostError> {
    match ParseFrame(reply).0
    case Err(e) => Err(BadFrame(e))
    case Ok(payload) =>
      match json.response.dec(payload)
      case None => Err(BadJson)
      case Some(resp) => Ok(resp)
  }

  method HostExchange(json: Json, conn: Conn, req: ExecRequest) returns (r: Result<ExecResponse, HostError>)
    modifies conn
    ensures var payload := json.request.enc(req);
      if |payload| > MAX_FRAME_BYTES then
        r == Err(TooLarge(|payload|)) && conn.sent == old(conn.sent) && conn.chunks == old(conn.chunks)
      else
        r == HostResult(json, old(conn.Pending())) && conn.sent == old(conn.sent) + Frame(payload)
  {
    var payload := json.request.enc(req);
    if |payload| > MAX_FRAME_BYTES {
      return Err(TooLarge(|payload|));
    }
    WriteFrame(conn, payload);
    var reply := ReadFrame(conn);
    if reply.Err? {
      return Err(BadFrame(reply.error));
    }
    var resp := json.response.dec(reply.value);
    if resp.None? {
      return Err(BadJson);
    }
    return Ok(resp.value);
  }

  /** What the guest answers to the bytes the host sends, if it answers. */
  function GuestAnswer(json: Json, w: World, request: Bytes): Option<Bytes> {
    match ParseFrame(request).0
    case Err(_) => None
    case Ok(payload) =>
      match json.request.dec(payload)
      case None => None
      case Some(req) => Some(Frame(json.response.enc(Handle(w, req))))
  }

  /** The guest serves exactly one request. */
  method Serve(json: Json, w: World, conn: Conn) returns (ok: bool)
    requires w.Valid()
    modifies conn
    ensures ok <==> GuestAnswer(json, w, old(conn.Pending())).Some?
    ensures conn.sent == old(conn.sent) + if ok then GuestAnswer(json, w, old(conn.Pending())).value else []
  {
    var frame := ReadFrame(conn);
    if frame.Err? {
      return false;
    }
    var req := json.request.dec(frame.value);
    if req.None? {
      return false;
    }
    var resp := HandleRequest(w, req.value);
    WriteFrame(conn, json.response.enc(resp));
    return true;
  }

  /** The response the host receives when nothing fails on the way. */
  function Transported(json: Json, w: World, req: ExecRequest): ExecResponse {
    json.Response(Handle(w, json.Request(req)))
  }

  /** The guest's answer to a request, as JSON. */
  function AnswerText(json: Json, w: World, req: ExecRequest): Bytes {
    json.response.enc(Handle(w, json.Request(req)))
  }

  /**
    End to end over the wire: the guest understands the host's frame, the host understands the
    guest's, and the answer is the handler's, with texts normalised.  A larger answer is refused
    unless its length wraps around.
  */
  lemma ExchangeComposes(json: Json, w: World, req: ExecRequest, rest: Bytes)
    requires json.Lawful() && |json.request.enc(req)| <= MAX_FRAME_BYTES
    ensures var answer := AnswerText(json, w, req);
      && GuestAnswer(json, w, Frame(json.request.enc(req))) == Some(Frame(answer))
      && (|answer| <= MAX_FRAME_BYTES ==>
            HostResult(json, Frame(answer) + rest) == Ok(Transported(json, w, req)))
      && (|answer| > MAX_FRAME_BYTES && !Wraps(answer) ==>
            HostResult(json, Frame(answer) + rest) == Err(BadFrame(BadSize(|answer| % TWO_TO_32))))
  {
    var question := json.request.enc(req);
    var answer := AnswerText(json, w, req);
    assert Frame(question) + [] == Frame(question);
    assert json.request.dec(question) == Some(json.Request(req)) && question != [];
    assert json.response.dec(answer) == Some(Transported(json, w, req)) && answer != [];
    FrameRoundTrip(question, []);
    FrameRoundTrip(answer, rest);
    if |answer| > MAX_FRAME_BYTES {
      BadFrameRefused(answer, rest);
    }
  }

  /** What the host gets for a request when the guest reads the host's bytes and the host the guest's. */
  function ExchangeResult(json: Json, w: World, req: ExecRequest): Result<ExecResponse, HostError> {
    var question := json.request.enc(req);
    if |question| > MAX_FRAME_BYTES then Err(TooLarge(|question|))
    else
      match GuestAnswer(json, w, Frame(question))
      case None => Err(BadFrame(NoHeader))
      case Some(bytes) => HostResult(json, bytes)
  }

  /**
    Unless the answer's length wraps around, the exchange succeeds exactly when both messages fit a
    frame, and then carries the answer.
  */
  lemma ExchangeDecided(json: Json, w: World, req: ExecRequest)
    requires json.Lawful() && !Wraps(AnswerText(json, w, req))
    ensures ExchangeResult(json, w, req).Ok?
       <==> |json.request.enc(req)| <= MAX_FRAME_BYTES && |AnswerText(json, w, req)| <= MAX_FRAME_BYTES
    ensures ExchangeResult(json, w, req).Ok? ==> ExchangeResult(json, w, req).value == Transported(json, w, req)
  {
    if |json.request.enc(req)| <= MAX_FRAME_BYTES {
      ExchangeComposes(json, w, req, []);
      assert Frame(AnswerText(json, w, req)) + [] == Frame(AnswerText(json, w, req));
    }
  }

  /** What the host makes of a reply frame, whole, cut short, or followed by anything. */
  lemma HostDecides(json: Json, payload: Bytes, rest: Bytes, k: nat)
    requires FitsFrame(payload) && k < |Frame(payload)|
    ensures HostResult(json, Frame(payload) + rest)
         == match json.response.dec(payload) case Some(resp) => Ok(resp) case None => Err(BadJson)
    ensures HostResult(json, Frame(payload)[..k]) == Err(BadFrame(if k < 4 then NoHeader else Truncated))
  {
    FrameRoundTrip(payload, rest);
    CutFrame(payload, k);
  }

  /** The guest answers a whole frame that decodes, and nothing else. */
  lemma GuestDecides(json: Json, w: World, payload: Bytes, rest: Bytes, k: nat)
    requires FitsFrame(payload) && k < |Frame(payload)|
    ensures GuestAnswer(json, w, Frame(payload) + rest)
         == match json.request.dec(payload)
            case Some(req) => Some(Frame(json.response.enc(Handle(w, req))))
            case None => None
    ensures GuestAnswer(json, w, Frame(payload)[..k]) == None
  {
    FrameRoundTrip(payload, rest);
    CutFrame(payload, k);
  }

  // ---------------------------------------------------------------- dial, then exchange

  /** What Executor.exchange makes of the bytes its peer sends: the greeting line, then one frame. */
  function CallResult(json: Json, req: ExecRequest, bs: Bytes): Result<ExecResponse, HostError> {
    var g := GreetingOf(bs);
    var question := json.request.enc(req);
    if !g.Accepted? then Err(NoGreeting(g))
    else if |question| > MAX_FRAME_BYTES then Err(TooLarge(|question|))
    else HostResult(json, bs[LineEnd(bs) + 1..])
  }

  method Call(json: Json, conn: Conn, port: nat, req: ExecRequest) returns (r: Result<ExecResponse, HostError>)
    modifies conn
    ensures r == CallResult(json, req, old(conn.Pending()))
    ensures var payload := json.request.enc(req);
      conn.sent == old(conn.sent) + "CONNECT " + Decimal.Itoa(port) + "\n"
                   + if GreetingOf(old(conn.Pending())).Accepted? && |payload| <= MAX_FRAME_BYTES then Frame(payload)
                     else []
  {
    var g := Dial(conn, port);
    if !g.Accepted? {
      return Err(NoGreeting(g));
    }
    r := HostExchange(json, conn, req);
  }

  /** The bytes of a peer that greets with a line and then serves one request. */
  function PeerBytes(json: Json, line: Bytes, w: World, req: ExecRequest): Bytes {
    var question := json.request.enc(req);
    var answer := if |question| > MAX_FRAME_BYTES then None else GuestAnswer(json, w, Frame(question));
    line + ['\n'] + if answer.Some? then answer.value else []
  }

  lemma {:induction false} FirstLine(line: Bytes, rest: Bytes)
    requires '\n' !in line
    ensures LineEnd(line + ['\n'] + rest) == |line|
  {
    if line != [] {
      assert (line + ['\n'] + rest)[1..] == line[1..] + ['\n'] + rest;
      FirstLine(line[1..], rest);
    }
  }

  /**
    A peer that greets with a line of at most 64 bytes starting with OK, and then answers, has its
    answer delivered when both messages fit a frame, whatever follows.
  */
  lemma CallComposes(json: Json, w: World, req: ExecRequest, line: Bytes, rest: Bytes)
    requires json.Lawful() && '\n' !in line && |line| <= MAX_REPLY && SaysOk(line)
    requires |json.request.enc(req)| <= MAX_FRAME_BYTES && |AnswerText(json, w, req)| <= MAX_FRAME_BYTES
    ensures CallResult(json, req, line + ['\n'] + (Frame(AnswerText(json, w, req)) + rest))
         == Ok(Transported(json, w, req))
  {
    var reply := Frame(AnswerText(json, w, req)) + rest;
    var bs := line + ['\n'] + reply;
    FirstLine(line, reply);
    assert bs[0] == line[0] && bs[1] == line[1] && bs[|line| + 1..] == reply;
    ExchangeComposes(json, w, req, rest);
  }

  /** The call is decided by the greeting line, then by the exchange. */
  lemma CallDecided(json: Json, line: Bytes, w: World, req: ExecRequest)
    requires '\n' !in line
    ensures CallResult(json, req, PeerBytes(json, line, w, req))
         == if |line| > MAX_REPLY then Err(NoGreeting(TooLong))
            else if !SaysOk(line) then Err(NoGreeting(Rejected))
            else ExchangeResult(json, w, req)
  {
    var bs := PeerBytes(json, line, w, req);
    var rest := bs[|line| + 1..];
    assert bs == line + ['\n'] + rest;
    FirstLine(line, rest);
    assert forall k :: 0 <= k < |line| ==> bs[k] == line[k];
    assert bs[|line|] == '\n';
  }

  lemma OversizeExchange(json: Json, w: World, req: ExecRequest)
    requires json.Lawful()
    ensures var question, answer := json.request.enc(req), AnswerText(json, w, req);
      && (|question| > 33_554_432 ==> ExchangeResult(json, w, req) == Err(TooLarge(|question|)))
      && (|question| <= 33_554_432 < |answer| < 0x1_0000_0000 ==>
            ExchangeResult(json, w, req) == Err(BadFrame(BadSize(|answer|))))
  {
    var answer := AnswerText(json, w, req);
    if |json.request.enc(req)| <= 33_554_432 < |answer| < 0x1_0000_0000 {
      ExchangeComposes(json, w, req, []);
      assert Frame(answer) + [] == Frame(answer);
      LongFrameRefused(answer, []);
    }
  }

  /** Behind an accepted greeting, a message that does not fit a frame is refused with its size. */
  lemma OversizeDecides(json: Json, line: Bytes, w: World, req: ExecRequest)
    requires json.Lawful() && '\n' !in line && |line| <= 64 && SaysOk(line)
    ensures var question, answer := json.request.enc(req), AnswerText(json, w, req);
      var r := CallResult(json, req, PeerBytes(json, line, w, req));
      && (|question| > 33_554_432 ==> r == Err(TooLarge(|question|)))
      && (|question| <= 33_554_432 < |answer| < 0x1_0000_0000 ==> r == Err(BadFrame(BadSize(|answer|))))
  {
    CallDecided(json, line, w, req);
    OversizeExchange(json, w, req);
  }

  /** For a request whose programs compile, the host sees one case per stdin, in order. */
  lemma TransportedCases(json: Json, w: World, req: ExecRequest)
    requires json.Lawful() && w.setup.None? && req.stdins != []
    requires var g := json.Request(req); !Compiles(g) || w.compile(g.compileCmd).Code() == 0
    ensures var g := json.Request(req);
      Transported(json, w, req)
      == ExecResponse([], Some(json.Cases(CasesOf(w, g, |req.stdins|))), [])
  {
  }
}
