/**
  The vsock connection between host and guest: the handshake of VsockHostDial, and the
  length-prefixed frames of package agent.
*/
module Wire {
  import opened Prelude
  import Decimal

  const MAX_FRAME_BYTES := 32 * 1024 * 1024

  // ---------------------------------------------------------------- the connection

  /**
    One end of a connection.  The bytes still to come arrive in chunks: a read never crosses a
    chunk boundary, and a chunk may be empty.  When no chunk is left the connection has failed.
  */
  class Conn {
    var chunks: seq<Bytes>
    var sent: Bytes

    constructor (chunks: seq<Bytes>)
      ensures this.chunks == chunks && sent == []
    {
      this.chunks := chunks;
      this.sent := [];
    }

    ghost function Pending(): Bytes
      reads this
    {
      Concat(chunks)
    }

    method Write(p: Bytes)
      modifies this`sent
      ensures sent == old(sent) + p
    {
      sent := sent + p;
    }

    method Read(n: nat) returns (p: Bytes, failed: bool)
      requires n > 0
      modifies this`chunks
      ensures |p| <= n
      ensures failed <==> old(chunks) == []
      ensures failed ==> p == [] && Pending() == old(Pending()) == []
      ensures p + Pending() == old(Pending())
      ensures !failed ==> |Pending()| + |chunks| < old(|Pending()| + |chunks|)
    {
      if chunks == [] {
        return [], true;
      }
      var c := chunks[0];
      failed := false;
      if |c| <= n {
        p := c;
        chunks := chunks[1..];
      } else {
        p := c[..n];
        chunks := [c[n..]] + chunks[1..];
        assert chunks[1..] == old(chunks)[1..];
        assert c == c[..n] + c[n..];
        assert old(Pending()) == p + (c[n..] + Concat(chunks[1..]));
      }
    }

    /** io.ReadFull: fill the buffer, however the bytes are split into reads. */
    method ReadFull(buf: array<byte>) returns (ok: bool)
      modifies this`chunks, buf
      ensures ok <==> |old(Pending())| >= buf.Length
      ensures ok ==> buf[..] == old(Pending())[..buf.Length] && Pending() == old(Pending())[buf.Length..]
      ensures !ok ==> Pending() == []
    {
      var got := 0;
      while got < buf.Length
        invariant 0 <= got <= buf.Length
        invariant buf[..got] + Pending() == old(Pending())
        decreases |Pending()| + |chunks|
      {
        var p, failed := Read(buf.Length - got);
        if failed {
          assert |old(Pending())| == got;
          return false;
        }
        ghost var before := buf[..got];
        forall i | 0 <= i < |p| {
          buf[got + i] := p[i];
        }
        assert buf[..got + |p|] == before + p;
        assert before + (p + Pending()) == (before + p) + Pending();
        got := got + |p|;
      }
      assert buf[..got] == buf[..];
      ok := true;
    }
  }

  // ---------------------------------------------------------------- the handshake

  /** The index of the first newline, or the length when there is none. */
  function LineEnd(bs: Bytes): (p: nat)
    ensures p <= |bs|
    ensures forall i :: 0 <= i < p ==> bs[i] != '\n'
    ensures p < |bs| ==> bs[p] == '\n'
  {
    if bs == [] || bs[0] == '\n' then 0 else 1 + LineEnd(bs[1..])
  }

  /** One more byte has been read. */
  lemma Advance(bs: Bytes, k: nat, one: Bytes, rest: Bytes)
    requires k <= |bs| && one + rest == bs[k..] && |one| == 1
    ensures k < |bs| && one == [bs[k]] && rest == bs[k + 1..] && bs[..k] + one == bs[..k + 1]
  {
    assert rest == (one + rest)[1..];
    assert bs[k..][0] == one[0];
  }

  predicate SaysOk(bs: Bytes) {
    |bs| >= 2 && bs[0] == 'O' && bs[1] == 'K'
  }

  const MAX_REPLY := 64

  datatype Greeting = Accepted | Rejected | TooLong | ReadFailed

  /** The reply is judged by its first line, which must end within the first 65 bytes. */
  function GreetingOf(bs: Bytes): Greeting {
    var p := LineEnd(bs);
    if p > MAX_REPLY then TooLong
    else if p == |bs| then ReadFailed
    else if SaysOk(bs) then Accepted
    else Rejected
  }

  /**
    An accepted reply has its first newline within the first 65 bytes and starts with OK; a rejected
    one ends in time but starts otherwise; 65 bytes without a newline are too long; fewer are a
    failed read.
  */
  lemma GreetingDecides(bs: Bytes)
    ensures GreetingOf(bs).TooLong? <==> |bs| >= 65 && '\n' !in bs[..65]
    ensures GreetingOf(bs).ReadFailed? <==> |bs| < 65 && '\n' !in bs
    ensures GreetingOf(bs).Accepted?
       <==> (|bs| >= 2 && bs[0] == 'O' && bs[1] == 'K'
             && exists p :: 2 <= p <= 64 && p < |bs| && bs[p] == '\n')
  {
    var p := LineEnd(bs);
    if |bs| >= 65 && p <= 64 {
      assert bs[..65][p] == '\n';
    }
    if p < |bs| {
      assert bs[p] in bs;
    }
  }

  /** The test the code makes on a complete line of k bytes. */
  lemma LineSaysOk(bs: Bytes, k: nat)
    requires 1 <= k <= |bs| && LineEnd(bs) == k - 1
    ensures SaysOk(bs) <==> k >= 3 && bs[..k][..2] == ['O', 'K']
  {
    assert bs[k - 1] == '\n';
    if k >= 3 {
      assert bs[..k][..2] == [bs[0], bs[1]];
    }
  }

  /**
    The reply loop of VsockHostDial, one byte at a time.  Whatever the splitting into reads, an
    accepted or rejected reply has consumed exactly the first line.
  */
  method ReadGreeting(conn: Conn) returns (g: Greeting)
    modifies conn`chunks
    ensures g == GreetingOf(old(conn.Pending()))
    ensures g.Accepted? || g.Rejected? ==>
              conn.Pending() == old(conn.Pending())[LineEnd(old(conn.Pending())) + 1..]
    ensures g.TooLong? ==> conn.Pending() == old(conn.Pending())[MAX_REPLY + 1..]
  {
    ghost var bs := conn.Pending();
    var buf: Bytes := [];
    while true
      invariant |buf| <= MAX_REPLY && |buf| <= LineEnd(bs)
      invariant buf == bs[..|buf|] && conn.Pending() == bs[|buf|..]
      decreases |conn.Pending()| + |conn.chunks|
    {
      var one, failed := conn.Read(1);
      if failed {
        return ReadFailed;
      }
      if |one| == 0 {
        continue;
      }
      Advance(bs, |buf|, one, conn.Pending());
      buf := buf + [one[0]];
      if one[0] == '\n' {
        break;
      }
      if |buf| > MAX_REPLY {
        return TooLong;
      }
    }
    LineSaysOk(bs, |buf|);
    if |buf| < 3 || buf[..2] != ['O', 'K'] {
      return Rejected;
    }
    return Accepted;
  }

  /** The CONNECT line, then the reply. */
  method Dial(conn: Conn, port: nat) returns (g: Greeting)
    modifies conn
    ensures conn.sent == old(conn.sent) + "CONNECT " + Decimal.Itoa(port) + "\n"
    ensures g == GreetingOf(old(conn.Pending()))
    ensures g.Accepted? ==> conn.Pending() == old(conn.Pending())[LineEnd(old(conn.Pending())) + 1..]
  {
    var line: Bytes := "CONNECT " + Decimal.Itoa(port) + "\n";
    conn.Write(line);
    assert old(conn.sent) + line == old(conn.sent) + "CONNECT " + Decimal.Itoa(port) + "\n";
    g := ReadGreeting(conn);
  }

  // ---------------------------------------------------------------- frames

  /** binary.BigEndian.PutUint32. */
  function Header(n: nat): (h: Bytes)
    requires n < TWO_TO_32
    ensures |h| == 4
  {
    [(n / 0x100_0000) as char, (n / 0x1_0000 % 0x100) as char, (n / 0x100 % 0x100) as char, (n % 0x100) as char]
  }

  /** binary.BigEndian.Uint32. */
  function Number(h: Bytes): nat
    requires |h| == 4
  {
    h[0] as int * 0x100_0000 + h[1] as int * 0x1_0000 + h[2] as int * 0x100 + h[3] as int
  }

  /** A number in base 256, the most significant byte first. */
  function BigEndian(bs: Bytes): nat {
    if bs == [] then 0 else 0x100 * BigEndian(bs[..|bs| - 1]) + bs[|bs| - 1] as int
  }

  /** The reader's arithmetic is big-endian. */
  lemma NumberIsBigEndian(h: Bytes)
    requires |h| == 4
    ensures Number(h) == BigEndian(h)
  {
    assert h[..3] == [h[0], h[1], h[2]] && h[..3][..2] == [h[0], h[1]] && h[..3][..2][..1] == [h[0]];
    assert BigEndian([h[0]]) == h[0] as int;
    assert BigEndian([h[0], h[1]]) == 0x100 * BigEndian([h[0]]) + h[1] as int;
    assert BigEndian([h[0], h[1], h[2]]) == 0x100 * BigEndian([h[0], h[1]]) + h[2] as int;
  }

  lemma HeaderRoundTrip(n: nat)
    requires n < TWO_TO_32
    ensures Number(Header(n)) == n
  {
    assert n == n / 0x100 * 0x100 + n % 0x100;
    assert n / 0x100 == n / 0x1_0000 * 0x100 + n / 0x100 % 0x100;
    assert n / 0x1_0000 == n / 0x100_0000 * 0x100 + n / 0x1_0000 % 0x100;
  }

  /** What a writer puts on the wire: the length is truncated to 32 bits, the payload is not. */
  function Frame(payload: Bytes): Bytes {
    Header(|payload| % TWO_TO_32) + payload
  }

  datatype FrameError = NoHeader | BadSize(n: nat) | Truncated

  /** What a reader makes of the bytes to come: a payload or an error, and the bytes left over. */
  function ParseFrame(bs: Bytes): (Result<Bytes, FrameError>, Bytes) {
    if |bs| < 4 then (Err(NoHeader), [])
    else
      var n := Number(bs[..4]);
      if n == 0 || n > MAX_FRAME_BYTES then (Err(BadSize(n)), bs[4..])
      else if |bs| < 4 + n then (Err(Truncated), [])
      else (Ok(bs[4..4 + n]), bs[4 + n..])
  }

  method WriteFrame(conn: Conn, payload: Bytes)
    modifies conn`sent
    ensures conn.sent == old(conn.sent) + Frame(payload)
  {
    var hdr := Header(|payload| % TWO_TO_32);
    conn.Write(hdr);
    conn.Write(payload);
    assert old(conn.sent) + hdr + payload == old(conn.sent) + (hdr + payload);
  }

  method ReadFrame(conn: Conn) returns (r: Result<Bytes, FrameError>)
    modifies conn`chunks
    ensures (r, conn.Pending()) == ParseFrame(old(conn.Pending()))
  {
    ghost var bs := conn.Pending();
    var hdr := new byte[4];
    var ok := conn.ReadFull(hdr);
    if !ok {
      return Err(NoHeader);
    }
    var n := Number(hdr[..]);
    if n == 0 || n > MAX_FRAME_BYTES {
      return Err(BadSize(n));
    }
    var buf := new byte[n];
    ok := conn.ReadFull(buf);
    if !ok {
      return Err(Truncated);
    }
    assert bs[4..][..n] == bs[4..4 + n] && bs[4..][n..] == bs[4 + n..];
    return Ok(buf[..]);
  }

  /** The length overflows the header and what is left of it passes for a length. */
  predicate Wraps(payload: Bytes) {
    |payload| >= TWO_TO_32 && 1 <= |payload| % TWO_TO_32 <= MAX_FRAME_BYTES
  }

  predicate FitsFrame(payload: Bytes) {
    1 <= |payload| <= MAX_FRAME_BYTES
  }

  /** A frame is the length in four bytes, most significant first and modulo 2^32, then the payload. */
  lemma FrameLayout(payload: Bytes)
    ensures |Frame(payload)| == 4 + |payload| && Frame(payload)[4..] == payload
    ensures BigEndian(Frame(payload)[..4]) == |payload| % 0x1_0000_0000
  {
    HeaderRoundTrip(|payload| % TWO_TO_32);
    NumberIsBigEndian(Header(|payload| % TWO_TO_32));
    assert Frame(payload)[..4] == Header(|payload| % TWO_TO_32);
  }

  /** A valid frame that breaks off early yields an error and never a payload. */
  lemma CutFrame(payload: Bytes, k: nat)
    requires FitsFrame(payload) && k < |Frame(payload)|
    ensures ParseFrame(Frame(payload)[..k]) == (Err(if k < 4 then NoHeader else Truncated), [])
  {
    if k >= 4 {
      FrameStart(payload, []);
      assert Frame(payload) + [] == Frame(payload);
      assert Frame(payload)[..k][..4] == Frame(payload)[..4];
    }
  }

  /** What a reader makes of any written frame: a length modulo 2^32, and that many bytes of payload. */
  lemma FrameOutcome(payload: Bytes, rest: Bytes)
    ensures var n := |payload| % TWO_TO_32;
      ParseFrame(Frame(payload) + rest)
      == if 1 <= n <= MAX_FRAME_BYTES then (Ok(payload[..n]), payload[n..] + rest)
         else (Err(BadSize(n)), payload + rest)
  {
    FrameStart(payload, rest);
    var bs := Frame(payload) + rest;
    var n := |payload| % TWO_TO_32;
    if 1 <= n <= MAX_FRAME_BYTES {
      assert bs[4..4 + n] == bs[4..][..n] == payload[..n];
      assert bs[4 + n..] == bs[4..][n..] == payload[n..] + rest;
    }
  }

  /**
    A reader recovers exactly what was written, and leaves what follows, for payloads of 1 byte to
    32 MiB and for no others.
  */
  lemma FrameRoundTrip(payload: Bytes, rest: Bytes)
    ensures ParseFrame(Frame(payload) + rest) == (Ok(payload), rest) <==> 1 <= |payload| <= 33_554_432
  {
    FrameOutcome(payload, rest);
    var n := |payload| % TWO_TO_32;
    if n < |payload| {
      assert payload[..n] != payload;
    } else {
      assert payload[..n] == payload && payload[n..] + rest == rest;
    }
  }

  lemma FrameStart(payload: Bytes, rest: Bytes)
    ensures var bs := Frame(payload) + rest;
      |bs| >= 4 && Number(bs[..4]) == |payload| % TWO_TO_32 && bs[4..] == payload + rest
  {
    var n := |payload| % TWO_TO_32;
    HeaderRoundTrip(n);
    assert (Frame(payload) + rest)[..4] == Header(n);
    assert Frame(payload) + rest == Header(n) + (payload + rest);
  }

  /** An empty or oversized frame is refused exactly when its length does not wrap around. */
  lemma BadFrameRefused(payload: Bytes, rest: Bytes)
    requires !FitsFrame(payload)
    ensures ParseFrame(Frame(payload) + rest).0.Err? <==> !Wraps(payload)
    ensures !Wraps(payload) ==>
              ParseFrame(Frame(payload) + rest) == (Err(BadSize(|payload| % TWO_TO_32)), payload + rest)
  {
    FrameOutcome(payload, rest);
  }

  /** A frame whose length wraps around is accepted, cut short; the rest of it stays on the stream. */
  lemma HugeFrameCut(payload: Bytes, rest: Bytes)
    requires Wraps(payload)
    ensures var n := |payload| % TWO_TO_32;
      n < |payload| && ParseFrame(Frame(payload) + rest) == (Ok(payload[..n]), payload[n..] + rest)
  {
    FrameOutcome(payload, rest);
  }

  /** A longer frame whose length still fits the header is refused, with only its header consumed. */
  lemma LongFrameRefused(payload: Bytes, rest: Bytes)
    requires MAX_FRAME_BYTES < |payload| < TWO_TO_32
    ensures ParseFrame(Frame(payload) + rest) == (Err(BadSize(|payload|)), payload + rest)
  {
    BadFrameRefused(payload, rest);
  }
}
