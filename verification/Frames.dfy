/** Authenticated length-prefixed frames (internal/irohsync/protocol.go): four bytes of length, most
    significant first, a 32-byte MAC and the body. */
module Frames {
  import opened Wire

  type Byte = x: int | 0 <= x < 256
  type Bytes = seq<Byte>

  const MAC_SIZE := 32
  const HEADER_SIZE := 36
  const SECRET_SIZE := 32
  const MAX_FRAME := 0x100_0000
  const DOMAIN_TEXT := "pomodorough-iroh-frame-v1"

  /** HMAC-SHA-256: any function of key and message with 32-byte results. */
  type Tag = s: Bytes | |s| == 32 witness seq(32, _ => 0)
  type Hmac = (Bytes, Bytes) -> Tag

  datatype FrameError = BadSecret | BadLength | ShortHeader | ShortBody | BadMac

  /** frameMAC: the domain text with its closing zero byte, then the body. */
  function FrameMac(hmac: Hmac, secret: Bytes, body: Bytes): Tag {
    hmac(secret, FrameDomain() + body)
  }

  function FrameDomain(): Bytes {
    seq(|DOMAIN_TEXT|, i requires 0 <= i < |DOMAIN_TEXT| => (DOMAIN_TEXT[i] as int) % 256) + [0]
  }

  // ---------------------------------------------------------------- length field

  function Number(b: Bytes): (n: nat)
    requires |b| == 4
    ensures n < 0x1_0000_0000
  {
    var first: int, second: int, third: int := b[0], b[1], b[2];
    ((first * 0x100 + second) * 0x100 + third) * 0x100 + b[3]
  }

  function Uint32(n: nat): (b: Bytes)
    requires n < 0x1_0000_0000
    ensures |b| == 4
  {
    [n / 0x100_0000, n / 0x1_0000 % 256, n / 0x100 % 256, n % 256]
  }

  lemma NumberOfUint32(n: nat)
    requires n < 0x1_0000_0000
    ensures Number(Uint32(n)) == n
  {
    assert n / 0x1_0000 == n / 0x100 / 0x100 && n / 0x100_0000 == n / 0x100 / 0x100 / 0x100;
  }

  lemma Uint32OfNumber(b: Bytes)
    requires |b| == 4
    ensures Uint32(Number(b)) == b
  {
    var high: int, second: int, third: int, last: int := b[0], b[1], b[2], b[3];
    var upper := high * 0x100 + second;
    var most := upper * 0x100 + third;
    var n := most * 0x100 + last;
    assert Number(b) == n;
    assert n / 0x100 == most && n % 0x100 == last;
    assert n / 0x1_0000 == most / 0x100 == upper && most % 0x100 == third;
    assert n / 0x100_0000 == upper / 0x100 == high && upper % 0x100 == second;
    assert b == [b[0], b[1], b[2], b[3]];
  }

  // ---------------------------------------------------------------- meaning

  predicate ValidBody(body: Bytes) {
    0 < |body| <= MAX_FRAME
  }

  /** The bytes of one frame. */
  function Frame(hmac: Hmac, secret: Bytes, body: Bytes): (f: Bytes)
    requires ValidBody(body)
    ensures |f| == HEADER_SIZE + |body|
  {
    Uint32(|body|) + FrameMac(hmac, secret, body) + body
  }

  /** What DecodeFrame answers for the bytes still to come, and what it leaves unread. */
  function Decode(hmac: Hmac, secret: Bytes, input: Bytes): (Result<Bytes, FrameError>, Bytes) {
    if |secret| != SECRET_SIZE then (Failure(BadSecret), input)
    else if |input| < HEADER_SIZE then (Failure(ShortHeader), [])
    else
      var size := Number(input[..4]);
      if size == 0 || size > MAX_FRAME then (Failure(BadLength), input[HEADER_SIZE..])
      else if |input| < HEADER_SIZE + size then (Failure(ShortBody), [])
      else
        var body, rest := input[HEADER_SIZE..HEADER_SIZE + size], input[HEADER_SIZE + size..];
        if input[4..HEADER_SIZE] != FrameMac(hmac, secret, body) then (Failure(BadMac), rest) else (Success(body), rest)
  }

  // ---------------------------------------------------------------- the programs

  /** A byte source that hands out what it has in pieces of any size. */
  class Reader {
    var rest: Bytes

    constructor (data: Bytes)
      ensures rest == data
    {
      rest := data;
    }

    /** One read: at least one byte unless nothing is left or nothing is asked for. */
    method Read(most: nat) returns (piece: Bytes)
      modifies this
      ensures |piece| <= most && piece + rest == old(rest)
      ensures piece == [] <==> most == 0 || old(rest) == []
    {
      if most == 0 || rest == [] { return []; }
      var n: int :| 1 <= n <= most && n <= |rest|;
      piece := rest[..n];
      rest := rest[n..];
    }

    /** io.ReadFull: exactly `n` bytes, or None with everything consumed. */
    method ReadFull(n: nat) returns (r: Option<Bytes>)
      modifies this
      ensures |old(rest)| >= n ==> r == Some(old(rest)[..n]) && rest == old(rest)[n..]
      ensures |old(rest)| < n ==> r == None && rest == []
    {
      var got: Bytes := [];
      while |got| < n
        invariant |got| <= n && got + rest == old(rest)
        decreases n - |got|
      {
        var piece := Read(n - |got|);
        if piece == [] {
          assert got == old(rest);
          return None;
        }
        got := got + piece;
      }
      r := Some(got);
    }
  }

  /** Go's copy into the part of a slice that starts at `at`. */
  method CopyInto(a: array<Byte>, at: nat, bytes: Bytes)
    requires at + |bytes| <= a.Length
    modifies a
    ensures a[..] == old(a[..at]) + bytes + old(a[at + |bytes|..])
  {
    for i := 0 to |bytes|
      invariant forall j :: 0 <= j < a.Length ==> a[j] == if at <= j < at + i then bytes[j - at] else old(a[j])
    {
      a[at + i] := bytes[i];
    }
  }

  method EncodeFrame(hmac: Hmac, secret: Bytes, body: Bytes) returns (r: Result<array<Byte>, FrameError>)
    ensures |secret| != SECRET_SIZE ==> r == Failure(BadSecret)
    ensures |secret| == SECRET_SIZE && !ValidBody(body) ==> r == Failure(BadLength)
    ensures |secret| == SECRET_SIZE && ValidBody(body) ==>
          r.Success? && fresh(r.value) && r.value[..] == Frame(hmac, secret, body)
  {
    if |secret| != SECRET_SIZE { return Failure(BadSecret); }
    if |body| == 0 || |body| > MAX_FRAME { return Failure(BadLength); }
    var mac := FrameMac(hmac, secret, body);
    var frame := new Byte[HEADER_SIZE + |body|];
    var n := |body|;
    frame[0], frame[1], frame[2], frame[3] := n / 0x100_0000, n / 0x1_0000 % 256, n / 0x100 % 256, n % 256;
    assert frame[..4] == Uint32(n);
    CopyInto(frame, 4, mac);
    assert frame[..HEADER_SIZE] == Uint32(n) + mac;
    CopyInto(frame, HEADER_SIZE, body);
    return Success(frame);
  }

  method DecodeFrame(hmac: Hmac, reader: Reader, secret: Bytes) returns (r: Result<Bytes, FrameError>)
    modifies reader
    ensures (r, reader.rest) == Decode(hmac, secret, old(reader.rest))
  {
    if |secret| != SECRET_SIZE { return Failure(BadSecret); }
    var header := reader.ReadFull(HEADER_SIZE);
    if header.None? { return Failure(ShortHeader); }
    assert header.value[..4] == old(reader.rest)[..4] && header.value[4..] == old(reader.rest)[4..HEADER_SIZE];
    var size := Number(header.value[..4]);
    if size == 0 || size > MAX_FRAME { return Failure(BadLength); }
    var body := reader.ReadFull(size);
    if body.None? { return Failure(ShortBody); }
    assert body.value == old(reader.rest)[HEADER_SIZE..HEADER_SIZE + size];
    if header.value[4..] != FrameMac(hmac, secret, body.value) { return Failure(BadMac); }
    return Success(body.value);
  }

  // ---------------------------------------------------------------- laws of one frame

  /** Decoding the bytes of a frame gives the body back and leaves what follows it. */
  lemma DecodeOfFrame(hmac: Hmac, secret: Bytes, body: Bytes, rest: Bytes)
    requires |secret| == SECRET_SIZE && ValidBody(body)
    ensures Decode(hmac, secret, Frame(hmac, secret, body) + rest) == (Success(body), rest)
  {
    var input := Frame(hmac, secret, body) + rest;
    NumberOfUint32(|body|);
    assert input[..4] == Uint32(|body|);
    assert input[4..HEADER_SIZE] == FrameMac(hmac, secret, body);
    assert input[HEADER_SIZE..HEADER_SIZE + |body|] == body;
    assert input[HEADER_SIZE + |body|..] == rest;
  }

  /** Decoding succeeds exactly on input that starts with a whole frame of this secret, and gives
      that frame's body. */
  lemma DecodesExactlyFrames(hmac: Hmac, secret: Bytes, input: Bytes, body: Bytes)
    requires |secret| == SECRET_SIZE
    ensures Decode(hmac, secret, input).0 == Success(body) <==> ValidBody(body) && Frame(hmac, secret, body) <= input
  {
    if ValidBody(body) && Frame(hmac, secret, body) <= input {
      var n := |Frame(hmac, secret, body)|;
      assert input == Frame(hmac, secret, body) + input[n..];
      DecodeOfFrame(hmac, secret, body, input[n..]);
    }
    if Decode(hmac, secret, input).0 == Success(body) {
      Uint32OfNumber(input[..4]);
      assert input[..HEADER_SIZE + |body|] == input[..4] + input[4..HEADER_SIZE] + body;
    }
  }

  /** No frame is a prefix of another frame. */
  lemma FramesArePrefixFree(hmac: Hmac, secret: Bytes, a: Bytes, b: Bytes)
    requires |secret| == SECRET_SIZE && ValidBody(a) && ValidBody(b) && Frame(hmac, secret, a) <= Frame(hmac, secret, b)
    ensures a == b
  {
    DecodesExactlyFrames(hmac, secret, Frame(hmac, secret, b), a);
    DecodesExactlyFrames(hmac, secret, Frame(hmac, secret, b), b);
  }

  /** Every proper prefix of a frame is refused as too short and read to its end. */
  lemma ProperPrefixIsShort(hmac: Hmac, secret: Bytes, body: Bytes, n: nat)
    requires |secret| == SECRET_SIZE && ValidBody(body) && n < HEADER_SIZE + |body|
    ensures Decode(hmac, secret, Frame(hmac, secret, body)[..n])
         == (Failure(if n < HEADER_SIZE then ShortHeader else ShortBody), [])
  {
    var f := Frame(hmac, secret, body);
    if n >= HEADER_SIZE {
      NumberOfUint32(|body|);
      assert f[..n][..4] == Uint32(|body|);
    }
  }

  // ---------------------------------------------------------------- laws of a stream

  function Stream(hmac: Hmac, secret: Bytes, bodies: seq<Bytes>): Bytes
    requires forall i :: 0 <= i < |bodies| ==> ValidBody(bodies[i])
  {
    if bodies == [] then [] else Frame(hmac, secret, bodies[0]) + Stream(hmac, secret, bodies[1..])
  }

  /** Decodes until the first failure: the bodies, and what is unread when it fails. */
  function DecodeAll(hmac: Hmac, secret: Bytes, input: Bytes): (seq<Bytes>, FrameError, Bytes)
    decreases |input|
  {
    var (r, rest) := Decode(hmac, secret, input);
    if r.Failure? then ([], r.error, rest)
    else
      var later := DecodeAll(hmac, secret, rest);
      ([r.value] + later.0, later.1, later.2)
  }

  predicate AllValid(bodies: seq<Bytes>) {
    forall i :: 0 <= i < |bodies| ==> ValidBody(bodies[i])
  }

  /** Cut anywhere, a stream of frames yields only bodies that were sent, in order, then reports a
      short read with nothing left; uncut it yields them all. */
  lemma {:induction false} StreamCutAnywhere(hmac: Hmac, secret: Bytes, bodies: seq<Bytes>, n: nat)
    requires |secret| == SECRET_SIZE && AllValid(bodies) && n <= |Stream(hmac, secret, bodies)|
    ensures var (got, error, rest) := DecodeAll(hmac, secret, Stream(hmac, secret, bodies)[..n]);
            && got <= bodies && rest == [] && error in {ShortHeader, ShortBody}
            && Stream(hmac, secret, got) <= Stream(hmac, secret, bodies)[..n]
            && (n == |Stream(hmac, secret, bodies)| <==> got == bodies)
  {
    hide Decode, Frame;
    var whole := Stream(hmac, secret, bodies);
    if bodies == [] {
      DecodeNothing(hmac, secret);
    } else {
      var first, later := Frame(hmac, secret, bodies[0]), Stream(hmac, secret, bodies[1..]);
      if n < |first| {
        assert whole[..n] == first[..n];
        ProperPrefixIsShort(hmac, secret, bodies[0], n);
      } else {
        assert whole[..n] == first + later[..n - |first|];
        DecodeOfFrame(hmac, secret, bodies[0], later[..n - |first|]);
        StreamCutAnywhere(hmac, secret, bodies[1..], n - |first|);
        var got := DecodeAll(hmac, secret, later[..n - |first|]).0;
        assert bodies == [bodies[0]] + bodies[1..];
        assert ([bodies[0]] + got)[1..] == got;
      }
    }
  }

  lemma DecodeNothing(hmac: Hmac, secret: Bytes)
    requires |secret| == SECRET_SIZE
    ensures Decode(hmac, secret, []) == (Failure(ShortHeader), [])
  {
  }

  /** Decoding the concatenated frames of any list of bodies gives exactly that list and consumes
      every byte. */
  lemma StreamRoundTrip(hmac: Hmac, secret: Bytes, bodies: seq<Bytes>)
    requires |secret| == SECRET_SIZE && AllValid(bodies)
    ensures DecodeAll(hmac, secret, Stream(hmac, secret, bodies)).0 == bodies
    ensures DecodeAll(hmac, secret, Stream(hmac, secret, bodies)).2 == []
  {
    var whole := Stream(hmac, secret, bodies);
    assert whole[..|whole|] == whole;
    StreamCutAnywhere(hmac, secret, bodies, |whole|);
  }
}
