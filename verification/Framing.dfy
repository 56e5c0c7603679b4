/** Length-prefixed frames: a big-endian 32-bit length, then that many bytes. */
module Framing {
  import opened Prelude
  import opened Utf8

  const U32_RANGE: nat := 0x1_0000_0000

  datatype NextExpected = LengthSpecifier | Content(length: nat)

  datatype ReadError =
    | MaxLengthExceeded(limit: nat, received: nat)
    | UnexpectedEnd(expected: NextExpected)

  function BigEndian(n: nat): seq<byte>
    requires n < U32_RANGE
  {
    [n / 0x100_0000, n / 0x1_0000 % 256, n / 256 % 256, n % 256]
  }

  function FromBigEndian(b: seq<byte>): (n: nat)
    requires |b| == 4
  {
    b[0] as int * 0x100_0000 + b[1] as int * 0x1_0000 + b[2] as int * 256 + b[3] as int
  }

  lemma BigEndianBytes(b0: int, b1: int, b2: int, b3: int)
    requires 0 <= b0 < 256 && 0 <= b1 < 256 && 0 <= b2 < 256 && 0 <= b3 < 256
    ensures var n := b0 * 0x100_0000 + b1 * 0x1_0000 + b2 * 256 + b3;
            n < U32_RANGE && n / 0x100_0000 == b0 && n / 0x1_0000 % 256 == b1 && n / 256 % 256 == b2 && n % 256 == b3
  {
    var n := b0 * 0x100_0000 + b1 * 0x1_0000 + b2 * 256 + b3;
    assert n / 0x1_0000 == b0 * 256 + b1;
    assert n / 256 == b0 * 0x1_0000 + b1 * 256 + b2;
  }

  lemma BigEndianInverse(b: seq<byte>)
    requires |b| == 4
    ensures FromBigEndian(b) < U32_RANGE && BigEndian(FromBigEndian(b)) == b
  {
    BigEndianBytes(b[0], b[1], b[2], b[3]);
  }

  lemma FromBigEndianInverse(n: nat)
    requires n < U32_RANGE
    ensures FromBigEndian(BigEndian(n)) == n
  {
    assert n / 256 == n / 0x1_0000 * 256 + n / 256 % 256;
    assert n / 0x1_0000 == n / 0x100_0000 * 256 + n / 0x1_0000 % 256;
  }

  /** What is written for one payload; the length is cast to 32 bits. */
  function Frame(payload: seq<byte>): seq<byte> {
    BigEndian(|payload| % U32_RANGE) + payload
  }

  /** The outcome of reading one frame, and what the stream still holds. */
  datatype Read = Read(result: Result<seq<byte>, ReadError>, rest: seq<byte>)

  function ReadFrameSpec(stream: seq<byte>, maxLength: Option<nat>): Read {
    if |stream| < 4 then Read(Err(UnexpectedEnd(LengthSpecifier)), [])
    else
      var length := FromBigEndian(stream[..4]);
      if maxLength.Some? && length > maxLength.value then
        Read(Err(MaxLengthExceeded(maxLength.value, length)), stream[4..])
      else if |stream| < 4 + length then Read(Err(UnexpectedEnd(Content(length))), [])
      else Read(Ok(stream[4..4 + length]), stream[4 + length..])
  }

  /** A frame followed by anything reads back exactly, and leaves exactly what follows, if and only if its payload
      fits a 32-bit length. */
  lemma ReadFrameExact(payload: seq<byte>, suffix: seq<byte>)
    ensures ReadFrameSpec(Frame(payload) + suffix, None) == Read(Ok(payload), suffix) <==> |payload| < U32_RANGE
  {
    var s := Frame(payload) + suffix;
    FromBigEndianInverse(|payload| % U32_RANGE);
    assert s[..4] == BigEndian(|payload| % U32_RANGE);
    if |payload| < U32_RANGE {
      assert s[4..4 + |payload|] == payload;
      assert s[4 + |payload|..] == suffix;
    }
  }

  /** A length limit changes nothing for payloads within it, and refuses larger ones after four bytes. */
  lemma ReadFrameLimited(payload: seq<byte>, suffix: seq<byte>, limit: nat)
    requires |payload| < U32_RANGE
    ensures ReadFrameSpec(Frame(payload) + suffix, Some(limit)) ==
            if |payload| <= limit then Read(Ok(payload), suffix)
            else Read(Err(MaxLengthExceeded(limit, |payload|)), payload + suffix)
  {
    var s := Frame(payload) + suffix;
    FromBigEndianInverse(|payload|);
    assert s[..4] == BigEndian(|payload|);
    assert s[4..] == payload + suffix;
    assert s[4..4 + |payload|] == payload;
    assert s[4 + |payload|..] == suffix;
  }

  /** Whatever reads as a payload was that payload's frame: streams have no second reading. */
  lemma ReadFrameInverse(stream: seq<byte>, maxLength: Option<nat>)
    ensures var r := ReadFrameSpec(stream, maxLength);
            r.result.Ok? ==> |r.result.value| < U32_RANGE && stream == Frame(r.result.value) + r.rest
                             && (maxLength.Some? ==> |r.result.value| <= maxLength.value)
  {
    if |stream| >= 4 {
      BigEndianInverse(stream[..4]);
      var length := FromBigEndian(stream[..4]);
      if |stream| >= 4 + length {
        assert stream == stream[..4] + stream[4..4 + length] + stream[4 + length..];
      }
    }
  }

  /** A frame cut short anywhere yields an unexpected end, never data. */
  lemma CutFrameEnds(payload: seq<byte>, cut: nat)
    requires |payload| < U32_RANGE && cut < |Frame(payload)|
    ensures ReadFrameSpec(Frame(payload)[..cut], None) ==
            Read(Err(UnexpectedEnd(if cut < 4 then LengthSpecifier else Content(|payload|))), [])
  {
    if cut >= 4 {
      FromBigEndianInverse(|payload|);
      var head := BigEndian(|payload|);
      assert Frame(payload) == head + payload && |head| == 4;
      assert (head + payload)[..cut][..4] == head;
    }
  }

  function Frames(payloads: seq<seq<byte>>): seq<byte> {
    if payloads == [] then [] else Frame(payloads[0]) + Frames(payloads[1..])
  }

  /** Reading `n` frames one after another. */
  function ReadFrames(stream: seq<byte>, n: nat): Option<(seq<seq<byte>>, seq<byte>)> {
    if n == 0 then Some(([], stream)) else
    match ReadFrameSpec(stream, None)
    case Read(Err(_), _) => None
    case Read(Ok(p), rest) =>
      match ReadFrames(rest, n - 1)
      case None => None
      case Some((ps, left)) => Some(([p] + ps, left))
  }

  /** Framing is self-delimiting: any list of payloads written one after another, with anything behind, reads back
      as exactly that list and leaves exactly what is behind. */
  lemma {:induction false} FramesReadBack(payloads: seq<seq<byte>>, suffix: seq<byte>)
    requires forall i :: 0 <= i < |payloads| ==> |payloads[i]| < U32_RANGE
    ensures ReadFrames(Frames(payloads) + suffix, |payloads|) == Some((payloads, suffix))
  {
    if payloads == [] {
      assert Frames(payloads) + suffix == suffix;
    } else {
      var rest := Frames(payloads[1..]) + suffix;
      assert Frames(payloads) + suffix == Frame(payloads[0]) + rest;
      ReadFrameExact(payloads[0], rest);
      FramesReadBack(payloads[1..], suffix);
      assert [payloads[0]] + payloads[1..] == payloads;
    }
  }

  /** A byte stream with its reader's and its writer's end. */
  class ByteStream {
    var data: seq<byte>

    constructor (initial: seq<byte>)
      ensures data == initial
    {
      data := initial;
    }

    /** Fills the buffer byte by byte; at the end of the stream everything has been consumed. */
    method ReadExact(buffer: array<byte>) returns (ok: bool)
      modifies this, buffer
      ensures ok <==> buffer.Length <= |old(data)|
      ensures ok ==> buffer[..] == old(data)[..buffer.Length] && data == old(data)[buffer.Length..]
      ensures !ok ==> data == []
    {
      var i := 0;
      while i < buffer.Length
        invariant 0 <= i <= buffer.Length && i <= |old(data)|
        invariant data == old(data)[i..] && buffer[..i] == old(data)[..i]
      {
        if data == [] { return false; }
        buffer[i] := data[0];
        data := data[1..];
        i := i + 1;
      }
      return true;
    }

    method ReadFrame(maxLength: Option<nat>) returns (r: Result<seq<byte>, ReadError>)
      modifies this
      ensures Read(r, data) == ReadFrameSpec(old(data), maxLength)
      ensures r.Ok? ==> old(data) == Frame(r.value) + data && |r.value| < U32_RANGE
    {
      ReadFrameInverse(data, maxLength);
      var header := new byte[4];
      var ok := ReadExact(header);
      if !ok { return Err(UnexpectedEnd(LengthSpecifier)); }
      var length := FromBigEndian(header[..]);
      if maxLength.Some? && length > maxLength.value {
        return Err(MaxLengthExceeded(maxLength.value, length));
      }
      var buffer := new byte[length];
      ok := ReadExact(buffer);
      if !ok { return Err(UnexpectedEnd(Content(length))); }
      assert old(data)[4..][..length] == old(data)[4..4 + length];
      return Ok(buffer[..]);
    }

    method WriteFrame(payload: seq<byte>)
      modifies this
      ensures data == old(data) + Frame(payload)
    {
      data := data + BigEndian(|payload| % U32_RANGE);
      data := data + payload;
    }
  }
}
