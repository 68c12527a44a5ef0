/** The control-message codec of net.go. A frame is one length byte followed
    by that many payload bytes; the payload is the JSON form of a Msg, produced
    and read by a foreign library and therefore taken here as given bytes. */
module Framing {
  import opened Common

  /** The control message. Only `Type` is always present on the wire; the
      others are left out of the JSON when they hold their zero value. */
  datatype Msg = Msg(Type: string, Text: string, Port: int, Key: seq<byte>, Fast: bool, Addr: string)

  /** A message of the given type with every other field at its zero value. */
  function Typed(kind: string): Msg
  {
    Msg(kind, "", 0, [], false, "")
  }

  /** How the byte stream under a connection ends once its data is used up. */
  datatype StreamEnd = Finished | Broken

  /** The errors `io.ReadAtLeast` reports, and the decoder's own. */
  datatype RecvError = Eof | UnexpectedEof | ReadFailed | Malformed

  /** The frame that SndMsg writes for a serialized payload: Go's
      `byte(len(serialized))` keeps only the low eight bits of the length. */
  function EncodeFrame(payload: seq<byte>): (frame: seq<byte>)
    ensures |frame| == 1 + |payload|
    ensures frame[0] as int == |payload| % 256 && frame[1..] == payload
  {
    [(|payload| % 256) as byte] + payload
  }

  /** What `io.ReadAtLeast(r, buf, n)` does with a buffer of exactly `n` bytes
      on a stream whose unread bytes are `input`: it takes the first `n`, or,
      when fewer remain, consumes them all and reports EOF if none was read,
      an unexpected EOF if some were, or the stream's own failure. */
  function ReadFull(input: seq<byte>, n: nat, end: StreamEnd): (r: Result<(seq<byte>, seq<byte>)>)
    ensures r.Ok? <==> n <= |input|
    ensures r.Ok? ==> r.value.0 + r.value.1 == input && |r.value.0| == n
    ensures r.Err? && end == Finished ==> (r.error == Eof <==> |input| == 0)
    ensures r.Err? && end == Finished && |input| > 0 ==> r.error == UnexpectedEof
    ensures r.Err? && end == Broken ==> r.error == ReadFailed
  {
    if n <= |input| then Ok((input[..n], input[n..]))
    else if end == Broken then Err(ReadFailed)
    else if |input| == 0 then Err(Eof)
    else Err(UnexpectedEof)
  }

  datatype Result<T> = Ok(value: T) | Err(error: RecvError)

  /** A decoded frame: its payload and the stream left after it. */
  datatype Frame = Frame(payload: seq<byte>, rest: seq<byte>)

  /** The framing half of RcvMsg: read the length byte, then that many bytes. */
  function DecodeFrame(input: seq<byte>, end: StreamEnd): (r: Result<Frame>)
    ensures r.Ok? <==> |input| >= 1 && |input| >= 1 + input[0] as int
    ensures r.Ok? ==> input == [input[0]] + r.value.payload + r.value.rest
    ensures r.Ok? ==> |r.value.payload| == input[0] as int
    ensures |input| == 0 && end == Finished ==> r == Err(Eof)
    ensures |input| >= 1 && |input| < 1 + input[0] as int && end == Finished ==> r.Err? && r.error != Malformed
  {
    match ReadFull(input, 1, end)
    case Err(e) => Err(e)
    case Ok((header, afterHeader)) =>
      match ReadFull(afterHeader, header[0] as nat, end)
      case Err(e) => Err(e)
      case Ok((body, rest)) => Ok(Frame(body, rest))
  }

  /** Reading back a frame of at most 255 payload bytes yields that payload
      and leaves the stream exactly past the frame. */
  lemma FrameRoundTrip(payload: seq<byte>, rest: seq<byte>, end: StreamEnd)
    requires |payload| <= 255
    ensures DecodeFrame(EncodeFrame(payload) + rest, end) == Ok(Frame(payload, rest))
  {
    var input := EncodeFrame(payload) + rest;
    assert input[0] as int == |payload|;
    assert input[1..] == payload + rest;
    assert (payload + rest)[..|payload|] == payload;
    assert (payload + rest)[|payload|..] == rest;
  }

  /** With a longer payload the length byte wraps: the reader takes only the
      first `|payload| % 256` bytes as the message and the remainder of the
      payload as the start of the next frame. */
  lemma OversizePayloadMisframed(payload: seq<byte>, rest: seq<byte>, end: StreamEnd)
    requires |payload| > 255
    ensures var k := |payload| % 256;
      DecodeFrame(EncodeFrame(payload) + rest, end) == Ok(Frame(payload[..k], payload[k..] + rest))
    ensures DecodeFrame(EncodeFrame(payload) + rest, end) != Ok(Frame(payload, rest))
  {
    var k := |payload| % 256;
    var input := EncodeFrame(payload) + rest;
    assert input[0] as int == k;
    assert input[1..] == payload + rest;
    assert (payload + rest)[..k] == payload[..k];
    assert (payload + rest)[k..] == payload[k..] + rest;
  }

  /** Framing that refuses a payload the length byte cannot describe. */
  function EncodeFrameChecked(payload: seq<byte>): (r: Option<seq<byte>>)
    ensures r.None? <==> |payload| > 255
    ensures forall rest: seq<byte>, end: StreamEnd :: r.Some? ==>
      DecodeFrame(r.value + rest, end) == Ok(Frame(payload, rest))
  {
    if |payload| > 255 then None
    else
      assert forall rest: seq<byte>, end: StreamEnd :: DecodeFrame(EncodeFrame(payload) + rest, end) == Ok(Frame(payload, rest)) by {
        forall rest: seq<byte>, end: StreamEnd ensures DecodeFrame(EncodeFrame(payload) + rest, end) == Ok(Frame(payload, rest)) {
          FrameRoundTrip(payload, rest, end);
        }
      }
      Some(EncodeFrame(payload))
  }

  /** The reading side of a connection: fixed data, a read position, and how
      the stream ends once the data is used up. */
  class Stream {
    const data: seq<byte>
    const end: StreamEnd
    var pos: nat

    ghost predicate Valid()
      reads this
    {
      pos <= |data|
    }

    /** The bytes not yet read. */
    ghost function Unread(): seq<byte>
      reads this
      requires Valid()
    {
      data[pos..]
    }

    constructor (data: seq<byte>, end: StreamEnd)
      ensures Valid() && this.data == data && this.end == end && pos == 0
    {
      this.data := data;
      this.end := end;
      pos := 0;
    }

    /** io.ReadAtLeast into a fresh buffer of `n` bytes. */
    method ReadAtLeast(n: nat) returns (buf: seq<byte>, err: Option<RecvError>)
      requires Valid()
      modifies this
      ensures Valid()
      ensures err.None? ==> ReadFull(old(Unread()), n, end) == Ok((buf, Unread()))
      ensures err.Some? ==> ReadFull(old(Unread()), n, end) == Err(err.value) && Unread() == []
    {
      if pos + n <= |data| {
        assert data[pos..][..n] == data[pos..pos + n];
        assert data[pos..][n..] == data[pos + n..];
        buf := data[pos..pos + n];
        pos := pos + n;
        err := None;
      } else {
        buf := data[pos..];
        err := Some(if end == Broken then ReadFailed else if pos == |data| then Eof else UnexpectedEof);
        pos := |data|;
      }
    }

    /** RcvMsg: reads one frame and hands its payload to `unmarshal`, which
        stands for the JSON decoder. On a short read the zero message and the
        read error are returned. */
    method RcvMsg(unmarshal: seq<byte> -> Option<Msg>) returns (m: Msg, err: Option<RecvError>)
      requires Valid()
      modifies this
      ensures Valid()
      ensures match DecodeFrame(old(Unread()), end)
        case Err(e) => err == Some(e) && m == Typed("") && Unread() == []
        case Ok(frame) =>
          Unread() == frame.rest &&
          match unmarshal(frame.payload)
          case None => err == Some(Malformed)
          case Some(decoded) => err.None? && m == decoded
    {
      m := Typed("");
      var length;
      length, err := ReadAtLeast(1);
      if err.Some? {
        return;
      }
      var serialized;
      serialized, err := ReadAtLeast(length[0] as nat);
      if err.Some? {
        return;
      }
      match unmarshal(serialized)
      case None =>
        err := Some(Malformed);
      case Some(decoded) =>
        m := decoded;
    }
  }

  /** The writing side of a connection: the buffers handed to `Write`, in order. */
  class Writer {
    var writes: seq<seq<byte>>

    constructor ()
      ensures writes == []
    {
      writes := [];
    }

    /** SndMsg: `serialized` is the JSON encoder's outcome and `writeOk` the
        outcome of the single `Write`. A failed encoding writes nothing. */
    method SndMsg(serialized: Option<seq<byte>>, writeOk: bool) returns (err: bool)
      modifies this
      ensures serialized.None? ==> writes == old(writes) && err
      ensures serialized.Some? ==> writes == old(writes) + [EncodeFrame(serialized.value)] && err == !writeOk
    {
      if serialized.None? {
        return true;
      }
      writes := writes + [EncodeFrame(serialized.value)];
      err := !writeOk;
    }
  }
}
