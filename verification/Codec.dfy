/**
 Length-prefixed framing: a 4-byte big-endian length, then the payload.
 */
module Codec {
  import opened Types
  import Seqs

  type byte = b: int | 0 <= b < 256

  const HEADER_LEN: nat := 4
  const MAX_MESSAGE_SIZE: nat := 4 * 1024 * 1024

  // ---------------------------------------------------------------- Frames

  /** `put_u32(n as u32)`: the length is cut to 32 bits first. */
  function Header(n: nat): seq<byte> {
    var u := U32(n);
    [u / 0x100_0000, u / 0x1_0000 % 256, u / 256 % 256, u % 256]
  }

  function HeaderValue(b: seq<byte>): nat
    requires |b| == 4
  {
    b[0] as int * 0x100_0000 + b[1] as int * 0x1_0000 + b[2] as int * 256 + b[3] as int
  }

  function Frame(payload: seq<byte>): seq<byte> {
    Header(|payload|) + payload
  }

  datatype Decoded =
    | Got(payload: seq<byte>, rest: seq<byte>)
    | Incomplete
    | TooLarge

  function DecodeOne(max: nat, buf: seq<byte>): Decoded {
    if |buf| < HEADER_LEN then Incomplete
    else
      var len := HeaderValue(buf[..HEADER_LEN]);
      if len > max then TooLarge
      else if |buf| < HEADER_LEN + len then Incomplete
      else Got(buf[HEADER_LEN..HEADER_LEN + len], buf[HEADER_LEN + len..])
  }

  lemma HeaderRoundTrip(n: nat)
    ensures HeaderValue(Header(n)) == U32(n)
  {
    var u := U32(n);
    assert u == u / 256 * 256 + u % 256;
    assert u / 256 == u / 0x1_0000 * 256 + u / 256 % 256;
    assert u / 0x1_0000 == u / 0x100_0000 * 256 + u / 0x1_0000 % 256;
  }

  /** The base-256 digits of a number below 2^32 are unique. */
  lemma Digits(a: int, b: int, c: int, d: int)
    requires 0 <= a < 256 && 0 <= b < 256 && 0 <= c < 256 && 0 <= d < 256
    ensures var v := a * 0x100_0000 + b * 0x1_0000 + c * 256 + d;
            && 0 <= v < TWO_32
            && v / 0x100_0000 == a && v / 0x1_0000 % 256 == b && v / 256 % 256 == c && v % 256 == d
  {
    var v := a * 0x100_0000 + b * 0x1_0000 + c * 256 + d;
    assert v / 0x1_0000 == a * 256 + b;
    assert v / 256 == (a * 256 + b) * 256 + c;
  }

  lemma ValueRoundTrip(b: seq<byte>)
    requires |b| == 4
    ensures HeaderValue(b) < TWO_32 && Header(HeaderValue(b)) == b
  {
    Digits(b[0], b[1], b[2], b[3]);
    var v := HeaderValue(b);
    assert v % TWO_32 == v;
  }

  /** Most significant byte first: headers compare byte by byte as the lengths do. */
  lemma HeaderIsBigEndian(n: nat, m: nat)
    requires n < m < TWO_32
    ensures exists k: nat :: k < 4 && Header(n)[..k] == Header(m)[..k] && Header(n)[k] < Header(m)[k]
  {
    hide HeaderValue;
    HeaderRoundTrip(n);
    HeaderRoundTrip(m);
    var k := FirstDifference(Header(n), Header(m));
  }

  lemma FirstDifference(a: seq<byte>, b: seq<byte>) returns (k: nat)
    requires |a| == |b| == 4 && HeaderValue(a) < HeaderValue(b)
    ensures k < 4 && a[..k] == b[..k] && a[k] < b[k]
  {
    k := if a[0] != b[0] then 0 else if a[1] != b[1] then 1 else if a[2] != b[2] then 2 else 3;
    assert a[..k] == b[..k];
  }

  /** Decoding the bytes of a frame depends on the length that was written, not the one there is. */
  lemma DecodeFrame(max: nat, payload: seq<byte>, tail: seq<byte>)
    requires |payload| <= max
    ensures var len := U32(|payload|);
            len <= |payload| && DecodeOne(max, Frame(payload) + tail) == Got(payload[..len], payload[len..] + tail)
  {
    var len := U32(|payload|);
    HeaderRoundTrip(|payload|);
    assert payload == payload[..len] + payload[len..];
    assert Frame(payload) + tail == Header(|payload|) + payload[..len] + (payload[len..] + tail);
    SplitThree(Header(|payload|), payload[..len], payload[len..] + tail);
  }

  lemma SplitThree(a: seq<byte>, b: seq<byte>, c: seq<byte>)
    ensures var s := a + b + c;
            s[..|a|] == a && s[|a|..|a| + |b|] == b && s[|a| + |b|..] == c
  {
  }

  /**
   A payload within the limit comes back from its frame, with the following
   bytes untouched, if and only if its length fits the 32-bit header.
   */
  lemma FrameRoundTripIff(max: nat, payload: seq<byte>, tail: seq<byte>)
    requires |payload| <= max
    ensures DecodeOne(max, Frame(payload) + tail) == Got(payload, tail) <==> |payload| < TWO_32
  {
    DecodeFrame(max, payload, tail);
    if |payload| < TWO_32 {
      assert payload[..|payload|] == payload && payload[|payload|..] + tail == tail;
    }
  }

  /** A frame over the limit is rejected as soon as its header is there, whatever follows. */
  lemma OversizedIsRejectedAtOnce(max: nat, n: nat, tail: seq<byte>)
    requires max < n < TWO_32
    ensures DecodeOne(max, Header(n) + tail) == TooLarge
  {
    HeaderRoundTrip(n);
    assert (Header(n) + tail)[..HEADER_LEN] == Header(n);
  }

  /** Whatever is decoded, its frame and the rest are the bytes that were there. */
  lemma DecodeConserves(max: nat, buf: seq<byte>)
    ensures var d := DecodeOne(max, buf);
            d.Got? ==> Frame(d.payload) + d.rest == buf && |d.payload| <= max && |d.payload| < TWO_32
  {
    var d := DecodeOne(max, buf);
    if d.Got? {
      var h := buf[..HEADER_LEN];
      ValueRoundTrip(h);
      assert buf == h + d.payload + d.rest;
    }
  }

  /** A decision on a buffer stands when more bytes arrive. */
  lemma DecodeMonotone(max: nat, buf: seq<byte>, more: seq<byte>)
    ensures match DecodeOne(max, buf)
            case Got(p, rest) => DecodeOne(max, buf + more) == Got(p, rest + more)
            case TooLarge => DecodeOne(max, buf + more) == TooLarge
            case Incomplete => true
  {
    if |buf| >= HEADER_LEN {
      assert (buf + more)[..HEADER_LEN] == buf[..HEADER_LEN];
      var d := DecodeOne(max, buf);
      if d.Got? {
        var end := HEADER_LEN + |d.payload|;
        assert (buf + more)[HEADER_LEN..end] == buf[HEADER_LEN..end];
        assert (buf + more)[end..] == buf[end..] + more;
      }
    }
  }

  // ---------------------------------------------------------------- Streams

  /** What repeated decoding makes of a buffer; decoding stops for good at a rejected frame. */
  datatype Stream = Stream(frames: seq<seq<byte>>, rest: seq<byte>, failed: bool)

  function DecodeAll(max: nat, buf: seq<byte>): Stream
    decreases |buf|
  {
    match DecodeOne(max, buf)
    case Incomplete => Stream([], buf, false)
    case TooLarge => Stream([], buf, true)
    case Got(p, rest) =>
      var s := DecodeAll(max, rest);
      s.(frames := [p] + s.frames)
  }

  function EncodeAll(payloads: seq<seq<byte>>): seq<byte> {
    if payloads == [] then [] else Frame(payloads[0]) + EncodeAll(payloads[1..])
  }

  function Concat(chunks: seq<seq<byte>>): seq<byte> {
    if chunks == [] then [] else chunks[0] + Concat(chunks[1..])
  }

  /** A chunk arrives: decode what there is now, unless the stream already failed. */
  function Feed(max: nat, s: Stream, chunk: seq<byte>): Stream {
    if s.failed then s.(rest := s.rest + chunk)
    else
      var next := DecodeAll(max, s.rest + chunk);
      next.(frames := s.frames + next.frames)
  }

  function FeedAll(max: nat, s: Stream, chunks: seq<seq<byte>>): Stream
    decreases |chunks|
  {
    if chunks == [] then s else FeedAll(max, Feed(max, s, chunks[0]), chunks[1..])
  }

  predicate WithinLimit(max: nat, payloads: seq<seq<byte>>) {
    forall i | 0 <= i < |payloads| :: |payloads[i]| <= max && |payloads[i]| < TWO_32
  }

  /** Nothing is lost or made up: the frames re-encoded, then the rest, are the input. */
  lemma {:induction false} DecodeAllConserves(max: nat, buf: seq<byte>)
    ensures EncodeAll(DecodeAll(max, buf).frames) + DecodeAll(max, buf).rest == buf
    ensures WithinLimit(max, DecodeAll(max, buf).frames)
    decreases |buf|
  {
    match DecodeOne(max, buf) {
      case Got(p, rest) =>
        DecodeConserves(max, buf);
        DecodeAllConserves(max, rest);
        var s := DecodeAll(max, rest);
        assert ([p] + s.frames)[1..] == s.frames;
        Seqs.Assoc(Frame(p), EncodeAll(s.frames), s.rest);
      case _ =>
    }
  }

  /** Decoding before more bytes arrive does not change what is decoded in the end. */
  lemma {:induction false} DecodeAllAppend(max: nat, buf: seq<byte>, more: seq<byte>)
    ensures DecodeAll(max, buf + more) == Feed(max, DecodeAll(max, buf), more)
    decreases |buf|
  {
    DecodeMonotone(max, buf, more);
    match DecodeOne(max, buf) {
      case Got(p, rest) =>
        DecodeAllAppend(max, rest, more);
        var s := DecodeAll(max, rest);
        if !s.failed {
          Seqs.Assoc([p], s.frames, DecodeAll(max, s.rest + more).frames);
        }
      case Incomplete =>
        var next := DecodeAll(max, buf + more);
        assert [] + next.frames == next.frames;
      case TooLarge =>
    }
  }

  lemma {:induction false} FeedAllIs(max: nat, buf: seq<byte>, chunks: seq<seq<byte>>)
    ensures FeedAll(max, DecodeAll(max, buf), chunks) == DecodeAll(max, buf + Concat(chunks))
    decreases |chunks|
  {
    if chunks == [] {
      assert buf + [] == buf;
    } else {
      DecodeAllAppend(max, buf, chunks[0]);
      FeedAllIs(max, buf + chunks[0], chunks[1..]);
      Seqs.Assoc(buf, chunks[0], Concat(chunks[1..]));
    }
  }

  /** How the bytes are split into chunks makes no difference, for any bytes. */
  lemma ChunkingIsInvisible(max: nat, chunks: seq<seq<byte>>)
    ensures FeedAll(max, Stream([], [], false), chunks) == DecodeAll(max, Concat(chunks))
  {
    assert DecodeAll(max, []) == Stream([], [], false);
    FeedAllIs(max, [], chunks);
    assert [] + Concat(chunks) == Concat(chunks);
  }

  lemma {:induction false} DecodeEncoded(max: nat, payloads: seq<seq<byte>>)
    requires WithinLimit(max, payloads)
    ensures DecodeAll(max, EncodeAll(payloads)) == Stream(payloads, [], false)
  {
    if payloads != [] {
      FrameRoundTripIff(max, payloads[0], EncodeAll(payloads[1..]));
      DecodeEncoded(max, payloads[1..]);
      assert [payloads[0]] + payloads[1..] == payloads;
    }
  }

  /** Streaming: any payloads within the limit, in any chunks, come out as they went in. */
  lemma StreamRoundTrip(max: nat, payloads: seq<seq<byte>>, chunks: seq<seq<byte>>)
    requires WithinLimit(max, payloads) && Concat(chunks) == EncodeAll(payloads)
    ensures FeedAll(max, Stream([], [], false), chunks) == Stream(payloads, [], false)
  {
    ChunkingIsInvisible(max, chunks);
    DecodeEncoded(max, payloads);
  }

  // ---------------------------------------------------------------- Codec

  class Buffer {
    var data: seq<byte>

    constructor (data: seq<byte>)
      ensures this.data == data
    {
      this.data := data;
    }
  }

  class LengthPrefixCodec {
    const maxSize: nat

    constructor ()
      ensures maxSize == MAX_MESSAGE_SIZE == 4_194_304
    {
      maxSize := MAX_MESSAGE_SIZE;
    }

    constructor WithMaxSize(max: nat)
      ensures maxSize == max
    {
      maxSize := max;
    }

    /** Takes a complete frame off the front of `src`; an incomplete or rejected frame leaves it unchanged. */
    method Decode(src: Buffer) returns (r: Result<Option<seq<byte>>, string>)
      modifies src`data
      ensures match DecodeOne(maxSize, old(src.data))
              case Got(p, rest) => r == Ok(Some(p)) && src.data == rest
              case Incomplete => r == Ok(None) && src.data == old(src.data)
              case TooLarge => r.Err? && src.data == old(src.data)
      ensures r.Ok? && r.value.Some? ==> old(src.data) == Frame(r.value.value) + src.data
    {
      DecodeConserves(maxSize, src.data);
      if |src.data| < HEADER_LEN {
        return Ok(None);
      }
      var payloadLen := HeaderValue(src.data[..HEADER_LEN]);
      if payloadLen > maxSize {
        return Err("frame payload exceeds limit");
      }
      if |src.data| < HEADER_LEN + payloadLen {
        return Ok(None);
      }
      src.data := src.data[HEADER_LEN..];
      var payload := src.data[..payloadLen];
      src.data := src.data[payloadLen..];
      assert payload == old(src.data)[HEADER_LEN..HEADER_LEN + payloadLen];
      assert src.data == old(src.data)[HEADER_LEN + payloadLen..];
      r := Ok(Some(payload));
    }

    /** Appends a frame, or rejects a payload over the limit and leaves `dst` unchanged. */
    method Encode(data: seq<byte>, dst: Buffer) returns (r: Result<(), string>)
      modifies dst`data
      ensures r.Ok? <==> |data| <= maxSize
      ensures dst.data == old(dst.data) + if r.Ok? then Frame(data) else []
    {
      if |data| > maxSize {
        return Err("frame payload exceeds limit");
      }
      Seqs.Assoc(dst.data, Header(|data|), data);
      dst.data := dst.data + Header(|data|);
      dst.data := dst.data + data;
      r := Ok(());
    }
  }

  /**
   A payload through one codec's buffer, whatever the codec's limit. It comes
   back, alone, if and only if it is within the limit and its length fits the
   header; a longer one is rejected, or comes back in pieces of the same bytes.
   */
  method EncodeThenDecode(max: nat, payload: seq<byte>) returns (r: Option<seq<byte>>, rest: seq<byte>)
    ensures (r, rest) == (Some(payload), []) <==> |payload| <= max && |payload| < TWO_32
    ensures r.None? <==> |payload| > max
    ensures r.Some? ==> Frame(r.value) + rest == Frame(payload)
  {
    var codec := new LengthPrefixCodec.WithMaxSize(max);
    var buffer := new Buffer([]);
    var encoded := codec.Encode(payload, buffer);
    if encoded.Err? {
      return None, [];
    }
    assert buffer.data == Frame(payload) + [];
    FrameRoundTripIff(max, payload, []);
    DecodeFrame(max, payload, []);
    var decoded := codec.Decode(buffer);
    assert Frame(payload) + [] == Frame(payload);
    r, rest := decoded.value, buffer.data;
  }

  /** What reading one frame off a byte stream that then ends gives. */
  datatype FrameRead = Read(payload: seq<byte>) | Rejected | Truncated | Eof

  function FirstFrame(max: nat, bytes: seq<byte>): FrameRead {
    match DecodeOne(max, bytes)
    case Got(p, _) => Read(p)
    case TooLarge => Rejected
    case Incomplete => if bytes == [] then Eof else Truncated
  }

  /** A framed connection: what is buffered, and the chunks the peer's bytes will arrive in. */
  class Framed {
    const codec: LengthPrefixCodec
    const buffer: Buffer
    var incoming: seq<seq<byte>>

    ghost function Remaining(): seq<byte>
      reads this, buffer
    {
      buffer.data + Concat(incoming)
    }

    constructor (incoming: seq<seq<byte>>)
      ensures Remaining() == Concat(incoming) && codec.maxSize == MAX_MESSAGE_SIZE && fresh(buffer)
    {
      codec := new LengthPrefixCodec();
      buffer := new Buffer([]);
      this.incoming := incoming;
    }

    /** The next frame is the first frame of the bytes to come, however they are chunked. */
    method Next() returns (r: FrameRead)
      modifies this`incoming, buffer`data
      ensures r == FirstFrame(codec.maxSize, old(Remaining()))
      ensures r.Read? ==> old(Remaining()) == Frame(r.payload) + Remaining()
    {
      ghost var all := Remaining();
      while true
        invariant Remaining() == all
        decreases |incoming|
      {
        ghost var seen := buffer.data;
        DecodeMonotone(codec.maxSize, seen, Concat(incoming));
        DecodeConserves(codec.maxSize, all);
        var d := codec.Decode(buffer);
        if d.Err? {
          return Rejected;
        }
        if d.value.Some? {
          return Read(d.value.value);
        }
        if incoming == [] {
          assert seen + Concat([]) == seen;
          return if buffer.data == [] then Eof else Truncated;
        }
        Seqs.Assoc(buffer.data, incoming[0], Concat(incoming[1..]));
        buffer.data := buffer.data + incoming[0];
        incoming := incoming[1..];
      }
    }
  }
}
