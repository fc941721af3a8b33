/**
 Length-prefixed frames over a byte stream (src/distsys/protocol/framing.py, codec.py, message.py).

 The protobuf library is a parameter: a serializer and a parser for envelopes.
 */
module Framing {
  import opened Outcomes

  type Byte = b: int | 0 <= b < 256
  type Bytes = seq<Byte>

  /** MessageType: REQUEST = 1 to CRDT_RESPONSE = 18. */
  type Kind = k: int | 1 <= k <= 18 witness 1

  datatype Envelope = Envelope(
    senderId: string, correlationId: string, timestampMs: int, ttl: int,
    payload: Bytes, traceparent: string, tracestate: string)

  datatype Message = Message(kind: Kind, envelope: Envelope)

  datatype Protobuf = Protobuf(serialize: Envelope -> Bytes, parse: Bytes -> Option<Envelope>)

  datatype Fault =
    | InvalidMagic | UnsupportedVersion | InvalidMessageType | InvalidFrameLength | FrameTooLarge
    | DecodeError       // not an envelope, or one without sender or correlation id
    | PackError         // struct.error: the length does not fit four bytes
    | IncompleteRead    // the stream ended inside a frame

  datatype Outcome<+T> = Good(value: T) | Raised(fault: Fault)

  const MAGIC: Bytes := [68, 83]    // b"DS"
  const VERSION: Byte := 1
  const HEADER_SIZE: nat := 8

  // ---- Headers ----

  function PackLength(n: nat): Bytes
    requires n < 0x1_0000_0000
  {
    [n / 0x100_0000, n / 0x1_0000 % 0x100, n / 0x100 % 0x100, n % 0x100]
  }

  function UnpackLength(b: Bytes): nat
    requires |b| == 4
  {
    b[0] as int * 0x100_0000 + b[1] as int * 0x1_0000 + b[2] as int * 0x100 + b[3] as int
  }

  lemma LengthRoundTrip(n: nat)
    requires n < 0x1_0000_0000
    ensures UnpackLength(PackLength(n)) == n
  {
    Shift(n);
  }

  datatype Header = Header(kind: Kind, length: nat)

  /** _validate_header on the eight unpacked bytes. */
  function ReadHeader(b: Bytes, limit: nat): (r: Outcome<Header>)
    requires |b| == HEADER_SIZE
    ensures r.Good? ==> 0 < r.value.length <= limit
  {
    var length := UnpackLength(b[4..]);
    if b[..2] != MAGIC then Raised(InvalidMagic)
    else if b[2] != VERSION then Raised(UnsupportedVersion)
    else if !(1 <= b[3] <= 18) then Raised(InvalidMessageType)
    else if length <= 0 then Raised(InvalidFrameLength)
    else if length > limit then Raised(FrameTooLarge)
    else Good(Header(b[3], length))
  }

  function PackHeader(h: Header): Bytes
    requires h.length < 0x1_0000_0000
  {
    MAGIC + [VERSION, h.kind] + PackLength(h.length)
  }

  lemma Digit(q: nat, r: Byte)
    ensures (q * 0x100 + r as int) / 0x100 == q && (q * 0x100 + r as int) % 0x100 == r as int
  {
  }

  lemma LengthBytes(b: Bytes)
    requires |b| == 4
    ensures UnpackLength(b) < 0x1_0000_0000 && PackLength(UnpackLength(b)) == b
  {
    var high := b[0] as int * 0x100 + b[1] as int;
    var middle := high * 0x100 + b[2] as int;
    var n := middle * 0x100 + b[3] as int;
    assert n == UnpackLength(b);
    Digit(b[0] as int, b[1]);
    Digit(high, b[2]);
    Digit(middle, b[3]);
    assert n / 0x100 == middle && n / 0x1_0000 == high && n / 0x100_0000 == b[0] as int by {
      Shift(n);
    }
  }

  lemma Shift(n: nat)
    ensures n / 0x1_0000 == n / 0x100 / 0x100 && n / 0x100_0000 == n / 0x100 / 0x100 / 0x100
  {
  }

  /** A header is accepted exactly when it is the one written for its kind and an admissible length. */
  lemma HeaderExactly(b: Bytes, limit: nat, h: Header)
    requires |b| == HEADER_SIZE
    ensures ReadHeader(b, limit) == Good(h) <==>
            0 < h.length <= limit && h.length < 0x1_0000_0000 && b == PackHeader(h)
  {
    LengthBytes(b[4..]);
    assert b == b[..2] + [b[2], b[3]] + b[4..];
    if h.length < 0x1_0000_0000 && b == PackHeader(h) {
      LengthRoundTrip(h.length);
      assert b[4..] == PackLength(h.length) && b[..2] == MAGIC;
    }
  }

  /** The number that bytes write, most significant byte first. */
  function BigEndian(b: Bytes): nat {
    if b == [] then 0 else BigEndian(b[..|b| - 1]) * 0x100 + b[|b| - 1]
  }

  /** The four length bytes, whichever side writes them, are the length in network order. */
  lemma NetworkOrder(b: Bytes)
    requires |b| == 4
    ensures UnpackLength(b) == BigEndian(b)
  {
    assert b[..3][..2] == b[..2] && b[..2][..1] == b[..1];
    assert BigEndian(b[..1]) == b[0];
    assert BigEndian(b[..2]) == b[0] as int * 0x100 + b[1] as int;
    assert BigEndian(b[..3]) == b[0] as int * 0x1_0000 + b[1] as int * 0x100 + b[2] as int;
  }

  /** The eight bytes by position: D, S, the version 1, the kind, and the length in network order. */
  predicate HeaderLayout(b: Bytes, h: Header) {
    && |b| == 8
    && b[0] == 'D' as int && b[1] == 'S' as int && b[2] == 1 && b[3] == h.kind
    && BigEndian(b[4..]) == h.length
  }

  lemma HeaderBytes(h: Header, b: Bytes)
    requires h.length < 0x1_0000_0000
    ensures HeaderLayout(b, h) <==> b == PackHeader(h)
  {
    LengthRoundTrip(h.length);
    NetworkOrder(PackLength(h.length));
    var p := PackHeader(h);
    assert p[4..] == PackLength(h.length);
    if HeaderLayout(b, h) {
      NetworkOrder(b[4..]);
      LengthBytes(b[4..]);
      assert b == [b[0], b[1], b[2], b[3]] + b[4..];
    }
  }

  function DecodeEnvelope(pb: Protobuf, kind: Kind, body: Bytes): Outcome<Message> {
    match pb.parse(body)
    case None => Raised(DecodeError)
    case Some(e) => if e.senderId == "" || e.correlationId == "" then Raised(DecodeError) else Good(Message(kind, e))
  }

  function EncodeFrame(pb: Protobuf, limit: nat, m: Message): Outcome<Bytes> {
    var body := pb.serialize(m.envelope);
    if body == [] then Raised(InvalidFrameLength)
    else if |body| > limit then Raised(FrameTooLarge)
    else if |body| >= 0x1_0000_0000 then Raised(PackError)
    else Good(PackHeader(Header(m.kind, |body|)) + body)
  }

  /** A frame is written exactly for a body that is not empty and fits; then it is the header followed by the body. */
  lemma FrameLayout(pb: Protobuf, limit: nat, m: Message, frame: Bytes)
    ensures var body := pb.serialize(m.envelope);
            EncodeFrame(pb, limit, m) == Good(frame) <==>
            && 0 < |body| <= limit && |body| < 0x1_0000_0000
            && |frame| >= 8 && HeaderLayout(frame[..8], Header(m.kind, |body|)) && frame[8..] == body
  {
    var body := pb.serialize(m.envelope);
    if 0 < |body| < 0x1_0000_0000 {
      var h := Header(m.kind, |body|);
      assert (PackHeader(h) + body)[..8] == PackHeader(h) && (PackHeader(h) + body)[8..] == body;
      if |frame| >= 8 {
        HeaderBytes(h, frame[..8]);
        assert frame == frame[..8] + frame[8..];
      }
    }
  }

  // ---- What a buffer holds ----

  /** The front of a buffer: an unfinished frame, a fault with what stays in the buffer, or a message and the rest. */
  datatype Front = Unfinished | Faulty(fault: Fault, left: Bytes) | Framed(message: Message, rest: Bytes)

  /** A bad header stays in the buffer; a frame with a bad body has already left it. */
  function Scan(pb: Protobuf, limit: nat, buffer: Bytes): (f: Front)
    ensures f.Framed? ==> |f.rest| < |buffer|
  {
    if |buffer| < HEADER_SIZE then Unfinished
    else
      match ReadHeader(buffer[..HEADER_SIZE], limit)
      case Raised(fault) => Faulty(fault, buffer)
      case Good(h) =>
        var size := HEADER_SIZE + h.length;
        if |buffer| < size then Unfinished
        else
          match DecodeEnvelope(pb, h.kind, buffer[HEADER_SIZE..size])
          case Raised(fault) => Faulty(fault, buffer[size..])
          case Good(m) => Framed(m, buffer[size..])
  }

  /** The messages a buffer holds, up to the first fault, and what remains of it. */
  datatype Drained = Drained(messages: seq<Message>, left: Bytes, fault: Option<Fault>)

  function Drain(pb: Protobuf, limit: nat, buffer: Bytes): Drained
    decreases |buffer|
  {
    match Scan(pb, limit, buffer)
    case Unfinished => Drained([], buffer, None)
    case Faulty(fault, left) => Drained([], left, Some(fault))
    case Framed(m, rest) => var d := Drain(pb, limit, rest); d.(messages := [m] + d.messages)
  }

  class FrameDecoder {
    const limit: nat
    var buffer: Bytes

    constructor (limit: nat)
      ensures this.limit == limit && buffer == []
    {
      this.limit := limit;
      buffer := [];
    }

    /** On a fault the messages already decoded in this call are lost with it. */
    method Feed(pb: Protobuf, data: Bytes) returns (r: Outcome<seq<Message>>)
      modifies this
      ensures var d := Drain(pb, limit, old(buffer) + data);
              && buffer == d.left
              && r == if d.fault.Some? then Raised(d.fault.value) else Good(d.messages)
    {
      buffer := buffer + data;
      var messages := [];
      ghost var whole := Drain(pb, limit, buffer);
      while |buffer| >= HEADER_SIZE
        invariant var d := Drain(pb, limit, buffer);
                  whole == d.(messages := messages + d.messages)
        decreases |buffer|
      {
        var header := ReadHeader(buffer[..HEADER_SIZE], limit);
        if header.Raised? {
          return Raised(header.fault);
        }
        var size := HEADER_SIZE + header.value.length;
        if |buffer| < size {
          break;
        }
        var body := buffer[HEADER_SIZE..size];
        buffer := buffer[size..];
        var message := DecodeEnvelope(pb, header.value.kind, body);
        if message.Raised? {
          return Raised(message.fault);
        }
        messages := messages + [message.value];
      }
      assert Drain(pb, limit, buffer) == Drained([], buffer, None);
      assert messages + [] == messages;
      return Good(messages);
    }
  }

  // ---- More bytes do not change what is already decided ----

  lemma ScanExtends(pb: Protobuf, limit: nat, a: Bytes, b: Bytes)
    ensures match Scan(pb, limit, a)
            case Unfinished => true
            case Faulty(fault, left) => Scan(pb, limit, a + b) == Faulty(fault, left + b)
            case Framed(m, rest) => Scan(pb, limit, a + b) == Framed(m, rest + b)
  {
    if |a| >= HEADER_SIZE {
      assert (a + b)[..HEADER_SIZE] == a[..HEADER_SIZE];
      var h := ReadHeader(a[..HEADER_SIZE], limit);
      if h.Good? && |a| >= HEADER_SIZE + h.value.length {
        var size := HEADER_SIZE + h.value.length;
        assert (a + b)[HEADER_SIZE..size] == a[HEADER_SIZE..size];
        assert (a + b)[size..] == a[size..] + b;
      }
    }
  }

  /** Draining in two parts is draining at once. */
  lemma {:induction false} DrainExtends(pb: Protobuf, limit: nat, a: Bytes, b: Bytes)
    ensures var d := Drain(pb, limit, a);
            if d.fault.Some? then Drain(pb, limit, a + b) == d.(left := d.left + b)
            else var e := Drain(pb, limit, d.left + b);
                 Drain(pb, limit, a + b) == e.(messages := d.messages + e.messages)
    decreases |a|
  {
    ScanExtends(pb, limit, a, b);
    match Scan(pb, limit, a)
    case Unfinished =>
      assert [] + Drain(pb, limit, a + b).messages == Drain(pb, limit, a + b).messages;
    case Faulty(_, _) =>
    case Framed(m, rest) =>
      DrainExtends(pb, limit, rest, b);
      FramedExtends(m, Drain(pb, limit, rest), Drain(pb, limit, Drain(pb, limit, rest).left + b).messages);
  }

  lemma FramedExtends(m: Message, d: Drained, more: seq<Message>)
    ensures [m] + (d.messages + more) == ([m] + d.messages) + more
  {
  }

  // ---- Chunks ----

  function Concat(chunks: seq<Bytes>): Bytes {
    if chunks == [] then [] else Concat(chunks[..|chunks| - 1]) + chunks[|chunks| - 1]
  }

  /** Feeding chunks one by one to a new decoder until one raises: what came out, and what the buffer holds. */
  function FeedAll(pb: Protobuf, limit: nat, chunks: seq<Bytes>): Drained {
    if chunks == [] then Drained([], [], None)
    else
      var before := FeedAll(pb, limit, chunks[..|chunks| - 1]);
      if before.fault.Some? then before
      else
        var d := Drain(pb, limit, before.left + chunks[|chunks| - 1]);
        Drained(if d.fault.Some? then before.messages else before.messages + d.messages, d.left, d.fault)
  }

  lemma DrainNothing(pb: Protobuf, limit: nat)
    ensures Drain(pb, limit, []) == Drained([], [], None)
  {
  }

  /** Chunking does not matter to a sound stream: same messages, same remainder, no fault. */
  lemma {:induction false} ChunkingInvariant(pb: Protobuf, limit: nat, chunks: seq<Bytes>)
    ensures FeedAll(pb, limit, chunks).fault == Drain(pb, limit, Concat(chunks)).fault
    ensures Drain(pb, limit, Concat(chunks)).fault.None? ==> FeedAll(pb, limit, chunks) == Drain(pb, limit, Concat(chunks))
    ensures FeedAll(pb, limit, chunks).messages <= Drain(pb, limit, Concat(chunks)).messages
  {
    if chunks == [] {
      DrainNothing(pb, limit);
    } else {
      var before, last := chunks[..|chunks| - 1], chunks[|chunks| - 1];
      ChunkingInvariant(pb, limit, before);
      DrainExtends(pb, limit, Concat(before), last);
    }
  }

  /** The same stream always delivers the same messages exactly when no good frame precedes a fault. */
  predicate NothingToLose(pb: Protobuf, limit: nat, stream: Bytes) {
    var d := Drain(pb, limit, stream);
    d.fault.None? || d.messages == []
  }

  lemma ConcatOne(x: seq<Bytes>)
    requires |x| == 1
    ensures Concat(x) == x[0]
  {
  }

  lemma ConcatTwo(y: seq<Bytes>)
    requires |y| == 2
    ensures Concat(y) == y[0] + y[1]
  {
    ConcatOne(y[..1]);
  }

  /** The end of the first frame is a place to cut the stream. */
  lemma FirstFrame(pb: Protobuf, limit: nat, stream: Bytes) returns (cut: nat)
    requires Drain(pb, limit, stream).messages != []
    ensures cut <= |stream|
    ensures Drain(pb, limit, stream[..cut]) == Drained([Drain(pb, limit, stream).messages[0]], [], None)
  {
    var h := ReadHeader(stream[..HEADER_SIZE], limit).value;
    cut := HEADER_SIZE + h.length;
    var frame := stream[..cut];
    assert frame[..HEADER_SIZE] == stream[..HEADER_SIZE] && frame[HEADER_SIZE..cut] == stream[HEADER_SIZE..cut];
    assert frame[cut..] == [];
    DrainNothing(pb, limit);
    assert Scan(pb, limit, frame) == Framed(Drain(pb, limit, stream).messages[0], []);
    assert Drain(pb, limit, frame) == Drained([Drain(pb, limit, stream).messages[0]] + [], [], None);
  }

  lemma FeedOne(pb: Protobuf, limit: nat, x: seq<Bytes>)
    requires |x| == 1
    ensures var d := Drain(pb, limit, x[0]);
            FeedAll(pb, limit, x) == if d.fault.Some? then d.(messages := []) else d
  {
    assert x[..0] == [] && [] + x[0] == x[0];
    assert FeedAll(pb, limit, x[..0]) == Drained([], [], None);
  }

  lemma FeedTwo(pb: Protobuf, limit: nat, y: seq<Bytes>)
    requires |y| == 2 && Drain(pb, limit, y[0]).fault.None? && Drain(pb, limit, y[0] + y[1]).fault.Some?
    ensures FeedAll(pb, limit, y).messages == Drain(pb, limit, y[0]).messages
  {
    FeedOne(pb, limit, y[..1]);
    DrainExtends(pb, limit, y[0], y[1]);
  }

  lemma SameMessages(pb: Protobuf, limit: nat, x: seq<Bytes>, y: seq<Bytes>)
    requires Concat(x) == Concat(y) && NothingToLose(pb, limit, Concat(x))
    ensures FeedAll(pb, limit, x).messages == FeedAll(pb, limit, y).messages
  {
    ChunkingInvariant(pb, limit, x);
    ChunkingInvariant(pb, limit, y);
  }

  /** In one chunk the good frames are lost; cut after the first, that one is delivered. */
  lemma OtherMessages(pb: Protobuf, limit: nat, stream: Bytes) returns (x: seq<Bytes>, y: seq<Bytes>)
    requires !NothingToLose(pb, limit, stream)
    ensures Concat(x) == stream && Concat(y) == stream
    ensures FeedAll(pb, limit, x).messages != FeedAll(pb, limit, y).messages
  {
    var cut := FirstFrame(pb, limit, stream);
    x, y := [stream], [stream[..cut], stream[cut..]];
    assert stream[..cut] + stream[cut..] == stream;
    ConcatOne(x);
    ConcatTwo(y);
    FeedOne(pb, limit, x);
    FeedTwo(pb, limit, y);
  }

  /** Every cut of the stream into chunks delivers the same messages if, and only if, nothing good precedes a fault. */
  lemma ChunkingInvariantIff(pb: Protobuf, limit: nat, stream: Bytes)
    ensures NothingToLose(pb, limit, stream) <==>
            forall x, y | Concat(x) == stream && Concat(y) == stream ::
              FeedAll(pb, limit, x).messages == FeedAll(pb, limit, y).messages
  {
    if NothingToLose(pb, limit, stream) {
      forall x, y | Concat(x) == stream && Concat(y) == stream
        ensures FeedAll(pb, limit, x).messages == FeedAll(pb, limit, y).messages
      {
        SameMessages(pb, limit, x, y);
      }
    } else {
      var x, y := OtherMessages(pb, limit, stream);
    }
  }

  // ---- Encoded messages come back ----

  /** The message can be framed, and protobuf gives its envelope back. */
  predicate Sendable(pb: Protobuf, limit: nat, m: Message) {
    EncodeFrame(pb, limit, m).Good? && pb.parse(pb.serialize(m.envelope)) == Some(m.envelope)
  }

  predicate Identified(m: Message) {
    m.envelope.senderId != "" && m.envelope.correlationId != ""
  }

  /** A framed message is read back exactly when it names its sender and its correlation id. */
  lemma FrameRoundTrip(pb: Protobuf, limit: nat, m: Message, tail: Bytes)
    requires Sendable(pb, limit, m)
    ensures Scan(pb, limit, EncodeFrame(pb, limit, m).value + tail)
         == if Identified(m) then Framed(m, tail) else Faulty(DecodeError, tail)
  {
    var body := pb.serialize(m.envelope);
    var frame := EncodeFrame(pb, limit, m).value;
    var header := frame[..HEADER_SIZE];
    HeaderExactly(header, limit, Header(m.kind, |body|));
    var all := frame + tail;
    assert all[..HEADER_SIZE] == header;
    assert all[HEADER_SIZE..HEADER_SIZE + |body|] == body;
    assert all[HEADER_SIZE + |body|..] == tail;
  }

  function Stream(pb: Protobuf, limit: nat, messages: seq<Message>): Bytes
    requires forall m | m in messages :: Sendable(pb, limit, m)
  {
    if messages == [] then [] else assert Sendable(pb, limit, messages[0]); EncodeFrame(pb, limit, messages[0]).value + Stream(pb, limit, messages[1..])
  }

  lemma {:induction false} StreamDrains(pb: Protobuf, limit: nat, messages: seq<Message>)
    requires forall m | m in messages :: Sendable(pb, limit, m) && Identified(m)
    ensures Drain(pb, limit, Stream(pb, limit, messages)) == Drained(messages, [], None)
  {
    if messages == [] {
      DrainNothing(pb, limit);
    } else {
      StreamDrains(pb, limit, messages[1..]);
      FrameRoundTrip(pb, limit, messages[0], Stream(pb, limit, messages[1..]));
      assert messages == [messages[0]] + messages[1..];
    }
  }

  /** Any split of the stream of any encoded messages delivers exactly those messages and leaves nothing over. */
  lemma ChunkedRoundTrip(pb: Protobuf, limit: nat, messages: seq<Message>, chunks: seq<Bytes>)
    requires forall m | m in messages :: Sendable(pb, limit, m) && Identified(m)
    requires Concat(chunks) == Stream(pb, limit, messages)
    ensures FeedAll(pb, limit, chunks) == Drained(messages, [], None)
  {
    StreamDrains(pb, limit, messages);
    ChunkingInvariant(pb, limit, chunks);
  }

  /** Some of the messages, whole, followed by what is left, make up the bytes. */
  ghost predicate Accounts(pb: Protobuf, limit: nat, messages: seq<Message>, s: Bytes, d: Drained) {
    && d.fault.None? && d.messages <= messages
    && (forall m | m in d.messages :: Sendable(pb, limit, m))
    && s == Stream(pb, limit, d.messages) + d.left
  }

  /** After any part of such a stream, the buffer holds exactly the bytes after the last delivered frame. */
  lemma BufferIsUndecodedSuffix(pb: Protobuf, limit: nat, messages: seq<Message>, chunks: seq<Bytes>)
    requires forall m | m in messages :: Sendable(pb, limit, m) && Identified(m)
    requires Concat(chunks) <= Stream(pb, limit, messages)
    ensures Accounts(pb, limit, messages, Concat(chunks), FeedAll(pb, limit, chunks))
    ensures Scan(pb, limit, FeedAll(pb, limit, chunks).left).Unfinished?
  {
    ChunkingInvariant(pb, limit, chunks);
    PrefixDrains(pb, limit, messages, Concat(chunks));
    DrainStops(pb, limit, Concat(chunks));
  }

  lemma {:induction false} DrainStops(pb: Protobuf, limit: nat, s: Bytes)
    requires Drain(pb, limit, s).fault.None?
    ensures Scan(pb, limit, Drain(pb, limit, s).left).Unfinished?
    decreases |s|
  {
    match Scan(pb, limit, s)
    case Framed(_, rest) => DrainStops(pb, limit, rest);
    case _ =>
  }

  lemma {:induction false} PrefixDrains(pb: Protobuf, limit: nat, messages: seq<Message>, s: Bytes)
    requires forall m | m in messages :: Sendable(pb, limit, m) && Identified(m)
    requires s <= Stream(pb, limit, messages)
    ensures Accounts(pb, limit, messages, s, Drain(pb, limit, s))
    decreases |messages|
  {
    if messages == [] {
      DrainNothing(pb, limit);
    } else {
      PrefixScan(pb, limit, messages, s);
      if Scan(pb, limit, s).Framed? {
        var left := Scan(pb, limit, s).rest;
        PrefixDrains(pb, limit, messages[1..], left);
        AccountsMore(pb, limit, messages, s, left, Drain(pb, limit, left));
      } else {
        assert Drain(pb, limit, s) == Drained([], s, None);
      }
    }
  }

  lemma AccountsMore(pb: Protobuf, limit: nat, messages: seq<Message>, s: Bytes, left: Bytes, d: Drained)
    requires messages != [] && Sendable(pb, limit, messages[0]) && s == EncodeFrame(pb, limit, messages[0]).value + left
    requires Accounts(pb, limit, messages[1..], left, d)
    ensures Accounts(pb, limit, messages, s, d.(messages := [messages[0]] + d.messages))
  {
  }

  /** A part of the stream begins with the first message's frame, or with less than that frame. */
  lemma PrefixScan(pb: Protobuf, limit: nat, messages: seq<Message>, s: Bytes)
    requires messages != [] && forall m | m in messages :: Sendable(pb, limit, m) && Identified(m)
    requires s <= Stream(pb, limit, messages)
    ensures Sendable(pb, limit, messages[0]) && !Scan(pb, limit, s).Faulty?
    ensures Scan(pb, limit, s).Framed? ==>
            && Scan(pb, limit, s).message == messages[0]
            && s == EncodeFrame(pb, limit, messages[0]).value + Scan(pb, limit, s).rest
            && Scan(pb, limit, s).rest <= Stream(pb, limit, messages[1..])
  {
    assert messages[0] in messages;
    var all := Stream(pb, limit, messages);
    var frame, rest := EncodeFrame(pb, limit, messages[0]).value, Stream(pb, limit, messages[1..]);
    FrameRoundTrip(pb, limit, messages[0], rest);
    ScanExtends(pb, limit, s, all[|s|..]);
    assert all == s + all[|s|..];
    if Scan(pb, limit, s).Framed? {
      var left := Scan(pb, limit, s).rest;
      assert rest == left + all[|s|..];
      assert |left| == |s| - |frame|;
      assert s == all[..|s|];
    }
  }

  // ---- read_message ----

  /** A reader delivers exactly the bytes asked for, or raises at the end of the stream. */
  function ReadExactly(stream: Bytes, n: nat): Outcome<(Bytes, Bytes)> {
    if |stream| < n then Raised(IncompleteRead) else Good((stream[..n], stream[n..]))
  }

  function ReadMessage(pb: Protobuf, limit: nat, stream: Bytes): (r: Outcome<(Message, Bytes)>)
    ensures r.Good? ==> |r.value.1| < |stream|
  {
    match ReadExactly(stream, HEADER_SIZE)
    case Raised(f) => Raised(f)
    case Good((header, rest)) =>
      match ReadHeader(header, limit)
      case Raised(f) => Raised(f)
      case Good(h) =>
        match ReadExactly(rest, h.length)
        case Raised(f) => Raised(f)
        case Good((body, after)) =>
          match DecodeEnvelope(pb, h.kind, body)
          case Raised(f) => Raised(f)
          case Good(m) => Good((m, after))
  }

  /** Calling read_message until it raises: the messages, and why it stopped. */
  function ReadAll(pb: Protobuf, limit: nat, stream: Bytes): (seq<Message>, Fault)
    decreases |stream|
  {
    match ReadMessage(pb, limit, stream)
    case Raised(f) => ([], f)
    case Good((m, rest)) => var r := ReadAll(pb, limit, rest); ([m] + r.0, r.1)
  }

  lemma ReadIsScan(pb: Protobuf, limit: nat, stream: Bytes)
    ensures ReadMessage(pb, limit, stream) ==
            match Scan(pb, limit, stream)
            case Unfinished => Raised(IncompleteRead)
            case Faulty(fault, _) => Raised(fault)
            case Framed(m, rest) => Good((m, rest))
  {
    if |stream| >= HEADER_SIZE {
      var rest := stream[HEADER_SIZE..];
      var h := ReadHeader(stream[..HEADER_SIZE], limit);
      if h.Good? && |rest| >= h.value.length {
        assert rest[..h.value.length] == stream[HEADER_SIZE..HEADER_SIZE + h.value.length];
        assert rest[h.value.length..] == stream[HEADER_SIZE + h.value.length..];
      }
    }
  }

  /** On every byte stream, sound or not, the two readers decode the same messages and meet the same fault. */
  lemma {:induction false} ReadersAgree(pb: Protobuf, limit: nat, stream: Bytes)
    ensures var d := Drain(pb, limit, stream);
            ReadAll(pb, limit, stream) == (d.messages, if d.fault.Some? then d.fault.value else IncompleteRead)
    decreases |stream|
  {
    ReadIsScan(pb, limit, stream);
    match Scan(pb, limit, stream)
    case Framed(_, rest) => ReadersAgree(pb, limit, rest);
    case _ =>
  }
}
