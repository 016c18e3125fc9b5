// Length-prefix framing: the header codec, and the handler that cuts a byte
// stream, arriving in arbitrary chunks, back into frames.

module Framing {
  import opened Common

  newtype byte = x: int | 0 <= x < 256

  type Bytes = seq<byte>

  const HEADER_SIZE: nat := 8
  const MAX_PAYLOAD_BYTES: nat := 1048576
  const U32_LIMIT: nat := 0x1_0000_0000

  datatype Header = Header(typeId: nat, payloadLength: nat)

  datatype Frame = Frame(typeId: nat, payload: Bytes)

  // ---- header -----------------------------------------------------------------

  function PackU32(n: nat): (b: Bytes)
    requires n < U32_LIMIT
    ensures |b| == 4
  {
    [(n / 0x100_0000) as byte, (n / 0x1_0000 % 0x100) as byte, (n / 0x100 % 0x100) as byte, (n % 0x100) as byte]
  }

  function UnpackU32(b: Bytes): (n: nat)
    requires |b| == 4
    ensures n < U32_LIMIT
  {
    ((b[0] as nat * 0x100 + b[1] as nat) * 0x100 + b[2] as nat) * 0x100 + b[3] as nat
  }

  // Packing fails for a field that does not fit 32 bits.
  function Pack(h: Header): (b: Option<Bytes>)
    ensures b.Some? <==> h.typeId < U32_LIMIT && h.payloadLength < U32_LIMIT
    ensures b.Some? ==> |b.value| == HEADER_SIZE
  {
    if h.typeId < U32_LIMIT && h.payloadLength < U32_LIMIT
    then Some(PackU32(h.typeId) + PackU32(h.payloadLength))
    else None
  }

  function Unpack(b: Bytes): Header
    requires |b| == HEADER_SIZE
  {
    Header(UnpackU32(b[..4]), UnpackU32(b[4..]))
  }

  lemma U32RoundTrip(n: nat)
    requires n < U32_LIMIT
    ensures UnpackU32(PackU32(n)) == n
  {
    var a, b, c := n / 0x100, n / 0x1_0000, n / 0x100_0000;
    LastDigit(n);
    LastDigit(a);
    LastDigit(b);
    assert a / 0x100 == b && b / 0x100 == c;
    hide PackU32, UnpackU32;
    U32Is(n, a, b, c);
  }

  lemma LastDigit(n: nat)
    ensures n == n / 0x100 * 0x100 + n % 0x100
  {
  }

  lemma U32Is(n: nat, a: nat, b: nat, c: nat)
    requires n < U32_LIMIT && a == n / 0x100 && b == n / 0x1_0000 && c == n / 0x100_0000
    ensures UnpackU32(PackU32(n)) == ((c * 0x100 + b % 0x100) * 0x100 + a % 0x100) * 0x100 + n % 0x100
  {
  }

  lemma U32Surjective(b: Bytes)
    requires |b| == 4
    ensures PackU32(UnpackU32(b)) == b
  {
    var n := UnpackU32(b);
    assert n % 0x100 == b[3] as nat && n / 0x100 == (b[0] as nat * 0x100 + b[1] as nat) * 0x100 + b[2] as nat;
    assert n / 0x1_0000 == n / 0x100 / 0x100;
    assert n / 0x100_0000 == n / 0x1_0000 / 0x100;
  }

  // pack and unpack are inverse to each other.
  lemma HeaderRoundTrip(h: Header, b: Bytes)
    ensures Pack(h).Some? ==> Unpack(Pack(h).value) == h
    ensures |b| == HEADER_SIZE ==> Pack(Unpack(b)) == Some(b)
  {
    if Pack(h).Some? {
      U32RoundTrip(h.typeId);
      U32RoundTrip(h.payloadLength);
      var p := Pack(h).value;
      assert p[..4] == PackU32(h.typeId) && p[4..] == PackU32(h.payloadLength);
    }
    if |b| == HEADER_SIZE {
      U32Surjective(b[..4]);
      U32Surjective(b[4..]);
      assert b == b[..4] + b[4..];
    }
  }

  // The number that four bytes denote, the most significant first.
  function Weighted(b: Bytes): nat
    requires |b| == 4
  {
    b[0] as nat * 0x100_0000 + b[1] as nat * 0x1_0000 + b[2] as nat * 0x100 + b[3] as nat
  }

  // On the wire both fields are big-endian, the type before the length.
  lemma HeaderIsBigEndian(h: Header)
    requires Pack(h).Some?
    ensures
      var b := Pack(h).value;
      Weighted(b[..4]) == h.typeId && Weighted(b[4..]) == h.payloadLength
  {
    var b := Pack(h).value;
    HeaderRoundTrip(h, b);
    hide Pack;
    assert UnpackU32(b[..4]) == h.typeId && UnpackU32(b[4..]) == h.payloadLength;
  }

  // ---- frames -------------------------------------------------------------------

  // encode_message for a payload that is already serialised.
  function Encode(f: Frame): Option<Bytes> {
    match Pack(Header(f.typeId, |f.payload|))
    case None => None
    case Some(header) => Some(header + f.payload)
  }

  // What the head of a buffer amounts to.
  datatype Head = Incomplete | Oversize | Complete(frame: Frame, end: nat)

  function HeadOf(buffer: Bytes): (h: Head)
    ensures h.Complete? ==> HEADER_SIZE <= h.end <= |buffer|
  {
    if |buffer| < HEADER_SIZE then Incomplete
    else
      var header := Unpack(buffer[..HEADER_SIZE]);
      var end := HEADER_SIZE + header.payloadLength;
      if header.payloadLength > MAX_PAYLOAD_BYTES then Oversize
      else if |buffer| < end then Incomplete
      else Complete(Frame(header.typeId, buffer[HEADER_SIZE..end]), end)
  }

  // A header whose length field exceeds the limit; how much of its payload is there does not
  // matter.
  predicate TooLong(buffer: Bytes) { |buffer| >= HEADER_SIZE && Weighted(buffer[4..8]) > MAX_PAYLOAD_BYTES }

  // Neither a whole frame nor such a header.
  predicate Short(buffer: Bytes) {
    |buffer| < HEADER_SIZE || (!TooLong(buffer) && |buffer| < HEADER_SIZE + Weighted(buffer[4..8]))
  }

  lemma HeadMeans(buffer: Bytes)
    ensures HeadOf(buffer).Oversize? <==> TooLong(buffer)
    ensures HeadOf(buffer).Incomplete? <==> Short(buffer)
  {
    if |buffer| >= HEADER_SIZE {
      assert buffer[..HEADER_SIZE][4..] == buffer[4..8];
    }
  }

  // A frame that the handler on the other side takes out again.
  predicate Acceptable(f: Frame) { f.typeId < U32_LIMIT && |f.payload| <= MAX_PAYLOAD_BYTES }

  lemma EncodedHead(f: Frame, rest: Bytes)
    requires Encode(f).Some?
    ensures
      var e := Encode(f).value;
      && |e| == HEADER_SIZE + |f.payload|
      && HeadOf(e + rest) == if Acceptable(f) then Complete(f, |e|) else Oversize
  {
    var header := Pack(Header(f.typeId, |f.payload|)).value;
    var b := Encode(f).value + rest;
    HeaderRoundTrip(Header(f.typeId, |f.payload|), header);
    assert b[..HEADER_SIZE] == header;
    assert b[HEADER_SIZE..HEADER_SIZE + |f.payload|] == f.payload;
  }

  lemma HeadEncodes(buffer: Bytes)
    requires HeadOf(buffer).Complete?
    ensures
      var h := HeadOf(buffer);
      Acceptable(h.frame) && Encode(h.frame) == Some(buffer[..h.end])
  {
    var h := HeadOf(buffer);
    HeaderRoundTrip(Header(0, 0), buffer[..HEADER_SIZE]);
    assert Header(h.frame.typeId, |h.frame.payload|) == Unpack(buffer[..HEADER_SIZE]);
    assert buffer[..h.end] == buffer[..HEADER_SIZE] + buffer[HEADER_SIZE..h.end];
  }

  // More bytes do not change a verdict that is already there.
  lemma HeadStable(buffer: Bytes, more: Bytes)
    requires !HeadOf(buffer).Incomplete?
    ensures HeadOf(buffer + more) == HeadOf(buffer)
  {
    assert (buffer + more)[..HEADER_SIZE] == buffer[..HEADER_SIZE];
    var h := HeadOf(buffer);
    if h.Complete? {
      assert (buffer + more)[HEADER_SIZE..h.end] == buffer[HEADER_SIZE..h.end];
    }
  }

  // ---- one call of the handler ---------------------------------------------------

  // What a call takes from the buffer: the frames dispatched, the bytes left, and
  // whether it met an oversize header.
  datatype Taken = Taken(frames: seq<Frame>, rest: Bytes, oversize: bool)

  function After(f: Frame, t: Taken): Taken { t.(frames := [f] + t.frames) }

  // The loop of on_bytes_received.  A dispatch that raises ends the call; its
  // frame has left the buffer by then.
  function Take(buffer: Bytes, raisesAt: Option<nat>): Taken
    decreases |buffer|
  {
    match HeadOf(buffer)
    case Incomplete => Taken([], buffer, false)
    case Oversize => Taken([], [], true)
    case Complete(f, end) =>
      if raisesAt == Some(0) then Taken([f], buffer[end..], false)
      else After(f, Take(buffer[end..], if raisesAt.Some? then Some(raisesAt.value - 1) else None))
  }

  // ---- frames and streams ----------------------------------------------------------

  function Encoded(f: Frame): Bytes {
    match Encode(f)
    case Some(b) => b
    case None => []
  }

  // The concatenation of encoded frames.
  function Stream(frames: seq<Frame>): Bytes {
    if frames == [] then [] else Encoded(frames[0]) + Stream(frames[1..])
  }

  predicate AllAcceptable(frames: seq<Frame>) { forall f :: f in frames ==> Acceptable(f) }

  lemma EncodedTake(f: Frame, rest: Bytes)
    requires Acceptable(f)
    ensures Take(Encoded(f) + rest, None) == After(f, Take(rest, None))
  {
    EncodedHead(f, rest);
    assert (Encoded(f) + rest)[|Encoded(f)|..] == rest;
    hide HeadOf, Encode;
  }

  // Encoded frames come out again, and what follows them is read as if alone.
  lemma {:induction false} StreamComesOut(frames: seq<Frame>, rest: Bytes)
    requires AllAcceptable(frames)
    ensures
      var t := Take(rest, None);
      Take(Stream(frames) + rest, None) == t.(frames := frames + t.frames)
    decreases |frames|
  {
    hide Take, Encoded;
    var t := Take(rest, None);
    if frames == [] {
      assert Stream(frames) + rest == rest;
      assert [] + t.frames == t.frames;
    } else {
      var e, others := Encoded(frames[0]), Stream(frames[1..]);
      assert Stream(frames) + rest == e + (others + rest);
      EncodedTake(frames[0], others + rest);
      StreamComesOut(frames[1..], rest);
      assert [frames[0]] + (frames[1..] + t.frames) == frames + t.frames;
    }
  }

  // How a stream falls into frames and a remainder.
  ghost predicate SplitsInto(bytes: Bytes, t: Taken) {
    && AllAcceptable(t.frames)
    && Stream(t.frames) <= bytes
    && (if t.oversize then t.rest == [] && TooLong(bytes[|Stream(t.frames)|..])
        else bytes == Stream(t.frames) + t.rest && Short(t.rest))
  }

  lemma SplitsAfter(first: Bytes, others: Bytes, f: Frame, u: Taken)
    requires Acceptable(f) && Encoded(f) == first && SplitsInto(others, u)
    ensures SplitsInto(first + others, After(f, u))
  {
    hide TooLong, Short, Encoded;
    var bytes, t := first + others, After(f, u);
    assert t.frames[1..] == u.frames;
    assert Stream(t.frames) == first + Stream(u.frames);
    if u.oversize {
      assert bytes[|Stream(t.frames)|..] == others[|Stream(u.frames)|..];
    } else {
      assert bytes == first + (Stream(u.frames) + t.rest);
    }
    assert first + others[..|Stream(u.frames)|] == bytes[..|Stream(t.frames)|];
  }

  lemma NothingTaken(bytes: Bytes)
    requires !HeadOf(bytes).Complete?
    ensures SplitsInto(bytes, Take(bytes, None))
  {
    assert bytes[0..] == bytes && [] + bytes == bytes;
    HeadMeans(bytes);
    hide HeadOf, Encoded, TooLong, Short;
  }

  // Conversely, what is taken out is what was in the stream.
  lemma {:induction false} TakenIsStream(bytes: Bytes)
    ensures SplitsInto(bytes, Take(bytes, None))
    decreases |bytes|
  {
    hide HeadOf, Encode, SplitsInto;
    var h := HeadOf(bytes);
    if h.Complete? {
      HeadEncodes(bytes);
      TakenIsStream(bytes[h.end..]);
      SplitsAfter(bytes[..h.end], bytes[h.end..], h.frame, Take(bytes[h.end..], None));
      assert bytes[..h.end] + bytes[h.end..] == bytes;
    } else {
      NothingTaken(bytes);
    }
  }

  // What a call that ends normally leaves in the buffer.
  lemma RestOfTake(bytes: Bytes)
    ensures var t := Take(bytes, None); if t.oversize then t.rest == [] else HeadOf(t.rest).Incomplete?
  {
    hide HeadOf, Take, Stream, TooLong, Short;
    TakenIsStream(bytes);
    HeadMeans(Take(bytes, None).rest);
  }

  // Reading a stream means splitting it: the split exists, and it is the only one.  It ends
  // with an incomplete frame, or at once with the first header that claims too much.
  lemma TakeMeans(bytes: Bytes, frames: seq<Frame>, rest: Bytes)
    ensures
      Take(bytes, None) == Taken(frames, rest, false)
      <==> AllAcceptable(frames) && bytes == Stream(frames) + rest && Short(rest)
    ensures
      AllAcceptable(frames) && bytes == Stream(frames) + rest && TooLong(rest) ==>
        Take(bytes, None) == Taken(frames, [], true)
    ensures SplitsInto(bytes, Take(bytes, None))
  {
    hide HeadOf, TooLong, Short;
    TakenIsStream(bytes);
    HeadMeans(rest);
    if AllAcceptable(frames) && bytes == Stream(frames) + rest && (Short(rest) || TooLong(rest)) {
      StreamComesOut(frames, rest);
      assert frames + [] == frames;
    }
  }

  // ---- chunks ------------------------------------------------------------------------

  // One call: the chunk, and the dispatch that raises, if any.
  datatype Call = Call(chunk: Bytes, raisesAt: Option<nat>)

  function Flatten(calls: seq<Call>): Bytes {
    if calls == [] then [] else calls[0].chunk + Flatten(calls[1..])
  }

  // A series of calls on the buffer of one connection.
  function Feed(buffer: Bytes, calls: seq<Call>): Taken
    decreases calls
  {
    if calls == [] then Taken([], buffer, false)
    else
      var first := Take(buffer + calls[0].chunk, calls[0].raisesAt);
      var others := Feed(first.rest, calls[1..]);
      Taken(first.frames + others.frames, others.rest, first.oversize || others.oversize)
  }

  // Stopping in the middle and going on with more bytes loses nothing.
  predicate Resumes(t: Taken, b: Bytes, whole: Taken) {
    if t.oversize then whole.oversize && whole.frames == t.frames
    else
      var u := Take(t.rest + b, None);
      whole == u.(frames := t.frames + u.frames)
  }

  lemma ResumesAfter(f: Frame, t: Taken, b: Bytes, whole: Taken)
    requires Resumes(t, b, whole)
    ensures Resumes(After(f, t), b, After(f, whole))
  {
    hide Take;
    if !t.oversize {
      var u := Take(t.rest + b, None);
      assert [f] + (t.frames + u.frames) == ([f] + t.frames) + u.frames;
    }
  }

  lemma {:induction false} TakeThenMore(a: Bytes, raisesAt: Option<nat>, b: Bytes)
    ensures Resumes(Take(a, raisesAt), b, Take(a + b, None))
    decreases |a|
  {
    var h := HeadOf(a);
    if !h.Incomplete? {
      HeadStable(a, b);
    }
    hide HeadOf;
    if h.Complete? {
      assert (a + b)[h.end..] == a[h.end..] + b;
      if raisesAt != Some(0) {
        hide Resumes;
        var next := if raisesAt.Some? then Some(raisesAt.value - 1) else None;
        TakeThenMore(a[h.end..], next, b);
        ResumesAfter(h.frame, Take(a[h.end..], next), b, Take(a[h.end..] + b, None));
      }
    }
  }

  // However the stream is cut and whichever dispatches raise: without an oversize
  // header, the frames dispatched so far and those still in the buffer are the
  // frames of the stream, each once and in order.
  lemma {:induction false} NoFrameLost(buffer: Bytes, calls: seq<Call>)
    requires !Take(buffer + Flatten(calls), None).oversize
    ensures
      var d, whole := Feed(buffer, calls), Take(buffer + Flatten(calls), None);
      var left := Take(d.rest, None);
      && !d.oversize
      && d.frames + left.frames == whole.frames
      && left.rest == whole.rest && !left.oversize
    decreases calls
  {
    if calls == [] {
      assert buffer + Flatten(calls) == buffer;
    } else {
      var a, more := buffer + calls[0].chunk, Flatten(calls[1..]);
      assert buffer + Flatten(calls) == a + more;
      hide Take;
      TakeThenMore(a, calls[0].raisesAt, more);
      var first := Take(a, calls[0].raisesAt);
      NoFrameLost(first.rest, calls[1..]);
      var others := Feed(first.rest, calls[1..]);
      var left := Take(others.rest, None);
      assert first.frames + (others.frames + left.frames) == (first.frames + others.frames) + left.frames;
    }
  }

  lemma EmptyIsIncomplete()
    ensures HeadOf([]).Incomplete?
  {
  }

  predicate NoneRaises(calls: seq<Call>) { forall c :: c in calls ==> c.raisesAt.None? }

  // Once a call ends normally, nothing complete stays in the buffer.
  lemma {:induction false} NothingCompleteStays(buffer: Bytes, calls: seq<Call>)
    requires HeadOf(buffer).Incomplete? && NoneRaises(calls)
    ensures HeadOf(Feed(buffer, calls).rest).Incomplete?
    decreases calls
  {
    if calls != [] {
      hide HeadOf, Take;
      var a := buffer + calls[0].chunk;
      RestOfTake(a);
      if Take(a, None).oversize {
        EmptyIsIncomplete();
      }
      NothingCompleteStays(Take(a, None).rest, calls[1..]);
    }
  }

  // Chunk invariance: the handler dispatches what the whole stream contains.
  lemma CutsDoNotMatter(calls: seq<Call>)
    requires NoneRaises(calls) && !Take(Flatten(calls), None).oversize
    ensures Feed([], calls) == Take(Flatten(calls), None)
  {
    assert [] + Flatten(calls) == Flatten(calls);
    NoFrameLost([], calls);
    NothingCompleteStays([], calls);
  }

  // The round trip: encoded frames arrive exactly, through any cutting, and the
  // buffer ends empty.
  lemma FramesArrive(frames: seq<Frame>, calls: seq<Call>)
    requires AllAcceptable(frames) && NoneRaises(calls) && Flatten(calls) == Stream(frames)
    ensures Feed([], calls) == Taken(frames, [], false)
  {
    StreamComesOut(frames, []);
    assert Stream(frames) + [] == Stream(frames) && frames + [] == frames;
    CutsDoNotMatter(calls);
  }

  // The sender does not check the receiver's limit: a frame that encodes arrives
  // exactly when its payload is within it.
  lemma FrameArrivesExactly(f: Frame)
    requires Encode(f).Some?
    ensures Feed([], [Call(Encode(f).value, None)]).frames == [f] <==> |f.payload| <= MAX_PAYLOAD_BYTES
  {
    var e := Encode(f).value;
    EncodedHead(f, []);
    FeedOne(e);
    assert e + [] == e;
    if Acceptable(f) {
      EncodedTake(f, []);
      EmptyIsIncomplete();
    }
    hide HeadOf;
  }

  lemma FeedOne(chunk: Bytes)
    ensures Feed([], [Call(chunk, None)]).frames == Take(chunk, None).frames
  {
    hide Take;
    var call := Call(chunk, None);
    assert [call][1..] == [] && [] + chunk == chunk;
    var first := Take(chunk, None);
    assert Feed(first.rest, []) == Taken([], first.rest, false);
    assert first.frames + [] == first.frames;
  }

  // ---- after an oversize header --------------------------------------------------------

  // The call that meets the first oversize header, if there is one.
  function FirstReject(buffer: Bytes, calls: seq<Call>): (k: nat)
    ensures k <= |calls|
    decreases calls
  {
    if calls == [] then 0
    else
      var first := Take(buffer + calls[0].chunk, calls[0].raisesAt);
      if first.oversize then 0 else 1 + FirstReject(first.rest, calls[1..])
  }

  // With an oversize header in the stream: up to it the frames depend on the
  // bytes alone; the rest of the chunk that completes it is discarded, and the
  // handler starts afresh with the next chunk.
  lemma {:induction false} OversizeDiscardsItsChunk(buffer: Bytes, calls: seq<Call>)
    requires NoneRaises(calls) && HeadOf(buffer).Incomplete? && Take(buffer + Flatten(calls), None).oversize
    ensures
      var k, whole := FirstReject(buffer, calls), Take(buffer + Flatten(calls), None);
      && k < |calls|
      && Feed(buffer, calls).frames == whole.frames + Feed([], calls[k + 1..]).frames
      && Feed(buffer, calls).oversize
    decreases calls
  {
    hide HeadOf, Take;
    IncompleteTakesNothing(buffer);
    assert calls == [] ==> buffer + Flatten(calls) == buffer;
    if calls != [] {
      var a, more := buffer + calls[0].chunk, Flatten(calls[1..]);
      assert buffer + Flatten(calls) == a + more;
      TakeThenMore(a, None, more);
      RestOfTake(a);
      var first := Take(a, None);
      if !first.oversize {
        OversizeDiscardsItsChunk(first.rest, calls[1..]);
        LaterReject(first, Take(first.rest + more, None), calls[1..], FirstReject(first.rest, calls[1..]));
      }
    }
  }

  lemma IncompleteTakesNothing(buffer: Bytes)
    requires HeadOf(buffer).Incomplete?
    ensures !Take(buffer, None).oversize
  {
  }

  lemma LaterReject(first: Taken, whole: Taken, calls: seq<Call>, k: nat)
    requires k < |calls| && Feed(first.rest, calls).frames == whole.frames + Feed([], calls[k + 1..]).frames
    ensures
      first.frames + Feed(first.rest, calls).frames
      == (first.frames + whole.frames) + Feed([], calls[k + 1..]).frames
  {
    hide Feed;
  }

  // Hence cuts do matter from there on: the frame behind an oversize header is
  // lost in one cutting and dispatched in another, for every such pair.
  lemma CutsMatterAfterOversize(header: Bytes, f: Frame)
    requires |header| == HEADER_SIZE && HeadOf(header).Oversize? && Acceptable(f)
    ensures Feed([], [Call(header + Encode(f).value, None)]).frames == []
    ensures Feed([], [Call(header, None), Call(Encode(f).value, None)]).frames == [f]
  {
    var e := Encode(f).value;
    HeadStable(header, e);
    FrameArrivesExactly(f);
    assert [] + (header + e) == header + e && [] + header == header;
    assert [Call(header, None), Call(e, None)][1..] == [Call(e, None)];
    assert [Call(header + e, None)][1..] == [];
  }

  // The loop of the handler has dispatched `frames` and `buffer` is left.
  predicate Pending(goal: Taken, frames: seq<Frame>, buffer: Bytes, left: Option<nat>) {
    var t := Take(buffer, left);
    goal == t.(frames := frames + t.frames)
  }

  lemma NothingDispatched(buffer: Bytes, left: Option<nat>)
    ensures Pending(Take(buffer, left), [], buffer, left)
  {
    hide Take;
    assert [] + Take(buffer, left).frames == Take(buffer, left).frames;
  }

  lemma NothingMore(goal: Taken, frames: seq<Frame>, buffer: Bytes, left: Option<nat>)
    requires Pending(goal, frames, buffer, left) && !HeadOf(buffer).Complete?
    ensures goal == if HeadOf(buffer).Oversize? then Taken(frames, [], true) else Taken(frames, buffer, false)
  {
    hide HeadOf;
    assert frames + [] == frames;
  }

  lemma OneMore(goal: Taken, frames: seq<Frame>, buffer: Bytes, left: Option<nat>)
    requires Pending(goal, frames, buffer, left) && HeadOf(buffer).Complete?
    ensures
      var h := HeadOf(buffer);
      if left == Some(0) then goal == Taken(frames + [h.frame], buffer[h.end..], false)
      else Pending(goal, frames + [h.frame], buffer[h.end..], if left.Some? then Some(left.value - 1) else None)
  {
    hide HeadOf;
    var h := HeadOf(buffer);
    if left != Some(0) {
      var t := Take(buffer[h.end..], if left.Some? then Some(left.value - 1) else None);
      assert frames + ([h.frame] + t.frames) == (frames + [h.frame]) + t.frames;
    }
  }

  // ---- the handler object ----------------------------------------------------------------

  class FramingHandler {
    var buffers: map<nat, Bytes>

    constructor ()
      ensures buffers == map[]
    {
      buffers := map[];
    }

    function BufferOf(connection: nat): Bytes
      reads this
    {
      if connection in buffers then buffers[connection] else []
    }

    method OnBytesReceived(connection: nat, data: Bytes, raisesAt: Option<nat>)
      returns (frames: seq<Frame>, oversize: bool)
      modifies this
      ensures
        var t := Take(old(BufferOf(connection)) + data, raisesAt);
        frames == t.frames && oversize == t.oversize && buffers == old(buffers)[connection := t.rest]
    {
      hide Take, Pending, Unpack;
      ghost var goal := Take(BufferOf(connection) + data, raisesAt);
      var buffer := BufferOf(connection) + data;
      var left := raisesAt;
      frames, oversize := [], false;
      NothingDispatched(buffer, left);
      while true
        invariant !oversize && Pending(goal, frames, buffer, left) && buffers == old(buffers)
        decreases |buffer|
      {
        if |buffer| < HEADER_SIZE {
          NothingMore(goal, frames, buffer, left);
          break;
        }
        var header := Unpack(buffer[..HEADER_SIZE]);
        if header.payloadLength > MAX_PAYLOAD_BYTES {
          NothingMore(goal, frames, buffer, left);
          buffer, oversize := [], true;
          break;
        }
        var frameEnd := HEADER_SIZE + header.payloadLength;
        if |buffer| < frameEnd {
          NothingMore(goal, frames, buffer, left);
          break;
        }
        OneMore(goal, frames, buffer, left);
        frames := frames + [Frame(header.typeId, buffer[HEADER_SIZE..frameEnd])];
        buffer := buffer[frameEnd..];
        if left == Some(0) {
          break;
        }
        left := if left.Some? then Some(left.value - 1) else None;
      }
      buffers := buffers[connection := buffer];
    }
  }
}
