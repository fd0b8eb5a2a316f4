/**
 The wire format: a tag byte, the body length as four big-endian bytes, the body.
 Decoding does not depend on how the bytes arrive, and it inverts encoding exactly
 on bodies that fit the size limit.
 */
module Framing {
  import opened Core

  newtype Byte = x: int | 0 <= x < 256

  const HEADER_LEN: nat := 5
  const MAX_FRAME_SIZE: nat := 16 * 1024 * 1024
  const U32_RANGE: nat := 0x1_0000_0000

  datatype FrameTag =
    | Startup | Auth | DefineMachine | Transition | Current | History
    | Subscribe | Ack | Unsubscribe | Ping | Terminate
    | Ready | AuthOk | AuthError | Result | Rejection | ChangeRecord | Notice | Error | Pong

  datatype Frame = Frame(tag: FrameTag, body: seq<Byte>)

  datatype ProtoError = FrameTooLarge(size: nat, max: nat) | InvalidFrameType(byte: Byte)

  // ---- Tags ----------------------------------------------------------------------

  function TagByte(tag: FrameTag): Byte {
    match tag
    case Startup => 0x01
    case Auth => 0x02
    case DefineMachine => 0x10
    case Transition => 0x11
    case Current => 0x12
    case History => 0x13
    case Subscribe => 0x20
    case Ack => 0x21
    case Unsubscribe => 0x22
    case Ping => 0x30
    case Terminate => 0x31
    case Ready => 0x80
    case AuthOk => 0x81
    case AuthError => 0x82
    case Result => 0x90
    case Rejection => 0x91
    case ChangeRecord => 0xA0
    case Notice => 0xB0
    case Error => 0xB1
    case Pong => 0xC0
  }

  /// The tag with a given byte, if there is one.
  function TagOf(b: Byte): Option<FrameTag> {
    match b
    case 0x01 => Some(Startup)
    case 0x02 => Some(Auth)
    case 0x10 => Some(DefineMachine)
    case 0x11 => Some(Transition)
    case 0x12 => Some(Current)
    case 0x13 => Some(History)
    case 0x20 => Some(Subscribe)
    case 0x21 => Some(Ack)
    case 0x22 => Some(Unsubscribe)
    case 0x30 => Some(Ping)
    case 0x31 => Some(Terminate)
    case 0x80 => Some(Ready)
    case 0x81 => Some(AuthOk)
    case 0x82 => Some(AuthError)
    case 0x90 => Some(Result)
    case 0x91 => Some(Rejection)
    case 0xA0 => Some(FrameTag.ChangeRecord)
    case 0xB0 => Some(Notice)
    case 0xB1 => Some(Error)
    case 0xC0 => Some(Pong)
    case _ => None
  }

  lemma TagsInvert(b: Byte, tag: FrameTag)
    ensures TagOf(b) == Some(tag) <==> TagByte(tag) == b
  {
  }

  // ---- Lengths -------------------------------------------------------------------

  function BigEndian(n: nat, width: nat): (r: seq<Byte>)
    ensures |r| == width
  {
    if width == 0 then [] else BigEndian(n / 256, width - 1) + [(n % 256) as Byte]
  }

  function FromBigEndian(b: seq<Byte>): nat {
    if b == [] then 0 else FromBigEndian(b[..|b| - 1]) * 256 + b[|b| - 1] as nat
  }

  function Range(width: nat): nat {
    if width == 0 then 1 else 256 * Range(width - 1)
  }

  lemma {:induction false} LengthRoundTrip(n: nat, width: nat)
    requires n < Range(width)
    ensures FromBigEndian(BigEndian(n, width)) == n
  {
    if width > 0 {
      LengthRoundTrip(n / 256, width - 1);
      assert BigEndian(n, width)[..width - 1] == BigEndian(n / 256, width - 1);
    }
  }

  lemma {:induction false} BytesRoundTrip(b: seq<Byte>)
    ensures FromBigEndian(b) < Range(|b|) && BigEndian(FromBigEndian(b), |b|) == b
  {
    if b != [] {
      var front, last := b[..|b| - 1], b[|b| - 1];
      BytesRoundTrip(front);
      assert FromBigEndian(b) / 256 == FromBigEndian(front) && FromBigEndian(b) % 256 == last as nat;
      assert front + [last] == b;
    }
  }

  /// The length field holds its most significant byte first.
  lemma LengthField(b: seq<Byte>)
    requires |b| == 4
    ensures FromBigEndian(b) == b[0] as nat * 0x100_0000 + b[1] as nat * 0x1_0000 + b[2] as nat * 0x100 + b[3] as nat
  {
    var x, y, z := b[..1], b[..2], b[..3];
    assert x[..0] == [] && y[..1] == x && z[..2] == y && b[..|b| - 1] == z;
    assert FromBigEndian(x) == b[0] as nat;
    assert FromBigEndian(y) == b[0] as nat * 0x100 + b[1] as nat;
    assert FromBigEndian(z) == b[0] as nat * 0x1_0000 + b[1] as nat * 0x100 + b[2] as nat;
  }

  lemma FourBytes()
    ensures Range(4) == U32_RANGE
  {
    assert Range(1) == 0x100 && Range(2) == 0x1_0000;
  }

  // ---- One frame -----------------------------------------------------------------

  /// The bytes of a frame. The length field holds the body length modulo 2^32.
  function Encoded(f: Frame): seq<Byte> {
    [TagByte(f.tag)] + BigEndian(|f.body| % U32_RANGE, 4) + f.body
  }

  datatype Step = NeedMore | Bad(error: ProtoError) | Got(frame: Frame, rest: seq<Byte>)

  /// What the decoder makes of the bytes at hand.
  function Next(src: seq<Byte>): Step {
    if |src| < HEADER_LEN then NeedMore
    else
      var size := FromBigEndian(src[1..HEADER_LEN]);
      if size > MAX_FRAME_SIZE then Bad(FrameTooLarge(size, MAX_FRAME_SIZE))
      else if |src| < HEADER_LEN + size then NeedMore
      else
        match TagOf(src[0])
        case None => Bad(InvalidFrameType(src[0]))
        case Some(tag) => Got(Frame(tag, src[HEADER_LEN..HEADER_LEN + size]), src[HEADER_LEN + size..])
  }

  lemma EncodedShape(f: Frame, more: seq<Byte>)
    ensures var src := Encoded(f) + more;
            && |src| == HEADER_LEN + |f.body| + |more| && src[0] == TagByte(f.tag)
            && src[1..HEADER_LEN] == BigEndian(|f.body| % U32_RANGE, 4)
            && FromBigEndian(src[1..HEADER_LEN]) == |f.body| % U32_RANGE
            && src[HEADER_LEN..HEADER_LEN + |f.body|] == f.body && src[HEADER_LEN + |f.body|..] == more
  {
    FourBytes();
    LengthRoundTrip(|f.body| % U32_RANGE, 4);
    assert (Encoded(f) + more)[1..HEADER_LEN] == BigEndian(|f.body| % U32_RANGE, 4);
  }

  lemma EncodedDecodes(f: Frame, rest: seq<Byte>)
    requires |f.body| <= MAX_FRAME_SIZE
    ensures Next(Encoded(f) + rest) == Got(f, rest)
  {
    EncodedShape(f, rest);
    TagsInvert(TagByte(f.tag), f.tag);
  }

  lemma DecodedWasEncoded(src: seq<Byte>, f: Frame, rest: seq<Byte>)
    requires Next(src) == Got(f, rest)
    ensures src == Encoded(f) + rest && |f.body| <= MAX_FRAME_SIZE
  {
    TagsInvert(src[0], f.tag);
    BytesRoundTrip(src[1..HEADER_LEN]);
    assert |f.body| == FromBigEndian(src[1..HEADER_LEN]) == |f.body| % U32_RANGE;
    FourParts(src, HEADER_LEN + |f.body|);
  }

  lemma FourParts(src: seq<Byte>, n: nat)
    requires HEADER_LEN <= n <= |src|
    ensures src == [src[0]] + src[1..HEADER_LEN] + src[HEADER_LEN..n] + src[n..]
  {
  }

  /// A frame is decoded from exactly its own encoding, and only if its body fits.
  lemma NextInvertsEncoded(src: seq<Byte>, f: Frame, rest: seq<Byte>)
    ensures Next(src) == Got(f, rest) <==> src == Encoded(f) + rest && |f.body| <= MAX_FRAME_SIZE
  {
    if |f.body| <= MAX_FRAME_SIZE {
      EncodedDecodes(f, rest);
    }
    if Next(src) == Got(f, rest) {
      DecodedWasEncoded(src, f, rest);
    }
  }

  /// The decoder asks for more bytes exactly while the header is incomplete, or announces
  /// a body that fits and is incomplete. It stops exactly at a length beyond the limit,
  /// or at a complete body under a byte that no tag has.
  lemma NextDecides(src: seq<Byte>)
    ensures Next(src).NeedMore? <==>
              |src| < 5 || (FromBigEndian(src[1..5]) <= MAX_FRAME_SIZE && |src| < 5 + FromBigEndian(src[1..5]))
    ensures forall e :: Next(src) == Bad(e) <==>
              |src| >= 5 && var size := FromBigEndian(src[1..5]);
                            || (size > MAX_FRAME_SIZE && e == FrameTooLarge(size, MAX_FRAME_SIZE))
                            || (size <= MAX_FRAME_SIZE && |src| >= 5 + size
                                && (forall tag :: TagByte(tag) != src[0]) && e == InvalidFrameType(src[0]))
  {
    if |src| >= 5 {
      UnknownByte(src[0]);
    }
  }

  lemma UnknownByte(b: Byte)
    ensures TagOf(b).None? <==> forall tag :: TagByte(tag) != b
  {
    forall tag
      ensures TagOf(b) == Some(tag) <==> TagByte(tag) == b
    {
      TagsInvert(b, tag);
    }
  }

  /// More bytes never change a decision already made.
  lemma NextIsStable(src: seq<Byte>, more: seq<Byte>)
    ensures match Next(src)
            case NeedMore => true
            case Bad(e) => Next(src + more) == Bad(e)
            case Got(f, rest) => Next(src + more) == Got(f, rest + more)
  {
    if |src| >= HEADER_LEN {
      assert (src + more)[1..HEADER_LEN] == src[1..HEADER_LEN];
    }
  }

  // ---- Whole streams -------------------------------------------------------------

  /// What a stream of bytes amounts to: the frames decoded, the bytes left over and
  /// the error decoding stopped at.
  datatype Reading = Reading(frames: seq<Frame>, rest: seq<Byte>, error: Option<ProtoError>)

  function Prepend(fs: seq<Frame>, r: Reading): Reading {
    r.(frames := fs + r.frames)
  }

  function Decoded(src: seq<Byte>): Reading
    decreases |src|
  {
    match Next(src)
    case NeedMore => Reading([], src, None)
    case Bad(e) => Reading([], src, Some(e))
    case Got(f, rest) => Prepend([f], Decoded(rest))
  }

  function Encodings(fs: seq<Frame>): seq<Byte> {
    if fs == [] then [] else Encoded(fs[0]) + Encodings(fs[1..])
  }

  predicate Fits(fs: seq<Frame>) {
    forall i :: 0 <= i < |fs| ==> |fs[i].body| <= MAX_FRAME_SIZE
  }

  /// A chunk arrives. Nothing is read after an error.
  function Feed(r: Reading, chunk: seq<Byte>): Reading {
    if r.error.Some? then r
    else Prepend(r.frames, Decoded(r.rest + chunk))
  }

  function FeedAll(chunks: seq<seq<Byte>>): Reading {
    if chunks == [] then Reading([], [], None)
    else Feed(FeedAll(chunks[..|chunks| - 1]), chunks[|chunks| - 1])
  }

  function Joined(chunks: seq<seq<Byte>>): seq<Byte> {
    if chunks == [] then [] else Joined(chunks[..|chunks| - 1]) + chunks[|chunks| - 1]
  }

  lemma DecodedGot(f: Frame, rest: seq<Byte>)
    requires |f.body| <= MAX_FRAME_SIZE
    ensures Decoded(Encoded(f) + rest) == Prepend([f], Decoded(rest))
  {
    EncodedDecodes(f, rest);
  }

  lemma PrependTwice(fs: seq<Frame>, gs: seq<Frame>, r: Reading)
    ensures Prepend(fs, Prepend(gs, r)) == Prepend(fs + gs, r) && Prepend([], r) == r
  {
    assert fs + (gs + r.frames) == (fs + gs) + r.frames;
    assert [] + r.frames == r.frames;
  }

  /// Decoding a stream that goes on picks up from the bytes left over.
  ghost predicate Resumes(r: Reading, whole: Reading, b: seq<Byte>) {
    if r.error.Some? then whole.frames == r.frames && whole.error == r.error
    else whole == Feed(r, b)
  }

  lemma ResumesAfter(f: Frame, r: Reading, whole: Reading, b: seq<Byte>)
    requires Resumes(r, whole, b)
    ensures Resumes(Prepend([f], r), Prepend([f], whole), b)
  {
    PrependTwice([f], r.frames, Decoded(r.rest + b));
  }

  lemma {:induction false} DecodingResumes(a: seq<Byte>, b: seq<Byte>)
    ensures Resumes(Decoded(a), Decoded(a + b), b)
    decreases |a|
  {
    NextIsStable(a, b);
    match Next(a)
    case NeedMore => PrependTwice([], [], Decoded(a + b));
    case Bad(_) =>
    case Got(f, rest) =>
      DecodingResumes(rest, b);
      ResumesAfter(f, Decoded(rest), Decoded(rest + b), b);
  }

  /// For every byte stream and every way of cutting it up, reading chunk by chunk
  /// gives the frames and the first error of reading it whole.
  lemma {:induction false} ChunkingIsIrrelevant(chunks: seq<seq<Byte>>)
    ensures var r, whole := FeedAll(chunks), Decoded(Joined(chunks));
            && r.frames == whole.frames && r.error == whole.error
            && (r.error.None? ==> r.rest == whole.rest)
  {
    if chunks != [] {
      var before, last := chunks[..|chunks| - 1], chunks[|chunks| - 1];
      ChunkingIsIrrelevant(before);
      DecodingResumes(Joined(before), last);
    }
  }

  lemma {:induction false} FittingRoundTrip(fs: seq<Frame>, more: seq<Byte>)
    requires Fits(fs)
    ensures Decoded(Encodings(fs) + more) == Prepend(fs, Decoded(more))
  {
    if fs == [] {
      assert Encodings(fs) + more == more;
      PrependTwice([], [], Decoded(more));
    } else {
      FittingRoundTrip(fs[1..], more);
      assert Encodings(fs) + more == Encoded(fs[0]) + (Encodings(fs[1..]) + more);
      DecodedGot(fs[0], Encodings(fs[1..]) + more);
      PrependTwice([fs[0]], fs[1..], Decoded(more));
      assert [fs[0]] + fs[1..] == fs;
    }
  }

  lemma {:induction false} DecodedFits(src: seq<Byte>)
    ensures Fits(Decoded(src).frames)
    decreases |src|
  {
    match Next(src)
    case NeedMore =>
    case Bad(_) =>
    case Got(_, rest) => DecodedFits(rest);
  }

  /// Decoding the encodings of a list of frames returns the list, with no byte left
  /// over and no error, exactly when every body fits.
  lemma RoundTrip(fs: seq<Frame>)
    ensures Decoded(Encodings(fs)) == Reading(fs, [], None) <==> Fits(fs)
  {
    if Fits(fs) {
      FittingRoundTrip(fs, []);
      assert Encodings(fs) + [] == Encodings(fs) && fs + [] == fs;
    }
    DecodedFits(Encodings(fs));
  }

  lemma OversizeRefused(f: Frame, more: seq<Byte>)
    requires MAX_FRAME_SIZE < |f.body| < U32_RANGE
    ensures Next(Encoded(f) + more) == Bad(FrameTooLarge(|f.body|, MAX_FRAME_SIZE))
  {
    EncodedShape(f, more);
  }

  /// The encoder does not check the limit: what it writes for a larger body below
  /// 2^32 bytes stops the peer's decoder there, whatever follows.
  lemma OversizeStops(fs: seq<Frame>, f: Frame, more: seq<Byte>)
    requires Fits(fs) && MAX_FRAME_SIZE < |f.body| < U32_RANGE
    ensures var r := Decoded(Encodings(fs) + (Encoded(f) + more));
            r.frames == fs && r.error == Some(FrameTooLarge(|f.body|, MAX_FRAME_SIZE))
  {
    FittingRoundTrip(fs, Encoded(f) + more);
    OversizeRefused(f, more);
    assert fs + [] == fs;
  }

  // ---- The codec on buffers ---------------------------------------------------------

  class ByteBuffer {
    var data: seq<Byte>

    constructor ()
      ensures data == []
    {
      data := [];
    }

    method PutU8(b: Byte)
      modifies this
      ensures data == old(data) + [b]
    {
      data := data + [b];
    }

    method PutU32(n: nat)
      requires n < U32_RANGE
      modifies this
      ensures data == old(data) + BigEndian(n, 4)
    {
      data := data + BigEndian(n, 4);
    }

    method Put(bytes: seq<Byte>)
      modifies this
      ensures data == old(data) + bytes
    {
      data := data + bytes;
    }

    method Advance(n: nat)
      requires n <= |data|
      modifies this
      ensures data == old(data)[n..]
    {
      data := data[n..];
    }

    method SplitTo(n: nat) returns (front: seq<Byte>)
      requires n <= |data|
      modifies this
      ensures front == old(data)[..n] && data == old(data)[n..]
    {
      front := data[..n];
      data := data[n..];
    }
  }

  /// A frame is taken off the front of the buffer; in every other case the buffer
  /// stays as it is.
  method Decode(src: ByteBuffer) returns (r: Core.Result<Option<Frame>, ProtoError>)
    modifies src
    ensures match Next(old(src.data))
            case NeedMore => r == Ok(None) && src.data == old(src.data)
            case Bad(e) => r == Err(e) && src.data == old(src.data)
            case Got(f, rest) => r == Ok(Some(f)) && src.data == rest
    ensures r.Ok? && r.value.Some? ==> old(src.data) == Encoded(r.value.value) + src.data
  {
    if |src.data| < HEADER_LEN {
      return Ok(None);
    }
    ghost var start := src.data;
    var tagByte := src.data[0];
    var size := FromBigEndian(src.data[1..HEADER_LEN]);
    if size > MAX_FRAME_SIZE {
      return Err(FrameTooLarge(size, MAX_FRAME_SIZE));
    }
    if |src.data| < HEADER_LEN + size {
      return Ok(None);
    }
    var tag := TagOf(tagByte);
    if tag.None? {
      return Err(InvalidFrameType(tagByte));
    }
    src.Advance(HEADER_LEN);
    var body := src.SplitTo(size);
    assert body == start[HEADER_LEN..HEADER_LEN + size];
    DecodedWasEncoded(start, Frame(tag.value, body), src.data);
    return Ok(Some(Frame(tag.value, body)));
  }

  method Encode(frame: Frame, dst: ByteBuffer)
    modifies dst
    ensures dst.data == old(dst.data) + Encoded(frame)
  {
    dst.PutU8(TagByte(frame.tag));
    dst.PutU32(|frame.body| % U32_RANGE);
    dst.Put(frame.body);
    assert dst.data == old(dst.data) + Encoded(frame);
  }

  /// Takes every complete frame off the buffer, up to the first error.
  method DecodeAvailable(src: ByteBuffer) returns (frames: seq<Frame>, error: Option<ProtoError>)
    modifies src
    ensures Reading(frames, src.data, error) == Decoded(old(src.data))
  {
    frames, error := [], None;
    while true
      invariant error.None?
      invariant Decoded(old(src.data)) == Prepend(frames, Decoded(src.data))
      decreases |src.data|
    {
      var r := Decode(src);
      match r
      case Err(e) =>
        assert frames + [] == frames;
        return frames, Some(e);
      case Ok(None) =>
        assert frames + [] == frames;
        return frames, None;
      case Ok(Some(f)) =>
        PrependTwice(frames, [f], Decoded(src.data));
        frames := frames + [f];
    }
  }
}
