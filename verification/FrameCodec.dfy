/** The wire form of protocol frames: a big-endian header of eight bytes and the payload. */
module FrameCodec {
  import opened Wrappers

  type Byte = x: nat | x < 0x100
  type U16 = x: nat | x < 0x1_0000
  type U32 = x: nat | x < 0x1_0000_0000
  type Bytes = seq<Byte>

  const MAX_PAYLOAD: nat := 64 * 1024 * 1024
  const HEADER_SIZE: nat := 8

  datatype Frame = Frame(messageType: U16, flags: U16, payload: Bytes)

  datatype FrameError = FrameLimit | ReservedFlags | TruncatedHeader | TruncatedPayload

  /** Bit 0 of the flags. */
  predicate MustUnderstand(f: Frame) {
    f.flags % 2 == 1
  }

  /** Bit 1 of the flags. */
  predicate HasTrailingRaw(f: Frame) {
    f.flags / 2 % 2 == 1
  }

  /** Only bits 0 and 1 are assigned. */
  predicate KnownFlags(flags: U16) {
    flags / 4 == 0
  }

  function CheckFrame(f: Frame): Option<FrameError> {
    if |f.payload| > MAX_PAYLOAD then Some(FrameLimit)
    else if !KnownFlags(f.flags) then Some(ReservedFlags)
    else None
  }

  predicate Legal(f: Frame) {
    CheckFrame(f).None?
  }

  function PutU16(n: U16): Bytes {
    [n / 0x100, n % 0x100]
  }

  function PutU32(n: U32): Bytes {
    PutU16(n / 0x1_0000) + PutU16(n % 0x1_0000)
  }

  function GetU16(b: Bytes): U16
    requires |b| >= 2
  {
    b[0] as int * 0x100 + b[1]
  }

  function GetU32(b: Bytes): U32
    requires |b| >= 4
  {
    GetU16(b) as int * 0x1_0000 + GetU16(b[2..])
  }

  lemma U16RoundTrips(n: U16, b: Bytes)
    ensures GetU16(PutU16(n)) == n
    ensures |b| >= 2 ==> PutU16(GetU16(b)) == b[..2]
  {
  }

  lemma U32RoundTrips(n: U32, b: Bytes)
    ensures GetU32(PutU32(n)) == n
    ensures |b| >= 4 ==> PutU32(GetU32(b)) == b[..4]
  {
    var high, low := n / 0x1_0000, n % 0x1_0000;
    U16RoundTrips(high, b);
    U16RoundTrips(low, if |b| >= 2 then b[2..] else b);
    hide PutU16;
    assert PutU32(n)[2..] == PutU16(low) by {
      TwoBytes(high);
    }
    assert GetU16(PutU32(n)) == GetU16(PutU16(high)) by {
      TwoBytes(high);
    }
    if |b| >= 4 {
      assert b[..4] == b[..2] + b[2..][..2];
      Halves(GetU16(b), GetU16(b[2..]));
    }
  }

  lemma TwoBytes(n: U16)
    ensures |PutU16(n)| == 2
  {
  }

  lemma Halves(high: U16, low: U16)
    ensures (high as int * 0x1_0000 + low) / 0x1_0000 == high && (high as int * 0x1_0000 + low) % 0x1_0000 == low
  {
  }

  function Wire(f: Frame): Bytes
    requires Legal(f)
  {
    PutU32(|f.payload|) + PutU16(f.messageType) + PutU16(f.flags) + f.payload
  }

  /** The number that four bytes spell, most significant first. */
  function BigEndian(b: Bytes): nat
    requires |b| == 4
  {
    b[0] as int * 0x100_0000 + b[1] as int * 0x1_0000 + b[2] as int * 0x100 + b[3]
  }

  lemma LengthFirst(n: U32)
    ensures |PutU32(n)| == 4 && BigEndian(PutU32(n)) == n
  {
  }

  lemma ShortFirst(n: U16)
    ensures |PutU16(n)| == 2 && PutU16(n)[0] as int * 0x100 + PutU16(n)[1] == n
  {
  }

  /** Where each field stands in the bytes of a frame. */
  lemma WireFields(f: Frame)
    requires Legal(f)
    ensures var b := Wire(f);
      && |b| == 8 + |f.payload| && BigEndian(b[..4]) == |f.payload|
      && b[4] as int * 0x100 + b[5] == f.messageType && b[6] as int * 0x100 + b[7] == f.flags
      && b[8..] == f.payload
  {
    LengthFirst(|f.payload|);
    ShortFirst(f.messageType);
    ShortFirst(f.flags);
    hide PutU32, PutU16, BigEndian;
    var n, t, g := PutU32(|f.payload|), PutU16(f.messageType), PutU16(f.flags);
    var b := Wire(f);
    assert b == n + t + g + f.payload;
    assert b[..4] == n && b[4] == t[0] && b[5] == t[1] && b[6] == g[0] && b[7] == g[1] && b[8..] == f.payload;
  }

  /** A frame of at most 64 MiB with no unassigned flag is its header, big-endian, and its payload. */
  function EncodeFrame(f: Frame): (r: Result<Bytes, FrameError>)
    ensures r.Ok? <==> |f.payload| <= 0x400_0000 && f.flags < 4
    ensures r == Err(FrameLimit) <==> |f.payload| > 0x400_0000
    ensures r.Ok? ==>
      var b := r.value;
      && |b| == 8 + |f.payload| && BigEndian(b[..4]) == |f.payload|
      && b[4] as int * 0x100 + b[5] == f.messageType && b[6] as int * 0x100 + b[7] == f.flags
      && b[8..] == f.payload
  {
    var e := CheckFrame(f);
    if e.Some? then Err(e.value)
    else
      WireFields(f);
      Ok(Wire(f))
  }

  /** The first frame of a text of at least a header, checked field by field. */
  function DecodeFirst(b: Bytes): (r: Result<Frame, FrameError>)
    ensures r.Ok? ==> Legal(r.value) && HEADER_SIZE + |r.value.payload| <= |b|
  {
    if |b| < HEADER_SIZE then Err(TruncatedHeader)
    else
      var n, flags := GetU32(b), GetU16(b[6..]);
      if n > MAX_PAYLOAD then Err(FrameLimit)
      else if !KnownFlags(flags) then Err(ReservedFlags)
      else if |b| - HEADER_SIZE < n then Err(TruncatedPayload)
      else Ok(Frame(GetU16(b[4..]), flags, b[HEADER_SIZE..HEADER_SIZE + n]))
  }

  function Decode(b: Bytes): Result<seq<Frame>, FrameError>
    decreases |b|
  {
    if b == [] then Ok([])
    else
      var first := DecodeFirst(b);
      if first.Err? then Err(first.error)
      else
        var rest := Decode(b[HEADER_SIZE + |first.value.payload|..]);
        if rest.Err? then rest else Ok([first.value] + rest.value)
  }

  method DecodeFrames(b: Bytes) returns (r: Result<seq<Frame>, FrameError>)
    ensures r == Decode(b)
  {
    var frames: seq<Frame> := [];
    var offset := 0;
    assert b[0..] == b;
    NoneBefore(Decode(b));
    while offset < |b|
      invariant offset <= |b|
      invariant Decode(b) == Before(frames, Decode(b[offset..]))
    {
      ghost var here := b[offset..];
      Headers(b, offset);
      hide *;
      if |b| - offset < HEADER_SIZE {
        return Err(TruncatedHeader);
      }
      var n, messageType, flags := GetU32(b[offset..]), GetU16(b[offset + 4..]), GetU16(b[offset + 6..]);
      if n > MAX_PAYLOAD {
        return Err(FrameLimit);
      }
      if !KnownFlags(flags) {
        return Err(ReservedFlags);
      }
      offset := offset + HEADER_SIZE;
      if |b| - offset < n {
        return Err(TruncatedPayload);
      }
      var frame := Frame(messageType, flags, b[offset..offset + n]);
      offset := offset + n;
      OneMore(frames, frame, Decode(b[offset..]));
      frames := frames + [frame];
    }
    assert b[offset..] == [] && frames + [] == frames;
    return Ok(frames);
  }

  function Before(frames: seq<Frame>, r: Result<seq<Frame>, FrameError>): Result<seq<Frame>, FrameError> {
    if r.Err? then r else Ok(frames + r.value)
  }

  lemma NoneBefore(r: Result<seq<Frame>, FrameError>)
    ensures Before([], r) == r
  {
    if r.Ok? {
      assert [] + r.value == r.value;
    }
  }

  lemma OneMore(frames: seq<Frame>, f: Frame, r: Result<seq<Frame>, FrameError>)
    ensures Before(frames, Before([f], r)) == Before(frames + [f], r)
  {
    if r.Ok? {
      assert frames + ([f] + r.value) == frames + [f] + r.value;
    }
  }

  /** The first frame at an offset, field by field. */
  lemma FirstAt(b: Bytes, offset: nat)
    requires offset + HEADER_SIZE <= |b|
    ensures var n, messageType, flags := GetU32(b[offset..]), GetU16(b[offset + 4..]), GetU16(b[offset + 6..]);
      var start := offset + HEADER_SIZE;
      DecodeFirst(b[offset..]) ==
        if n > MAX_PAYLOAD then Err(FrameLimit)
        else if !KnownFlags(flags) then Err(ReservedFlags)
        else if |b| - start < n then Err(TruncatedPayload)
        else Ok(Frame(messageType, flags, b[start..start + n]))
  {
    var here := b[offset..];
    hide GetU32, GetU16, KnownFlags;
    assert here[4..] == b[offset + 4..] && here[6..] == b[offset + 6..];
    var n := GetU32(here);
    if n <= |here| - HEADER_SIZE {
      assert here[HEADER_SIZE..HEADER_SIZE + n] == b[offset + HEADER_SIZE..offset + HEADER_SIZE + n];
    }
  }

  /** Decoding takes the first frame and goes on behind it. */
  lemma DecodeStep(b: Bytes, offset: nat)
    requires offset < |b|
    ensures var first := DecodeFirst(b[offset..]);
      Decode(b[offset..]) ==
        if first.Err? then Err(first.error)
        else Before([first.value], Decode(b[offset + HEADER_SIZE + |first.value.payload|..]))
  {
    var here := b[offset..];
    var first := DecodeFirst(here);
    if first.Ok? {
      assert here[HEADER_SIZE + |first.value.payload|..] == b[offset + HEADER_SIZE + |first.value.payload|..];
    }
    hide DecodeFirst;
  }

  lemma Headers(b: Bytes, offset: nat)
    requires offset < |b|
    ensures forall frames, e :: Before(frames, Err(e)) == Err(e)
    ensures |b| - offset < HEADER_SIZE ==> Decode(b[offset..]) == Err(TruncatedHeader)
    ensures |b| - offset >= HEADER_SIZE ==>
      var n, messageType, flags := GetU32(b[offset..]), GetU16(b[offset + 4..]), GetU16(b[offset + 6..]);
      var start := offset + HEADER_SIZE;
      Decode(b[offset..]) ==
        if n > MAX_PAYLOAD then Err(FrameLimit)
        else if !KnownFlags(flags) then Err(ReservedFlags)
        else if |b| - start < n then Err(TruncatedPayload)
        else Before([Frame(messageType, flags, b[start..start + n])], Decode(b[start + n..]))
  {
    hide GetU32, GetU16, KnownFlags, DecodeFirst, Decode;
    DecodeStep(b, offset);
    if |b| - offset >= HEADER_SIZE {
      FirstAt(b, offset);
    } else {
      ShortHeader(b[offset..]);
    }
  }

  lemma ShortHeader(b: Bytes)
    requires |b| < HEADER_SIZE
    ensures DecodeFirst(b) == Err(TruncatedHeader)
  {
  }

  // ---------------------------------------------------------------- round trips

  ghost predicate AllLegal(frames: seq<Frame>) {
    forall i :: 0 <= i < |frames| ==> Legal(frames[i])
  }

  function WireAll(frames: seq<Frame>): Bytes
    requires AllLegal(frames)
  {
    if frames == [] then [] else Wire(frames[0]) + WireAll(frames[1..])
  }

  /** The first frame can be read off whatever follows it, and only that frame. */
  lemma FirstReadsBack(f: Frame, rest: Bytes)
    requires Legal(f)
    ensures DecodeFirst(Wire(f) + rest) == Ok(f)
    ensures (Wire(f) + rest)[HEADER_SIZE + |f.payload|..] == rest
  {
    var b := Wire(f) + rest;
    assert b[..4] == PutU32(|f.payload|);
    assert b[4..][..2] == PutU16(f.messageType);
    assert b[6..][..2] == PutU16(f.flags);
    U32RoundTrips(|f.payload|, b);
    U16RoundTrips(f.messageType, b[4..]);
    U16RoundTrips(f.flags, b[6..]);
    assert GetU32(b) == GetU32(b[..4]) && GetU16(b[4..]) == GetU16(b[4..][..2])
        && GetU16(b[6..]) == GetU16(b[6..][..2]);
    assert b[HEADER_SIZE..HEADER_SIZE + |f.payload|] == f.payload;
  }

  lemma DecodeOne(f: Frame, rest: Bytes)
    requires Legal(f)
    ensures Decode(Wire(f) + rest) == Before([f], Decode(rest))
  {
    FirstReadsBack(f, rest);
    hide DecodeFirst, Wire, Legal;
    assert Wire(f) + rest != [] by {
      WireSize(f);
    }
  }

  lemma WireSize(f: Frame)
    requires Legal(f)
    ensures |Wire(f)| == HEADER_SIZE + |f.payload|
  {
  }

  lemma WireAllStarts(frames: seq<Frame>)
    requires frames != [] && AllLegal(frames)
    ensures Legal(frames[0]) && AllLegal(frames[1..])
    ensures WireAll(frames) == Wire(frames[0]) + WireAll(frames[1..])
  {
    hide Legal, Wire;
  }

  lemma JoinFirst(frames: seq<Frame>)
    requires frames != []
    ensures Before([frames[0]], Ok(frames[1..])) == Ok(frames)
  {
    assert [frames[0]] + frames[1..] == frames;
  }

  /** Decoding the concatenation of encoded frames gives the frames back. */
  lemma {:induction false} DecodeEncoded(frames: seq<Frame>)
    requires AllLegal(frames)
    ensures Decode(WireAll(frames)) == Ok(frames)
  {
    if frames != [] {
      WireAllStarts(frames);
      hide *;
      DecodeOne(frames[0], WireAll(frames[1..]));
      DecodeEncoded(frames[1..]);
      JoinFirst(frames);
    }
  }

  lemma FirstWritesBack(b: Bytes)
    requires DecodeFirst(b).Ok?
    ensures var f := DecodeFirst(b).value; Wire(f) == b[..HEADER_SIZE + |f.payload|]
  {
    var f := DecodeFirst(b).value;
    U32RoundTrips(0, b);
    U16RoundTrips(0, b[4..]);
    U16RoundTrips(0, b[6..]);
    assert b[4..][..2] == b[4..6] && b[6..][..2] == b[6..8];
    hide GetU32, GetU16, PutU32, PutU16;
    assert b[..HEADER_SIZE + |f.payload|] == b[..4] + b[4..6] + b[6..8] + b[HEADER_SIZE..HEADER_SIZE + |f.payload|];
  }

  /** Re-encoding accepted bytes gives the bytes back: every frame has one wire form. */
  lemma {:induction false} EncodeDecoded(b: Bytes)
    requires Decode(b).Ok?
    ensures AllLegal(Decode(b).value) && WireAll(Decode(b).value) == b
    decreases |b|
  {
    hide DecodeFirst, Wire, CheckFrame;
    if b != [] {
      var f := DecodeFirst(b).value;
      var rest := b[HEADER_SIZE + |f.payload|..];
      EncodeDecoded(rest);
      FirstWritesBack(b);
      assert Decode(b).value[1..] == Decode(rest).value;
      assert b == b[..HEADER_SIZE + |f.payload|] + rest;
    }
  }

  lemma {:induction false} DecodeAfter(frames: seq<Frame>, rest: Bytes)
    requires AllLegal(frames)
    ensures Decode(WireAll(frames) + rest).Ok? <==> Decode(rest).Ok?
    ensures Decode(WireAll(frames) + rest).Err? ==> Decode(WireAll(frames) + rest) == Err(Decode(rest).error)
  {
    if frames == [] {
      assert WireAll(frames) + rest == rest;
    } else {
      hide Wire, Decode, Legal;
      var more := WireAll(frames[1..]) + rest;
      assert WireAll(frames) + rest == Wire(frames[0]) + more;
      DecodeOne(frames[0], more);
      DecodeAfter(frames[1..], rest);
    }
  }

  /** Every cut inside a frame is rejected as a truncation, whatever frames came before. */
  lemma CutsAreRejected(frames: seq<Frame>, f: Frame, n: nat)
    requires AllLegal(frames) && Legal(f) && 0 < n < |Wire(f)|
    ensures Decode(WireAll(frames) + Wire(f)[..n])
         == Err(if n < HEADER_SIZE then TruncatedHeader else TruncatedPayload)
  {
    var cut := Wire(f)[..n];
    DecodeAfter(frames, cut);
    CutFails(f, n);
    hide DecodeFirst, Wire, WireAll;
  }

  lemma CutFails(f: Frame, n: nat)
    requires Legal(f) && 0 < n < |Wire(f)|
    ensures DecodeFirst(Wire(f)[..n]) == Err(if n < HEADER_SIZE then TruncatedHeader else TruncatedPayload)
  {
    if n >= HEADER_SIZE {
      var b := Wire(f) + [];
      FirstReadsBack(f, []);
      assert b == Wire(f);
      hide Wire, KnownFlags;
      SameHeader(b, n);
    }
  }

  /** The header of a text is in its first eight bytes. */
  lemma SameHeader(b: Bytes, n: nat)
    requires HEADER_SIZE <= n <= |b|
    ensures GetU32(b[..n]) == GetU32(b)
    ensures GetU16(b[..n][4..]) == GetU16(b[4..]) && GetU16(b[..n][6..]) == GetU16(b[6..])
  {
  }
}
