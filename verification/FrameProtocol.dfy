/** The infrared frame protocol: cbridge/auth-capture-helper.c writes frames as a
    44-byte little-endian header and a luma plane, through pipes that split the
    bytes anywhere; scripts/ir/sp7_ir_protocol.py reads them back. */
module FrameProtocol {
  import opened Common
  import opened IrCapture

  type byte = b: int | 0 <= b < 256

  const MAGIC: seq<byte> := [0x53, 0x50, 0x37, 0x49, 0x52, 0x46, 0x30, 0x31]
  const VERSION := 1
  const WIDTH := 640
  const HEIGHT := 480
  const PAYLOAD := 307200
  const HEADER_BYTES := 44
  const FRAME_BYTES := HEADER_BYTES + PAYLOAD
  const MAX_FRAME_AGE := 2_000_000_000

  datatype Image = Image(stamp: Stamp, luma: seq<byte>)

  // ---------------------------------------------------------------- little-endian numbers

  function Le(value: nat, n: nat): (s: seq<byte>)
    ensures |s| == n
  {
    if n == 0 then [] else [value % 256] + Le(value / 256, n - 1)
  }

  function FromLe(s: seq<byte>): nat {
    if s == [] then 0 else s[0] + 256 * FromLe(s[1..])
  }

  function Power(n: nat): nat { if n == 0 then 1 else 256 * Power(n - 1) }

  lemma {:induction false} LeRoundTrip(value: nat, n: nat)
    requires value < Power(n)
    ensures FromLe(Le(value, n)) == value
  {
    if n > 0 {
      LeRoundTrip(value / 256, n - 1);
      assert Le(value, n)[1..] == Le(value / 256, n - 1);
    }
  }

  lemma Powers()
    ensures Power(4) == U32 && Power(8) == U64
  {
    assert Power(2) == 0x1_0000;
    assert Power(4) == 0x1_0000 * Power(2);
    assert Power(6) == 0x1_0000 * Power(4);
    assert Power(8) == 0x1_0000 * Power(6);
  }

  // ---------------------------------------------------------------- one frame

  predicate Encodable(i: Image) {
    && i.stamp.sequence < U32 && 0 <= i.stamp.sec < U64 && 0 <= i.stamp.usec < U64
    && |i.luma| == PAYLOAD
  }

  function Header(stamp: Stamp): (h: seq<byte>)
    requires 0 <= stamp.sec && 0 <= stamp.usec
    ensures |h| == HEADER_BYTES
  {
    MAGIC + Le(VERSION, 4) + Le(WIDTH, 4) + Le(HEIGHT, 4) + Le(PAYLOAD, 4)
    + Le(stamp.sequence, 4) + Le(stamp.sec, 8) + Le(stamp.usec, 8)
  }

  function Encode(i: Image): seq<byte>
    requires Encodable(i)
  {
    Header(i.stamp) + i.luma
  }

  predicate GoodHeader(h: seq<byte>)
    requires |h| == HEADER_BYTES
  {
    && h[..8] == MAGIC && FromLe(h[8..12]) == VERSION && FromLe(h[12..16]) == WIDTH
    && FromLe(h[16..20]) == HEIGHT && FromLe(h[20..24]) == PAYLOAD
  }

  function StampOf(h: seq<byte>): Stamp
    requires |h| == HEADER_BYTES
  {
    Stamp(FromLe(h[24..28]), FromLe(h[28..36]), FromLe(h[36..44]))
  }

  /** Each field of the header is read back from where it was put. */
  lemma HeaderRoundTrip(stamp: Stamp)
    requires stamp.sequence < U32 && 0 <= stamp.sec < U64 && 0 <= stamp.usec < U64
    ensures GoodHeader(Header(stamp)) && StampOf(Header(stamp)) == stamp
  {
    Powers();
    LeRoundTrip(VERSION, 4);
    LeRoundTrip(WIDTH, 4);
    LeRoundTrip(HEIGHT, 4);
    LeRoundTrip(PAYLOAD, 4);
    LeRoundTrip(stamp.sequence, 4);
    LeRoundTrip(stamp.sec, 8);
    LeRoundTrip(stamp.usec, 8);
    HeaderSlices(stamp);
    hide Le, FromLe, Power, Header;
  }

  lemma HeaderSlices(stamp: Stamp)
    requires 0 <= stamp.sec && 0 <= stamp.usec
    ensures var h := Header(stamp);
            && h[..8] == MAGIC && h[8..12] == Le(VERSION, 4) && h[12..16] == Le(WIDTH, 4) && h[16..20] == Le(HEIGHT, 4)
            && h[20..24] == Le(PAYLOAD, 4) && h[24..28] == Le(stamp.sequence, 4) && h[28..36] == Le(stamp.sec, 8)
            && h[36..44] == Le(stamp.usec, 8)
  {
    hide Le;
    var h := Header(stamp);
    var head := MAGIC + Le(VERSION, 4) + Le(WIDTH, 4) + Le(HEIGHT, 4) + Le(PAYLOAD, 4);
    var tail := Le(stamp.sequence, 4) + Le(stamp.sec, 8) + Le(stamp.usec, 8);
    assert |head| == 24 && |tail| == 20 && h == head + tail;
    assert head[..8] == MAGIC;
    assert head[8..12] == Le(VERSION, 4);
    assert head[12..16] == Le(WIDTH, 4);
    assert head[16..20] == Le(HEIGHT, 4);
    assert head[20..24] == Le(PAYLOAD, 4);
    assert tail[0..4] == Le(stamp.sequence, 4);
    assert tail[4..12] == Le(stamp.sec, 8);
    assert tail[12..20] == Le(stamp.usec, 8);
    hide Header;
    assert h[..8] == head[..8];
    assert h[8..12] == head[8..12];
    assert h[12..16] == head[12..16];
    assert h[16..20] == head[16..20];
    assert h[20..24] == head[20..24];
    assert h[24..28] == tail[0..4];
    assert h[28..36] == tail[4..12];
    assert h[36..44] == tail[12..20];
  }

  // ---------------------------------------------------------------- the reader's rules

  /** Python's order on (sequence, seconds, usec). */
  predicate TupleLess(a: Stamp, b: Stamp) {
    a.sequence < b.sequence
    || (a.sequence == b.sequence && (a.sec < b.sec || (a.sec == b.sec && a.usec < b.usec)))
  }

  /** _fresh_timestamp. */
  predicate Fresh(s: Stamp, now: nat) {
    s.usec < 1_000_000
    && var timestamp := s.sec * 1_000_000_000 + s.usec * 1_000; timestamp <= now && now - timestamp <= MAX_FRAME_AGE
  }

  lemma TupleMeans(a: Stamp, b: Stamp)
    ensures TupleLess(a, b) <==>
              || a.sequence < b.sequence
              || (a.sequence == b.sequence && (a.sec < b.sec || (a.sec == b.sec && a.usec < b.usec)))
  {}

  /** A frame is fresh if its microseconds are below a million and it is at most two
      seconds old, and not from the future, in nanoseconds. */
  lemma FreshMeans(s: Stamp, now: nat)
    ensures Fresh(s, now) <==> s.usec < 1_000_000 && 0 <= now - (s.sec * 1_000_000_000 + s.usec * 1_000) <= 2_000_000_000
  {}

  /** Of two frames the capture engine may deliver one after the other, the reader
      takes the second for newer exactly if the sequence number did not wrap. */
  lemma AcceptsUnlessWrapped(a: Stamp, b: Stamp)
    requires a.sequence < U32 && b.sequence < U32 && Follows(a, b)
    ensures TupleLess(a, b) <==> a.sequence + Delta(a.sequence, b.sequence) < U32
  {}

  /** A wrap the engine accepts and the reader refuses. */
  lemma WrapRefused()
    ensures var a := Stamp(U32 - 1, 10, 0); var b := Stamp(0, 10, 33_000);
            Follows(a, b) && !TupleLess(a, b)
  {}

  lemma {:induction false} FromLeInverse(s: seq<byte>)
    ensures FromLe(s) < Power(|s|) && Le(FromLe(s), |s|) == s
  {
    if s != [] {
      FromLeInverse(s[1..]);
      FromLeNext(s);
      LeNext(FromLe(s), |s|);
      hide Le, FromLe;
      assert s == [s[0]] + s[1..];
      assert Power(|s|) == 256 * Power(|s| - 1);
    }
  }

  lemma FromLeNext(s: seq<byte>)
    requires s != []
    ensures FromLe(s) == s[0] + 256 * FromLe(s[1..]) && FromLe(s) % 256 == s[0] && FromLe(s) / 256 == FromLe(s[1..])
  {
    hide Le, Power;
  }

  lemma SliceJoin(s: seq<byte>, a: nat, b: nat, c: nat)
    requires a <= b <= c <= |s|
    ensures s[a..c] == s[a..b] + s[b..c]
  {}

  /** A header made of the right fields is the header. */
  lemma HeaderFields(h: seq<byte>, stamp: Stamp)
    requires |h| == HEADER_BYTES && 0 <= stamp.sec && 0 <= stamp.usec
    requires h[..8] == MAGIC && h[8..12] == Le(VERSION, 4) && h[12..16] == Le(WIDTH, 4) && h[16..20] == Le(HEIGHT, 4)
    requires h[20..24] == Le(PAYLOAD, 4) && h[24..28] == Le(stamp.sequence, 4) && h[28..36] == Le(stamp.sec, 8)
    requires h[36..44] == Le(stamp.usec, 8)
    ensures h == Header(stamp)
  {
    hide Le;
    SliceJoin(h, 0, 8, 12);
    SliceJoin(h, 0, 12, 16);
    SliceJoin(h, 0, 16, 20);
    SliceJoin(h, 0, 20, 24);
    SliceJoin(h, 24, 28, 36);
    SliceJoin(h, 24, 36, 44);
    assert h[0..8] == h[..8] && h[0..24] == h[..24] && h[24..44] == h[24..];
    var first := MAGIC + Le(VERSION, 4) + Le(WIDTH, 4) + Le(HEIGHT, 4) + Le(PAYLOAD, 4);
    assert Header(stamp) == first + (Le(stamp.sequence, 4) + Le(stamp.sec, 8) + Le(stamp.usec, 8));
    assert h == h[..24] + h[24..];
  }

  /** Only an encoded header passes the reader's check. */
  lemma GoodHeaderInverse(h: seq<byte>)
    requires |h| == HEADER_BYTES && GoodHeader(h)
    ensures 0 <= StampOf(h).sec < U64 && 0 <= StampOf(h).usec < U64 && StampOf(h).sequence < U32
    ensures h == Header(StampOf(h))
  {
    Powers();
    FromLeInverse(h[8..12]);
    FromLeInverse(h[12..16]);
    FromLeInverse(h[16..20]);
    FromLeInverse(h[20..24]);
    FromLeInverse(h[24..28]);
    FromLeInverse(h[28..36]);
    FromLeInverse(h[36..44]);
    hide Le, FromLe, Power;
    HeaderFields(h, StampOf(h));
  }

  // ---------------------------------------------------------------- the writer

  method PutU32(destination: array<byte>, at: nat, value: nat)
    requires at + 4 <= destination.Length && value < U32
    modifies destination
    ensures destination[at..at + 4] == Le(value, 4)
    ensures forall k | 0 <= k < destination.Length && !(at <= k < at + 4) :: destination[k] == old(destination[k])
  {
    destination[at] := value % 256;
    destination[at + 1] := value / 256 % 256;
    destination[at + 2] := value / 256 / 256 % 256;
    destination[at + 3] := value / 256 / 256 / 256 % 256;
    LeFour(value, value / 256, value / 256 / 256, value / 256 / 256 / 256);
  }

  method PutU64(destination: array<byte>, at: nat, value: nat)
    requires at + 8 <= destination.Length && value < U64
    modifies destination
    ensures destination[at..at + 8] == Le(value, 8)
    ensures forall k | 0 <= k < destination.Length && !(at <= k < at + 8) :: destination[k] == old(destination[k])
  {
    hide Le;
    var index: nat, rest := 0, value;
    while index < 8
      invariant index <= 8
      invariant Le(value, 8) == destination[at..at + index] + Le(rest, 8 - index)
      invariant forall k | 0 <= k < destination.Length && !(at <= k < at + index) :: destination[k] == old(destination[k])
    {
      ghost var done := destination[at..at + index];
      LeNext(rest, 8 - index);
      destination[at + index] := rest % 256;
      assert destination[at..at + index + 1] == done + [rest % 256];
      rest := rest / 256;
      index := index + 1;
    }
    assert Le(rest, 0) == [];
  }

  lemma LeNext(value: nat, n: nat)
    requires n > 0
    ensures Le(value, n) == [value % 256] + Le(value / 256, n - 1)
  {}

  lemma LeFour(a: nat, b: nat, c: nat, d: nat)
    requires b == a / 256 && c == b / 256 && d == c / 256
    ensures Le(a, 4) == [a % 256, b % 256, c % 256, d % 256]
  {
    LeNext(a, 4);
    LeNext(b, 3);
    LeNext(c, 2);
    LeNext(d, 1);
    assert Le(d / 256, 0) == [];
    hide Le;
    assert Le(c, 2) == [c % 256, d % 256];
    assert Le(b, 3) == [b % 256, c % 256, d % 256];
  }

  /** What one turn of a write loop meets: the wait ends it, a signal interrupts
      the write, the write fails, or some bytes go out. */
  datatype Attempt = Stop | Interrupted | WriteFailed | Wrote(count: nat)

  /** How many writes that move bytes a script grants before the output closes. */
  function Room(script: seq<Attempt>): nat {
    if script == [] then 0
    else
      match script[0]
      case Interrupted => Room(script[1..])
      case Wrote(n) => if n == 0 then 0 else 1 + Room(script[1..])
      case _ => 0
  }

  class Writer {
    var output: seq<byte>
    var script: seq<Attempt>

    constructor (script: seq<Attempt>)
      ensures output == [] && this.script == script
    {
      output, this.script := [], script;
    }

    /** write_all and forward_bytes: all of the data, in order, or a prefix of it, and
        all of it if there is room. */
    method WriteAll(data: seq<byte>) returns (ok: bool)
      modifies this
      ensures ok ==> output == old(output) + data
      ensures old(output) <= output <= old(output) + data
      ensures if ok then Room(script) + |data| >= Room(old(script)) else Room(old(script)) < |data|
    {
      var written: nat := 0;
      assert data[..0] == [];
      while written < |data|
        invariant written <= |data| && output == old(output) + data[..written]
        invariant Room(script) + written >= Room(old(script))
        decreases |script|
      {
        if script == [] { return false; }
        var attempt := script[0];
        script := script[1..];
        match attempt {
          case Stop => return false;
          case WriteFailed => return false;
          case Interrupted =>
          case Wrote(n) =>
            if n == 0 { return false; }
            var count := if n < |data| - written then n else |data| - written;
            output := output + data[written..written + count];
            assert data[..written] + data[written..written + count] == data[..written + count];
            written := written + count;
        }
      }
      assert data[..written] == data;
      ok := true;
    }

    /** write_frame: the header, then every other byte of the YUYV frame. */
    method WriteFrame(yuyv: array<byte>, stamp: Stamp) returns (ok: bool)
      requires yuyv.Length == 2 * PAYLOAD && stamp.sequence < U32 && 0 <= stamp.sec < U64 && 0 <= stamp.usec < U64
      modifies this
      ensures ok ==> output == old(output) + Encode(ImageOf(yuyv[..], stamp))
      ensures old(output) <= output <= old(output) + Encode(ImageOf(yuyv[..], stamp))
      ensures if ok then Room(script) + FRAME_BYTES >= Room(old(script)) else Room(old(script)) < FRAME_BYTES
      ensures ok ==> |output| == |old(output)| + 307244
      ensures ok ==> forall k | 0 <= k < 307200 :: output[|old(output)| + 44 + k] == yuyv[2 * k]
    {
      hide Room, Header;
      var header := MakeHeader(stamp);
      var luma := MakeLuma(yuyv);
      ghost var whole := old(output) + Encode(ImageOf(yuyv[..], stamp));
      assert whole == old(output) + Header(stamp) + LumaOf(yuyv[..]);
      ok := WriteAll(header[..]);
      if !ok { return; }
      ok := WriteAll(luma[..]);
      if ok { LumaAt(old(output), Header(stamp), yuyv[..]); }
    }
  }

  function LumaOf(yuyv: seq<byte>): (luma: seq<byte>)
    requires |yuyv| == 2 * PAYLOAD
    ensures |luma| == PAYLOAD
  {
    seq(PAYLOAD, k requires 0 <= k < PAYLOAD => yuyv[k * 2])
  }

  lemma LumaAt(before: seq<byte>, header: seq<byte>, yuyv: seq<byte>)
    requires |yuyv| == 2 * PAYLOAD && |header| == HEADER_BYTES
    ensures forall k | 0 <= k < PAYLOAD :: (before + header + LumaOf(yuyv))[|before| + 44 + k] == yuyv[2 * k]
  {}

  function ImageOf(yuyv: seq<byte>, stamp: Stamp): (i: Image)
    requires |yuyv| == 2 * PAYLOAD && stamp.sequence < U32 && 0 <= stamp.sec < U64 && 0 <= stamp.usec < U64
    ensures Encodable(i)
  {
    Image(stamp, LumaOf(yuyv))
  }

  method MakeLuma(yuyv: array<byte>) returns (luma: array<byte>)
    requires yuyv.Length == 2 * PAYLOAD
    ensures fresh(luma) && luma[..] == LumaOf(yuyv[..])
  {
    luma := new byte[PAYLOAD];
    var pixel := 0;
    while pixel < PAYLOAD
      invariant pixel <= PAYLOAD
      invariant forall k | 0 <= k < pixel :: luma[k] == yuyv[k * 2]
    {
      luma[pixel] := yuyv[pixel * 2];
      pixel := pixel + 1;
    }
    assert luma[..] == LumaOf(yuyv[..]);
  }

  method MakeHeader(stamp: Stamp) returns (header: array<byte>)
    requires stamp.sequence < U32 && 0 <= stamp.sec < U64 && 0 <= stamp.usec < U64
    ensures fresh(header) && header[..] == Header(stamp)
  {
    hide Le, Header;
    header := new byte[HEADER_BYTES];
    var k := 0;
    while k < 8
      invariant k <= 8 && forall x | 0 <= x < k :: header[x] == MAGIC[x]
    {
      header[k] := MAGIC[k];
      k := k + 1;
    }
    PutU32(header, 8, VERSION);
    PutU32(header, 12, WIDTH);
    PutU32(header, 16, HEIGHT);
    PutU32(header, 20, PAYLOAD);
    PutU32(header, 24, stamp.sequence);
    PutU64(header, 28, stamp.sec);
    PutU64(header, 36, stamp.usec);
    var h := header[..];
    assert h[..8] == MAGIC;
    assert h[8..12] == Le(VERSION, 4);
    assert h[12..16] == Le(WIDTH, 4);
    assert h[16..20] == Le(HEIGHT, 4);
    assert h[20..24] == Le(PAYLOAD, 4);
    assert h[24..28] == Le(stamp.sequence, 4);
    assert h[28..36] == Le(stamp.sec, 8);
    HeaderFields(h, stamp);
  }

  // ---------------------------------------------------------------- streams of frames

  function Stream(images: seq<Image>): seq<byte>
    requires forall k | 0 <= k < |images| :: Encodable(images[k])
  {
    if images == [] then [] else Stream(images[..|images| - 1]) + Encode(images[|images| - 1])
  }

  /** The frames the reader accepts in a row: each fresh when it is read, and newer
      than the one before. */
  predicate Acceptable(images: seq<Image>, now: nat -> nat) {
    && (forall k | 0 <= k < |images| :: Fresh(images[k].stamp, now(k)))
    && forall k | 0 < k < |images| :: TupleLess(images[k - 1].stamp, images[k].stamp)
  }

  function Stamps(images: seq<Image>): seq<Stamp> { seq(|images|, k requires 0 <= k < |images| => images[k].stamp) }

  predicate Increasing(stamps: seq<Stamp>) { forall k | 0 < k < |stamps| :: TupleLess(stamps[k - 1], stamps[k]) }

  /** Every frame at most two seconds old when it is read. */
  predicate Recent(images: seq<Image>, now: nat -> nat) {
    forall k | 0 <= k < |images| ::
      && images[k].stamp.usec < 1_000_000
      && 0 <= now(k) - (images[k].stamp.sec * 1_000_000_000 + images[k].stamp.usec * 1_000) <= 2_000_000_000
  }

  lemma AcceptableMeans(images: seq<Image>, now: nat -> nat)
    ensures Acceptable(images, now) <==> Recent(images, now) && Increasing(Stamps(images))
  {
    hide Fresh, TupleLess;
    forall k | 0 <= k < |images| { FreshMeans(images[k].stamp, now(k)); }
    if Increasing(Stamps(images)) {
      forall k | 0 < k < |images| ensures TupleLess(images[k - 1].stamp, images[k].stamp) {
        assert TupleLess(Stamps(images)[k - 1], Stamps(images)[k]);
      }
    }
  }

  lemma StreamGrows(images: seq<Image>, image: Image)
    requires Encodable(image) && forall k | 0 <= k < |images| :: Encodable(images[k])
    ensures Stream(images + [image]) == Stream(images) + Encode(image)
  {
    assert (images + [image])[..|images|] == images;
  }

  lemma {:induction false} StreamJoins(a: seq<Image>, b: seq<Image>)
    requires (forall k | 0 <= k < |a| :: Encodable(a[k])) && forall k | 0 <= k < |b| :: Encodable(b[k])
    ensures Stream(a + b) == Stream(a) + Stream(b)
  {
    hide Encodable, Encode;
    if b == [] {
      assert a + b == a;
    } else {
      hide Stream;
      var most, last := b[..|b| - 1], b[|b| - 1];
      StreamJoins(a, most);
      StreamGrows(a + most, last);
      StreamGrows(most, last);
      SplitLast(b);
      Assoc(a, most, [last]);
      Assoc(Stream(a), Stream(most), Encode(last));
    }
  }

  /** The bytes of a frame at the head of a stream. */
  lemma EncodeParts(pipe: seq<byte>, image: Image, rest: seq<byte>)
    requires Encodable(image) && pipe == Encode(image) + rest
    ensures |pipe| >= HEADER_BYTES + PAYLOAD && pipe[..HEADER_BYTES] == Header(image.stamp)
    ensures pipe[HEADER_BYTES..HEADER_BYTES + PAYLOAD] == image.luma && pipe[HEADER_BYTES + PAYLOAD..] == rest
    ensures GoodHeader(Header(image.stamp)) && StampOf(Header(image.stamp)) == image.stamp
  {
    HeaderRoundTrip(image.stamp);
  }

  // ---------------------------------------------------------------- the reader

  /** What one turn of a read loop meets: the deadline, nothing to read yet, or
      bytes, as many as the pipe gives at once. */
  datatype Reply = Expired | NotYet | Data(count: nat)

  datatype Chunk = Bytes(data: seq<byte>) | Ended | Truncated | Late

  datatype Reading = Read(image: Image) | Exhausted | Failure | Overdue

  /** How many reads a script grants before its deadline. */
  function Budget(script: seq<Reply>): nat {
    if script == [] then 0
    else
      match script[0]
      case Expired => 0
      case NotYet => Budget(script[1..])
      case Data(_) => 1 + Budget(script[1..])
  }

  lemma BudgetNext(script: seq<Reply>)
    ensures Budget(script) == if script == [] then 0
                              else match script[0]
                                   case Expired => 0
                                   case NotYet => Budget(script[1..])
                                   case Data(_) => 1 + Budget(script[1..])
  {}

  lemma BytesMove(data: seq<byte>, pipe: seq<byte>, count: nat)
    requires count <= |pipe|
    ensures data + pipe == (data + pipe[..count]) + pipe[count..]
  {}

  class Session {
    const requested: nat
    const now: nat -> nat
    var pipe: seq<byte>
    var script: seq<Reply>
    var framesRead: nat
    var haveLast: bool
    var last: Stamp
    var exhausted: bool

    constructor (requested: nat, now: nat -> nat, pipe: seq<byte>, script: seq<Reply>)
      ensures this.requested == requested && this.now == now && this.pipe == pipe && this.script == script
      ensures framesRead == 0 && !haveLast && !exhausted
    {
      this.requested, this.now, this.pipe, this.script := requested, now, pipe, script;
      framesRead, haveLast, last, exhausted := 0, false, Stamp(0, 0, 0), false;
    }

    /** _read_exact: the next `length` bytes however they are split, or how the
        stream fell short. */
    method ReadExact(length: nat) returns (r: Chunk)
      requires length > 0
      modifies this`pipe, this`script
      ensures r.Bytes? ==> |r.data| == length && old(pipe) == r.data + pipe
      ensures r.Ended? ==> old(pipe) == []
      ensures r.Truncated? ==> 0 < |old(pipe)| < length
      ensures r.Late? ==> Budget(old(script)) < length
      ensures r.Bytes? ==> Budget(script) + length >= Budget(old(script))
    {
      hide Budget;
      var data: seq<byte> := [];
      while |data| < length
        invariant |data| <= length && old(pipe) == data + pipe
        invariant Budget(script) + |data| >= Budget(old(script))
        decreases |script|
      {
        BudgetNext(script);
        if script == [] { return Late; }
        var reply := script[0];
        script := script[1..];
        match reply {
          case Expired => return Late;
          case NotYet =>
          case Data(n) =>
            if pipe == [] { return if data != [] then Truncated else Ended; }
            var most := if length - |data| < |pipe| then length - |data| else |pipe|;
            var count := if n == 0 then 1 else if n < most then n else most;
            BytesMove(data, pipe, count);
            data := data + pipe[..count];
            pipe := pipe[count..];
        }
      }
      r := Bytes(data);
    }

    /** read_luma: the next frame, if it is whole, well-formed, newer than the last
        and fresh. */
    method ReadLuma() returns (r: Reading)
      modifies this`pipe, this`script, this`framesRead, this`haveLast, this`last, this`exhausted
      ensures r.Exhausted? <==> old(framesRead) >= requested
      ensures r.Read? ==>
                && Encodable(r.image) && old(pipe) == Encode(r.image) + pipe
                && r.image.stamp.usec < 1_000_000
                && 0 <= now(old(framesRead)) - (r.image.stamp.sec * 1_000_000_000 + r.image.stamp.usec * 1_000) <= 2_000_000_000
                && Fresh(r.image.stamp, now(old(framesRead))) && (old(haveLast) ==> TupleLess(old(last), r.image.stamp))
                && (old(haveLast) ==>
                      var a, b := old(last), r.image.stamp;
                      || a.sequence < b.sequence
                      || (a.sequence == b.sequence && (a.sec < b.sec || (a.sec == b.sec && a.usec < b.usec))))
                && framesRead == old(framesRead) + 1 && haveLast && last == r.image.stamp
      ensures !r.Read? ==> framesRead == old(framesRead) && haveLast == old(haveLast) && last == old(last)
      ensures r.Overdue? ==> Budget(old(script)) < FRAME_BYTES
      ensures r.Read? ==> Budget(script) + FRAME_BYTES >= Budget(old(script))
      ensures forall image, rest | r.Failure? && Encodable(image) && old(pipe) == Encode(image) + rest ::
                !(Fresh(image.stamp, now(framesRead)) && (haveLast ==> TupleLess(last, image.stamp)))
    {
      hide Budget, GoodHeader, StampOf, Header, Fresh, TupleLess;
      if framesRead >= requested {
        exhausted := true;
        return Exhausted;
      }
      var was := pipe;
      forall image, rest | Encodable(image) && was == Encode(image) + rest
        ensures |was| >= HEADER_BYTES + PAYLOAD && was[..HEADER_BYTES] == Header(image.stamp)
        ensures GoodHeader(was[..HEADER_BYTES]) && StampOf(was[..HEADER_BYTES]) == image.stamp
      {
        EncodeParts(was, image, rest);
      }
      var head := ReadExact(HEADER_BYTES);
      if head.Late? { return Overdue; }
      if !head.Bytes? { return Failure; }
      assert head.data == was[..HEADER_BYTES];
      var stamp := StampOf(head.data);
      if !GoodHeader(head.data) { return Failure; }
      GoodHeaderInverse(head.data);
      var body := ReadExact(PAYLOAD);
      if body.Late? { return Overdue; }
      if !body.Bytes? { return Failure; }
      if haveLast && !TupleLess(last, stamp) { return Failure; }
      if !Fresh(stamp, now(framesRead)) { return Failure; }
      FreshMeans(stamp, now(framesRead));
      TupleMeans(last, stamp);
      haveLast, last := true, stamp;
      framesRead := framesRead + 1;
      var image := Image(stamp, body.data);
      assert was == Encode(image) + pipe;
      r := Read(image);
    }

    /** capture_frames: reads the requested frames.  `exited` is whether the helper
        then ends well.  When the pipe carries the encoding of `images`, they are
        what is read, if and only if each is fresh and newer than the one before. */
    method CaptureFrames(exited: bool, ghost images: seq<Image>, ghost rest: seq<byte>) returns (ok: bool, frames: seq<Image>)
      requires framesRead == 0 && !haveLast
      requires |images| == requested && (forall k | 0 <= k < |images| :: Encodable(images[k])) && pipe == Stream(images) + rest
      modifies this`pipe, this`script, this`framesRead, this`haveLast, this`last, this`exhausted
      ensures ok ==> frames == images && pipe == rest
      ensures ok ==> exited && Acceptable(images, now) && Recent(images, now)
      ensures exited && Budget(old(script)) >= requested * FRAME_BYTES && Recent(images, now) && Increasing(Stamps(images)) ==> ok
      ensures exited && Budget(old(script)) >= requested * FRAME_BYTES && Acceptable(images, now) ==> ok
    {
      hide Budget, Encodable, Encode, Stream, Fresh, TupleLess, Acceptable, Recent, Increasing;
      frames := [];
      assert images[0..] == images && images[..0] == [];
      NoneYet(images, now);
      while |frames| < requested
        invariant framesRead == |frames| <= |images| && frames == images[..|frames|]
        invariant pipe == Stream(images[|frames|..]) + rest
        invariant haveLast == (|frames| > 0) && (haveLast ==> last == images[|frames| - 1].stamp)
        invariant SoFar(images, now, |frames|)
        invariant Budget(script) + |frames| * FRAME_BYTES >= Budget(old(script))
        decreases requested - |frames|
      {
        ghost var k := |frames|;
        NextImage(images, k, rest);
        var r := ReadLuma();
        if !r.Read? {
          if r.Failure? { SoFarEnds(images, now, k, haveLast, last); }
          AcceptableMeans(images, now);
          return false, frames;
        }
        SameImage(images[k], r.image, Stream(images[k + 1..]) + rest, pipe);
        SoFarGoesOn(images, now, k);
        frames := frames + [r.image];
      }
      assert images[..|frames|] == images && images[|frames|..] == [];
      SoFarAll(images, now);
      AcceptableMeans(images, now);
      EmptyStream();
      assert pipe == rest;
      ok := exited;
    }
  }

  lemma EmptyStream()
    ensures Stream([]) == []
  {}

  /** Acceptable up to the first `n`. */
  predicate SoFar(images: seq<Image>, now: nat -> nat, n: nat) {
    n <= |images|
    && (forall k | 0 <= k < n :: Fresh(images[k].stamp, now(k)))
    && forall k | 0 < k < n :: TupleLess(images[k - 1].stamp, images[k].stamp)
  }

  lemma NoneYet(images: seq<Image>, now: nat -> nat)
    ensures SoFar(images, now, 0)
  {}

  lemma SoFarAll(images: seq<Image>, now: nat -> nat)
    ensures SoFar(images, now, |images|) ==> Acceptable(images, now)
  {}

  lemma SoFarGoesOn(images: seq<Image>, now: nat -> nat, n: nat)
    requires SoFar(images, now, n) && n < |images| && Fresh(images[n].stamp, now(n))
    requires n > 0 ==> TupleLess(images[n - 1].stamp, images[n].stamp)
    ensures SoFar(images, now, n + 1)
  {}

  lemma SoFarEnds(images: seq<Image>, now: nat -> nat, n: nat, haveLast: bool, last: Stamp)
    requires n < |images| && haveLast == (n > 0) && (haveLast ==> last == images[n - 1].stamp)
    requires !(Fresh(images[n].stamp, now(n)) && (haveLast ==> TupleLess(last, images[n].stamp)))
    ensures !Acceptable(images, now)
  {}

  lemma NextImage(images: seq<Image>, n: nat, rest: seq<byte>)
    requires n < |images| && forall k | 0 <= k < |images| :: Encodable(images[k])
    ensures Stream(images[n..]) + rest == Encode(images[n]) + (Stream(images[n + 1..]) + rest)
  {
    hide Encode, Encodable;
    assert images[n..] == [images[n]] + images[n + 1..];
    StreamJoins([images[n]], images[n + 1..]);
    assert Stream([images[n]]) == Stream([]) + Encode(images[n]);
    assert Stream([]) == [];
  }

  /** A stream starts with one frame at most. */
  lemma SameImage(a: Image, b: Image, restA: seq<byte>, restB: seq<byte>)
    requires Encodable(a) && Encodable(b) && Encode(a) + restA == Encode(b) + restB
    ensures a == b && restA == restB
  {
    var pipe := Encode(a) + restA;
    EncodeParts(pipe, a, restA);
    EncodeParts(pipe, b, restB);
  }

  // ---------------------------------------------------------------- from the engine to the reader

  lemma {:induction false} DeliveriesFit(m: Capture, ops: seq<Op>)
    requires forall k | 0 <= k < |ops| :: Fits(ops[k])
    ensures forall k | 0 <= k < |Deliveries(m, ops)| :: Deliveries(m, ops)[k].sequence < U32
    decreases |ops|
  {
    if ops != [] {
      var op := ops[0];
      assert Fits(op);
      if op.Ask? && m.streaming && op.input.wait.Got? { FrameMoves(m, op.input.wait.frame, op.input); }
      hide OnFrame;
      DeliveriesFit(Do(m, op).capture, ops[1..]);
    }
  }

  predicate NoWrap(stamps: seq<Stamp>) {
    forall k | 0 < k < |stamps| :: stamps[k - 1].sequence + Delta(stamps[k - 1].sequence, stamps[k].sequence) < U32
  }

  /** Of frames the engine may deliver in a row, the reader takes each for newer than
      the one before exactly if the sequence number wrapped between none of them. */
  lemma IncreasingUnlessWrapped(d: seq<Stamp>)
    requires InOrder(d) && forall k | 0 <= k < |d| :: d[k].sequence < U32
    ensures Increasing(d) <==> NoWrap(d)
  {
    hide Follows, Delta;
    forall k | 0 < k < |d|
      ensures TupleLess(d[k - 1], d[k]) <==> d[k - 1].sequence + Delta(d[k - 1].sequence, d[k].sequence) < U32
    {
      assert Follows(d[k - 1], d[k]);
      AcceptsUnlessWrapped(d[k - 1], d[k]);
    }
  }

  /** So of any run of the capture engine. */
  lemma EngineToReader(m: Capture, ops: seq<Op>)
    requires forall k | 0 <= k < |ops| :: Fits(ops[k])
    ensures Increasing(Deliveries(m, ops)) <==> NoWrap(Deliveries(m, ops))
  {
    DeliveriesFollow(m, ops);
    DeliveriesFit(m, ops);
    IncreasingUnlessWrapped(Deliveries(m, ops));
  }
}
