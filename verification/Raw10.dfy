/** The RAW10 decoder of cbridge/ir-v4l2.c: packed 10-bit lines with a four-byte
    header each, four pixels in five bytes, turned into YUYV with neutral chroma.
    Sizes are computed in 64 bits, geometry in 32. */
module Raw10 {
  import opened Common

  const HEADER_BYTES := 4
  const HEADER_WORD: bv8 := 0x40
  const NEUTRAL: bv8 := 0x80

  datatype Geometry = Geometry(width: nat, height: nat, stride: nat, offset: nat)

  predicate Words(g: Geometry) { g.width < U32 && g.height < U32 && g.stride < U32 && g.offset < U32 }

  // ---------------------------------------------------------------- the size checks

  function Payload(g: Geometry): nat { g.width * 10 / 8 }

  /** The bytes the decoder computes that it will read, in 64 bits; `height - 1`
      is computed in 32. */
  function Required(g: Geometry): nat {
    (g.offset + (g.height - 1) % U32 * g.stride + HEADER_BYTES + Payload(g)) % U64
  }

  function OutputBytes(g: Geometry): nat { (g.width * g.height * 2) % U64 }

  /** The decoder's own test of its arguments. */
  predicate Accepts(g: Geometry, size: nat, outSize: nat) {
    && g.width != 0 && g.height != 0 && g.width % 4 == 0
    && g.stride >= HEADER_BYTES + Payload(g)
    && g.offset < size && size >= Required(g) && outSize >= OutputBytes(g)
  }

  /** What the test is for: every byte read and written exists. */
  predicate InBounds(g: Geometry, size: nat, outSize: nat) {
    && g.width != 0 && g.height != 0 && g.width % 4 == 0
    && g.stride >= HEADER_BYTES + Payload(g)
    && g.offset + (g.height - 1) * g.stride + HEADER_BYTES + Payload(g) <= size
    && g.width * g.height * 2 <= outSize
  }

  lemma MulMono(a: nat, b: nat, c: nat, d: nat)
    requires a <= c && b <= d
    ensures a * b <= c * d
  {
    assert a * b <= c * b;
    assert c * b <= c * d;
  }

  /** The 64-bit size of the read range does not wrap once the stride holds a line. */
  lemma RequiredExact(g: Geometry)
    requires Words(g) && g.height > 0 && g.stride >= HEADER_BYTES + Payload(g)
    ensures Required(g) == g.offset + (g.height - 1) * g.stride + HEADER_BYTES + Payload(g)
  {
    MulMono(g.height - 1, g.stride, U32 - 1, U32 - 1);
    SmallMod(g.height - 1, U32);
    var lines := (g.height - 1) * g.stride;
    SmallMod(g.offset + lines + HEADER_BYTES + Payload(g), U64);
  }

  lemma SmallMod(n: nat, m: nat)
    requires n < m
    ensures n % m == n
  {}

  lemma Distributes(a: nat, b: nat)
    requires a > 0
    ensures (a - 1) * b + b == a * b
  {}

  lemma FiveQuarters(a: nat, b: nat, p: nat)
    requires p * 4 == a * 5
    ensures a * b * 5 == b * p * 4
  {
    calc {
      a * b * 5;
      b * (a * 5);
      b * (p * 4);
      b * p * 4;
    }
  }

  lemma AreaFits(width: nat, height: nat, stride: nat, p: nat, size: nat)
    requires height > 0 && p * 4 == width * 5 && p <= stride
    requires (height - 1) * stride + p <= size
    ensures width * height * 5 <= size * 4
  {
    MulMono(height - 1, p, height - 1, stride);
    Distributes(height, p);
    FiveQuarters(width, height, p);
  }

  lemma TenEighths(k: nat)
    ensures 4 * k * 10 / 8 == 5 * k
  {}

  lemma PayloadQuarters(g: Geometry)
    requires g.width % 4 == 0
    ensures Payload(g) * 4 == g.width * 5
  {
    TenEighths(g.width / 4);
    assert g.width == 4 * (g.width / 4);
  }

  lemma DoubleFits(area: nat, size: nat)
    requires area * 5 <= size * 4 && size < U64 / 2
    ensures area * 2 < U64
  {}

  /** The output of a geometry whose reads are in bounds has a size that does not wrap. */
  lemma OutputExact(g: Geometry, size: nat)
    requires g.height > 0 && g.width % 4 == 0 && g.stride >= HEADER_BYTES + Payload(g) && size < U64 / 2
    requires g.offset + (g.height - 1) * g.stride + HEADER_BYTES + Payload(g) <= size
    ensures OutputBytes(g) == g.width * g.height * 2
  {
    PayloadQuarters(g);
    hide Payload;
    AreaFits(g.width, g.height, g.stride, Payload(g), size);
    DoubleFits(g.width * g.height, size);
    SmallMod(g.width * g.height * 2, U64);
  }

  /** For any buffer that fits an address space half as big as size_t, the test
      accepts exactly the geometries whose accesses are in bounds. */
  lemma AcceptsExactly(g: Geometry, size: nat, outSize: nat)
    requires Words(g) && size < U64 / 2
    ensures Accepts(g, size, outSize) <==> InBounds(g, size, outSize)
  {
    hide Words, Required, OutputBytes, Payload;
    if g.height != 0 && g.width % 4 == 0 && g.stride >= HEADER_BYTES + Payload(g) {
      RequiredExact(g);
      MulMono(0, g.stride, g.height - 1, g.stride);
      if Required(g) <= size { OutputExact(g, size); }
    }
  }

  // ---------------------------------------------------------------- pixels

  /** The 10-bit pixel `c` of a group of five bytes. */
  function Unpack(top: bv8, low: bv8, c: nat): bv16
    requires c < 4
  {
    ((top as bv16) << 2) | (((low >> ((c * 2) as bv3)) & 0x03) as bv16)
  }

  /** A cast to eight bits. */
  function Byte(p: bv16): bv8 { (p & 0xff) as bv8 }

  /** A pixel as four of them are packed: its byte, and its part of the fifth. */
  function PackTop(p: bv16): bv8 { Byte(p >> 2) }

  function PackLow(p: bv16, c: nat): bv8
    requires c < 4
  {
    Byte((p & 0x03) << ((c * 2) as bv4))
  }

  function PackLows(p: seq<bv16>): bv8
    requires |p| == 4
  {
    PackLow(p[0], 0) | PackLow(p[1], 1) | PackLow(p[2], 2) | PackLow(p[3], 3)
  }

  lemma TopBits(top: bv8, low: bv8, c: nat)
    requires c < 4
    ensures Unpack(top, low, c) <= 1023 && Byte(Unpack(top, low, c) >> 2) == top
  {}

  /** Unpacking undoes packing, for every pixel of a group. */
  lemma UnpackPack(p: seq<bv16>, c: nat)
    requires |p| == 4 && c < 4 && forall k | 0 <= k < 4 :: p[k] <= 1023
    ensures Unpack(PackTop(p[c]), PackLows(p), c) == p[c]
    ensures Byte(Unpack(PackTop(p[c]), PackLows(p), c) >> 2) == PackTop(p[c])
  {
    if c == 0 { UnpackFirst(p[0], p[1], p[2], p[3]); }
    else if c == 1 { UnpackSecond(p[0], p[1], p[2], p[3]); }
    else if c == 2 { UnpackThird(p[0], p[1], p[2], p[3]); }
    else { UnpackFourth(p[0], p[1], p[2], p[3]); }
    TopBits(PackTop(p[c]), PackLows(p), c);
  }

  lemma UnpackFirst(a: bv16, b: bv16, c: bv16, d: bv16)
    requires a <= 1023
    ensures Unpack(PackTop(a), PackLow(a, 0) | PackLow(b, 1) | PackLow(c, 2) | PackLow(d, 3), 0) == a
  {}

  lemma UnpackSecond(a: bv16, b: bv16, c: bv16, d: bv16)
    requires b <= 1023
    ensures Unpack(PackTop(b), PackLow(a, 0) | PackLow(b, 1) | PackLow(c, 2) | PackLow(d, 3), 1) == b
  {}

  lemma UnpackThird(a: bv16, b: bv16, c: bv16, d: bv16)
    requires c <= 1023
    ensures Unpack(PackTop(c), PackLow(a, 0) | PackLow(b, 1) | PackLow(c, 2) | PackLow(d, 3), 2) == c
  {}

  lemma UnpackFourth(a: bv16, b: bv16, c: bv16, d: bv16)
    requires d <= 1023
    ensures Unpack(PackTop(d), PackLow(a, 0) | PackLow(b, 1) | PackLow(c, 2) | PackLow(d, 3), 3) == d
  {}

  // ---------------------------------------------------------------- decoding in place

  /** The little-endian word at the head of a line, of which the decoder checks the
      low byte. */
  function HeaderWord(a: bv8, b: bv8, c: bv8, d: bv8): bv32 {
    (a as bv32) | ((b as bv32) << 8) | ((c as bv32) << 16) | ((d as bv32) << 24)
  }

  lemma HeaderLowByte(a: bv8, b: bv8, c: bv8, d: bv8)
    ensures HeaderWord(a, b, c, d) & 0xff == HEADER_WORD as bv32 <==> a == HEADER_WORD
  {}

  function LineAt(g: Geometry, row: nat): nat { g.offset + row * g.stride }

  function OutAt(g: Geometry, row: nat, column: nat): nat { (row * g.width + column) * 2 }

  /** The packed pixel of a place: its own byte and the fifth of its group. */
  function PixelAt(input: seq<bv8>, line: nat, column: nat): bv16
    requires line + HEADER_BYTES + column / 4 * 5 + 5 <= |input|
  {
    var group := line + HEADER_BYTES + column / 4 * 5;
    Unpack(input[group + column % 4], input[group + 4], column % 4)
  }

  ghost predicate HeaderGood(input: seq<bv8>, g: Geometry, row: nat)
    requires LineAt(g, row) < |input|
  {
    input[LineAt(g, row)] == HEADER_WORD
  }

  /** The first `columns` pixels of a line are in `out` from `at`: the top eight
      bits of each, and neutral chroma. */
  ghost predicate LineDone(input: seq<bv8>, line: nat, columns: nat, out: seq<bv8>, at: nat)
    requires line + HEADER_BYTES + (columns + 3) / 4 * 5 <= |input| && at + columns * 2 <= |out|
  {
    forall column | 0 <= column < columns ::
      && out[at + column * 2] == Byte(PixelAt(input, line, column) >> 2)
      && out[at + column * 2 + 1] == NEUTRAL
  }

  lemma LineFits(g: Geometry, size: nat, outSize: nat, row: nat)
    requires InBounds(g, size, outSize) && row < g.height
    ensures LineAt(g, row) + HEADER_BYTES + (g.width + 3) / 4 * 5 <= size
    ensures OutAt(g, row, 0) + g.width * 2 == OutAt(g, row + 1, 0) <= outSize
    ensures g.width % 4 == 0
  {
    MulMono(row, g.stride, g.height - 1, g.stride);
    MulMono(row + 1, g.width, g.height, g.width);
    assert (row + 1) * g.width == row * g.width + g.width;
    assert Payload(g) == g.width / 4 * 5;
    assert g.width * g.height == g.height * g.width;
  }

  method UnpackGroup(input: array<bv8>, source: nat) returns (pixel: array<bv16>)
    requires source + 5 <= input.Length
    ensures fresh(pixel) && pixel.Length == 4
    ensures forall c | 0 <= c < 4 :: pixel[c] == Unpack(input[source + c], input[source + 4], c)
  {
    hide Unpack;
    pixel := new bv16[4];
    var component := 0;
    while component < 4
      invariant component <= 4
      invariant forall c | 0 <= c < component :: pixel[c] == Unpack(input[source + c], input[source + 4], c)
    {
      pixel[component] := Unpack(input[source + component], input[source + 4], component);
      component := component + 1;
    }
  }

  /** The first `n` pixels of a group are put out from `at` on, and nothing else. */
  predicate PixelsPut(was: seq<bv8>, out: seq<bv8>, at: nat, pixel: seq<bv16>, n: nat) {
    && n <= |pixel| && |out| == |was| && at + n * 2 <= |out|
    && (forall c | 0 <= c < n :: out[at + c * 2] == Byte(pixel[c] >> 2))
    && (forall c | 0 <= c < n :: out[at + c * 2 + 1] == NEUTRAL)
    && forall k | 0 <= k < |out| && !(at <= k < at + n * 2) :: out[k] == was[k]
  }

  lemma PixelPut(was: seq<bv8>, out: seq<bv8>, at: nat, pixel: seq<bv16>, n: nat)
    requires PixelsPut(was, out, at, pixel, n) && n < |pixel| && at + n * 2 + 2 <= |out|
    ensures PixelsPut(was, out[at + n * 2 := Byte(pixel[n] >> 2)][at + n * 2 + 1 := NEUTRAL], at, pixel, n + 1)
  {
    hide Byte;
  }

  method DecodeGroup(input: array<bv8>, source: nat, out: array<bv8>, at: nat)
    requires source + 5 <= input.Length && at + 8 <= out.Length && input != out
    modifies out
    ensures forall c | 0 <= c < 4 ::
              && out[at + c * 2] == Byte(Unpack(input[source + c], input[source + 4], c) >> 2)
              && out[at + c * 2 + 1] == NEUTRAL
    ensures forall k | 0 <= k < out.Length && !(at <= k < at + 8) :: out[k] == old(out[k])
  {
    hide Unpack, Byte;
    var pixel := UnpackGroup(input, source);
    PutGroup(pixel, out, at);
    forall c | 0 <= c < 4
      ensures out[at + c * 2] == Byte(Unpack(input[source + c], input[source + 4], c) >> 2)
      ensures out[at + c * 2 + 1] == NEUTRAL
    {
      assert pixel[..][c] == pixel[c];
      assert out[..][at + c * 2] == out[at + c * 2] && out[..][at + c * 2 + 1] == out[at + c * 2 + 1];
    }
  }

  method PutGroup(pixel: array<bv16>, out: array<bv8>, at: nat)
    requires pixel.Length == 4 && at + 8 <= out.Length
    modifies out
    ensures PixelsPut(old(out[..]), out[..], at, pixel[..], 4)
  {
    hide Byte, PixelsPut;
    var component := 0;
    NonePut(out[..], at, pixel[..]);
    while component < 4
      invariant component <= 4
      invariant PixelsPut(old(out[..]), out[..], at, pixel[..], component)
    {
      PixelPut(old(out[..]), out[..], at, pixel[..], component);
      out[at + component * 2] := Byte(pixel[component] >> 2);
      out[at + component * 2 + 1] := NEUTRAL;
      component := component + 1;
    }
  }

  lemma NonePut(out: seq<bv8>, at: nat, pixel: seq<bv16>)
    requires at <= |out|
    ensures PixelsPut(out, out, at, pixel, 0)
  {}

  lemma GroupDone(input: seq<bv8>, line: nat, group: nat, was: seq<bv8>, out: seq<bv8>, at: nat)
    requires line + HEADER_BYTES + group * 5 + 5 <= |input| && at + group * 8 + 8 <= |out| == |was|
    requires LineDone(input, line, group * 4, was, at)
    requires forall c | 0 <= c < 4 ::
               && out[at + group * 8 + c * 2]
                  == Byte(Unpack(input[line + HEADER_BYTES + group * 5 + c], input[line + HEADER_BYTES + group * 5 + 4], c) >> 2)
               && out[at + group * 8 + c * 2 + 1] == NEUTRAL
    requires forall k | 0 <= k < |out| && !(at + group * 8 <= k < at + group * 8 + 8) :: out[k] == was[k]
    ensures LineDone(input, line, (group + 1) * 4, out, at)
  {
    hide Unpack, Byte;
    forall column | 0 <= column < (group + 1) * 4
      ensures out[at + column * 2] == Byte(PixelAt(input, line, column) >> 2) && out[at + column * 2 + 1] == NEUTRAL
    {
      if column >= group * 4 {
        var c := column - group * 4;
        assert column / 4 == group && column % 4 == c;
        assert at + column * 2 == at + group * 8 + c * 2;
      }
    }
  }

  /** One line, group by group. */
  method DecodeLine(input: array<bv8>, line: nat, width: nat, out: array<bv8>, at: nat)
    requires width % 4 == 0 && line + HEADER_BYTES + (width + 3) / 4 * 5 <= input.Length
    requires at + width * 2 <= out.Length && input != out
    modifies out
    ensures LineDone(input[..], line, width, out[..], at)
    ensures forall k | 0 <= k < out.Length && !(at <= k < at + width * 2) :: out[k] == old(out[k])
  {
    hide Unpack, Byte, PixelAt;
    var group := 0;
    while group < width / 4
      invariant group <= width / 4
      invariant LineDone(input[..], line, group * 4, out[..], at)
      invariant forall k | 0 <= k < out.Length && !(at <= k < at + group * 8) :: out[k] == old(out[k])
    {
      ghost var was := out[..];
      DecodeGroup(input, line + HEADER_BYTES + group * 5, out, at + group * 8);
      GroupDone(input[..], line, group, was, out[..], at);
      group := group + 1;
    }
    assert group * 4 == width;
  }

  ghost predicate RowDone(input: seq<bv8>, g: Geometry, out: seq<bv8>, row: nat) {
    && LineAt(g, row) + HEADER_BYTES + (g.width + 3) / 4 * 5 <= |input|
    && OutAt(g, row, 0) + g.width * 2 <= |out|
    && LineDone(input, LineAt(g, row), g.width, out, OutAt(g, row, 0))
  }

  lemma RowStays(input: seq<bv8>, g: Geometry, was: seq<bv8>, out: seq<bv8>, row: nat, from: nat)
    requires RowDone(input, g, was, row) && row < from && |out| == |was|
    requires forall k | 0 <= k < |out| && k < OutAt(g, from, 0) :: out[k] == was[k]
    ensures RowDone(input, g, out, row)
  {
    MulMono(row + 1, g.width, from, g.width);
    assert (row + 1) * g.width == row * g.width + g.width;
    hide PixelAt, Byte;
  }

  /** The first `n` lines have good headers and are decoded; `out` is as it `was`
      after them. */
  ghost predicate RowsDone(input: seq<bv8>, g: Geometry, was: seq<bv8>, out: seq<bv8>, n: nat) {
    && |out| == |was|
    && (forall row | 0 <= row < n :: LineAt(g, row) < |input| && HeaderGood(input, g, row) && RowDone(input, g, out, row))
    && forall k | 0 <= k < |out| && k >= OutAt(g, n, 0) :: out[k] == was[k]
  }

  lemma NoRows(input: seq<bv8>, g: Geometry, out: seq<bv8>)
    ensures RowsDone(input, g, out, out, 0)
  {}

  lemma RowsMore(input: seq<bv8>, g: Geometry, was: seq<bv8>, mid: seq<bv8>, out: seq<bv8>, n: nat)
    requires RowsDone(input, g, was, mid, n) && |out| == |mid|
    requires LineAt(g, n) < |input| && HeaderGood(input, g, n) && RowDone(input, g, out, n)
    requires forall k | 0 <= k < |out| && !(OutAt(g, n, 0) <= k < OutAt(g, n, 0) + g.width * 2) :: out[k] == mid[k]
    ensures RowsDone(input, g, was, out, n + 1)
  {
    hide RowDone, HeaderGood;
    assert OutAt(g, n + 1, 0) == OutAt(g, n, 0) + g.width * 2 by { assert (n + 1) * g.width == n * g.width + g.width; }
    forall row | 0 <= row < n ensures RowDone(input, g, out, row) { RowStays(input, g, mid, out, row, n); }
  }

  method CheckHeader(input: array<bv8>, line: nat) returns (good: bool)
    requires line + HEADER_BYTES <= input.Length
    ensures good <==> input[line] == HEADER_WORD
  {
    var header := HeaderWord(input[line], input[line + 1], input[line + 2], input[line + 3]);
    HeaderLowByte(input[line], input[line + 1], input[line + 2], input[line + 3]);
    good := header & 0xff == HEADER_WORD as bv32;
  }

  /** ir_decode_raw10_to_yuyv: decodes `size` bytes of the buffer, line by line, up
      to a bad header.  `rows` is how many lines were decoded. */
  method Decode(input: array<bv8>, size: nat, g: Geometry, out: array<bv8>, outSize: nat) returns (ok: bool, ghost rows: nat)
    requires Words(g) && size <= input.Length < U64 / 2 && outSize <= out.Length && input != out
    modifies out
    ensures RowsDone(input[..], g, old(out[..]), out[..], rows)
    ensures !InBounds(g, size, outSize) ==> !ok && rows == 0
    ensures InBounds(g, size, outSize) ==>
              && rows <= g.height && (ok <==> rows == g.height)
              && (rows < g.height ==> LineAt(g, rows) < size && !HeaderGood(input[..], g, rows))
  {
    hide Accepts, InBounds, LineDone, RowDone, RowsDone, HeaderGood, LineAt, OutAt;
    AcceptsExactly(g, size, outSize);
    rows := 0;
    NoRows(input[..], g, out[..]);
    if !Accepts(g, size, outSize) { return false, 0; }
    var row := 0;
    while row < g.height
      invariant row == rows <= g.height
      invariant RowsDone(input[..], g, old(out[..]), out[..], row)
    {
      LineFits(g, size, outSize, row);
      var line := LineAt(g, row);
      var good := CheckHeader(input, line);
      HeaderMeans(input[..], g, row);
      if !good { return false, row; }
      ghost var mid := out[..];
      var at := OutAt(g, row, 0);
      DecodeLine(input, line, g.width, out, at);
      RowNow(input[..], g, out[..], row);
      RowsMore(input[..], g, old(out[..]), mid, out[..], row);
      row := row + 1;
      rows := row;
    }
    ok := true;
  }

  lemma HeaderMeans(input: seq<bv8>, g: Geometry, row: nat)
    requires LineAt(g, row) < |input|
    ensures HeaderGood(input, g, row) <==> input[LineAt(g, row)] == HEADER_WORD
  {}

  lemma RowNow(input: seq<bv8>, g: Geometry, out: seq<bv8>, row: nat)
    requires LineAt(g, row) + HEADER_BYTES + (g.width + 3) / 4 * 5 <= |input|
    requires OutAt(g, row, 0) + g.width * 2 <= |out| && LineDone(input, LineAt(g, row), g.width, out, OutAt(g, row, 0))
    ensures RowDone(input, g, out, row)
  {}

  /** Pixel `c` of a packed group whose bytes start at `group`. */
  predicate PackedAt(input: seq<bv8>, group: nat, pixels: seq<bv16>, c: nat) {
    && c < |pixels| == 4 && group + 4 < |input|
    && input[group + c] == PackTop(pixels[c]) && input[group + 4] == PackLows(pixels)
  }

  /** Decoding what was packed gives, for every pixel, its top eight bits. */
  lemma DecodesPacked(input: seq<bv8>, g: Geometry, out: seq<bv8>, row: nat, column: nat, pixels: seq<bv16>)
    requires RowDone(input, g, out, row) && column < g.width && |pixels| == 4 && forall k | 0 <= k < 4 :: pixels[k] <= 1023
    requires PackedAt(input, LineAt(g, row) + HEADER_BYTES + column / 4 * 5, pixels, column % 4)
    ensures OutAt(g, row, column) + 1 < |out|
    ensures out[OutAt(g, row, column)] == PackTop(pixels[column % 4]) && out[OutAt(g, row, column) + 1] == NEUTRAL
  {
    hide Unpack, Byte, PackTop, PackLows;
    UnpackPack(pixels, column % 4);
    assert OutAt(g, row, 0) + column * 2 == OutAt(g, row, column);
  }
}
