/** Decoding a raw framebuffer into an image (adb/device_screen.go). */
module Framebuffer {

  /** Where a channel lies in a pixel word. */
  datatype Field = Field(offset: bv32, length: bv32)

  datatype Meta = Meta(red: Field, green: Field, blue: Field, alpha: Field)

  datatype RGBA = RGBA(r: bv8, g: bv8, b: bv8, a: bv8)

  // ------------------------------------------------------------------- decoding

  // The operators are named so that a proof can use their laws without looking at bits.

  function And(x: bv32, y: bv32): bv32 {
    x & y
  }

  function Or(x: bv32, y: bv32): bv32 {
    x | y
  }

  /** Go's shifts of a uint32: a count of 32 or more gives 0. */
  function Shl(x: bv32, n: bv32): bv32 {
    if n >= 32 then 0 else x << n
  }

  function Shr(x: bv32, n: bv32): bv32 {
    if n >= 32 then 0 else x >> n
  }

  /** As many low ones as the field is long; the count 32 - length wraps as in the program. */
  function Ones(length: bv32): bv32 {
    Shr(0xffff_ffff, 32 - length)
  }

  function Mask(f: Field): bv32 {
    Shl(Ones(f.length), f.offset)
  }

  /** Truncation to a byte, moved to the top of the byte when the field is shorter than that. */
  function Widen(v: bv32, length: bv32): bv8 {
    var c := (v & 0xff) as bv8;
    if length < 8 then c << (8 - length) else c
  }

  function Channel(pixel: bv32, f: Field): bv8 {
    Widen(Shr(And(pixel, Mask(f)), f.offset), f.length)
  }

  function DecodePixel(pixel: bv32, m: Meta): RGBA {
    RGBA(Channel(pixel, m.red), Channel(pixel, m.green), Channel(pixel, m.blue),
         if m.alpha.length > 0 then Channel(pixel, m.alpha) else 0xff)
  }

  /** Byte number i of a pixel, moved to its place. */
  function Placed(b: bv8, i: nat): bv32 {
    if i == 0 then b as bv32
    else if i == 1 then (b as bv32) << 8
    else if i == 2 then (b as bv32) << 16
    else if i == 3 then (b as bv32) << 24
    else 0
  }

  /** The little-endian word of the first n bytes at an offset. */
  function Load(data: seq<bv8>, offset: nat, n: nat): bv32
    requires offset + n <= |data|
  {
    if n == 0 then 0 else Or(Load(data, offset, n - 1), Placed(data[offset + n - 1], n - 1))
  }

  /** The place of pixel (x, y) in the data, with b bytes a pixel. */
  function At(y: nat, x: nat, width: nat, b: nat): nat {
    (y * width + x) * b
  }

  /** Pixels follow each other, and each one lies inside an image that holds it. */
  lemma PixelInside(y: nat, x: nat, width: nat, height: nat, b: nat)
    requires y < height && x < width
    ensures At(y, x + 1, width, b) == At(y, x, width, b) + b
    ensures At(y, x, width, b) + b <= At(height, 0, width, b)
  {
    var n := y * width + x;
    assert (n + 1) * b == n * b + b;
    MulGrows(y + 1, height, width);
    assert (y + 1) * width == y * width + width;
    MulGrows(n + 1, height * width, b);
  }

  lemma MulGrows(p: nat, q: nat, b: nat)
    requires p <= q
    ensures p * b <= q * b
  {
  }

  lemma Rows(y: nat, width: nat, b: nat)
    ensures At(y, width, width, b) == At(y + 1, 0, width, b) && At(0, 0, width, b) == 0
    ensures At(y, 0, width, b) == y * width * b
  {
    assert y * width + width == (y + 1) * width;
  }

  /** ok is false when the program indexes past the end of the data. */
  method DecodeFramebuffer(data: seq<bv8>, width: nat, height: nat, bpp: nat, m: Meta)
    returns (ok: bool, img: array2<RGBA>)
    ensures ok <==> |data| >= height * width * (bpp / 8)
    ensures ok ==> img.Length0 == height && img.Length1 == width
    ensures ok ==> forall y, x :: 0 <= y < height && 0 <= x < width ==> Shown(data, width, bpp / 8, m, y, x, img[y, x])
  {
    hide DecodePixel, Load, At;
    var b := bpp / 8;
    img := new RGBA[height, width]((i, j) => RGBA(0, 0, 0, 0));
    Rows(height, width, b);
    for y := 0 to height
      invariant At(y, 0, width, b) <= |data|
      invariant forall v, u :: 0 <= v < y && 0 <= u < width ==> Shown(data, width, b, m, v, u, img[v, u])
    {
      for x := 0 to width
        invariant At(y, x, width, b) <= |data|
        invariant forall v, u :: 0 <= v < y && 0 <= u < width ==> Shown(data, width, b, m, v, u, img[v, u])
        invariant forall u :: 0 <= u < x ==> Shown(data, width, b, m, y, u, img[y, u])
      {
        PixelInside(y, x, width, height, b);
        var inside, pixel := LoadPixel(data, At(y, x, width, b), b);
        if !inside {
          return false, img;
        }
        img[y, x] := DecodePixel(pixel, m);
      }
      Rows(y, width, b);
    }
    ok := true;
  }

  /** A pixel of the image shows the bytes at its place. */
  ghost predicate Shown(data: seq<bv8>, width: nat, b: nat, m: Meta, y: nat, x: nat, p: RGBA) {
    var at := At(y, x, width, b);
    at + b <= |data| && p == DecodePixel(Load(data, at, b), m)
  }

  /** The innermost loop: the bytes of one pixel, or an index past the end. */
  method LoadPixel(data: seq<bv8>, offset: nat, b: nat) returns (inside: bool, pixel: bv32)
    requires offset <= |data|
    ensures inside <==> offset + b <= |data|
    ensures inside ==> pixel == Load(data, offset, b)
  {
    hide Placed, Or;
    pixel := 0;
    for i := 0 to b
      invariant offset + i <= |data| && pixel == Load(data, offset, i)
    {
      if offset + i >= |data| {
        return false, pixel;
      }
      pixel := Or(pixel, Placed(data[offset + i], i));
    }
    return true, pixel;
  }

  // -------------------------------------------------------------------- packing

  /** The field holds at most 8 bits and lies inside a pixel of the given number of bits. */
  predicate Fits(f: Field, bits: bv32) {
    f.length <= 8 && f.offset <= bits <= 32 && f.length <= bits - f.offset
  }

  predicate Before(f: Field, g: Field) {
    f.offset + f.length <= g.offset
  }

  predicate Disjoint(f: Field, g: Field) {
    Before(f, g) || Before(g, f)
  }

  /** The channel is a multiple of 2^(8 - length): nothing is lost when it is cut to its field. */
  predicate Exact(c: bv8, f: Field)
    requires f.length <= 8
  {
    (c >> (8 - f.length)) << (8 - f.length) == c
  }

  /** The top bits of a channel. */
  function Narrow(c: bv8, length: bv32): bv32
    requires length <= 8
  {
    (c as bv32) >> (8 - length)
  }

  /** A channel moved into its field. */
  function Place(c: bv8, f: Field): bv32
    requires f.length <= 8
  {
    Shl(Narrow(c, f.length), f.offset)
  }

  // Laws of the operators, each on its own.

  lemma ShlInside(x: bv32, y: bv32, n: bv32)
    requires And(x, y) == x
    ensures And(Shl(x, n), Shl(y, n)) == Shl(x, n)
  {
  }

  /** v has no bits from `length` on. */
  predicate Short(v: bv32, length: bv32) {
    length <= 8 && v & (0xffff_ffff << length) == 0
  }

  lemma ShrShl(v: bv32, f: Field)
    requires Fits(f, 32) && Short(v, f.length)
    ensures Shr(Shl(v, f.offset), f.offset) == v
  {
  }

  lemma NarrowLaws(c: bv8, length: bv32)
    requires length <= 8
    ensures And(Narrow(c, length), Ones(length)) == Narrow(c, length)
    ensures Short(Narrow(c, length), length) && Short(Ones(length), length)
  {
  }

  lemma WidenNarrow(c: bv8, f: Field)
    requires f.length <= 8 && Exact(c, f)
    ensures Widen(Narrow(c, f.length), f.length) == c
  {
  }

  lemma AndOr(a: bv32, b: bv32, mask: bv32)
    requires And(b, mask) == 0
    ensures And(Or(a, b), mask) == And(a, mask)
  {
  }

  lemma BelowMisses(x: bv32, f: Field, y: bv32, g: Field)
    requires Fits(f, 32) && Fits(g, 32) && Before(f, g) && Short(x, f.length)
    ensures And(Shl(x, f.offset), Shl(y, g.offset)) == 0 && And(Shl(y, g.offset), Shl(x, f.offset)) == 0
  {
  }

  lemma OrMisses(a: bv32, b: bv32, mask: bv32)
    requires And(a, mask) == 0 && And(b, mask) == 0
    ensures And(Or(a, b), mask) == 0
  {
  }

  lemma OrAssoc(a: bv32, b: bv32, c: bv32)
    ensures Or(a, Or(b, c)) == Or(Or(a, b), c)
  {
  }

  lemma OrComm(a: bv32, b: bv32)
    ensures Or(a, b) == Or(b, a)
  {
  }

  lemma OrTurns(a: bv32, b: bv32, c: bv32)
    ensures Or(a, Or(b, c)) == Or(b, Or(a, c)) && Or(a, Or(b, c)) == Or(c, Or(a, b))
  {
    hide Or;
    OrAssoc(a, b, c);
    OrAssoc(b, a, c);
    OrComm(a, b);
    OrComm(Or(a, b), c);
  }

  lemma FitsWord(f: Field, bits: bv32)
    requires Fits(f, bits)
    ensures Fits(f, 32) && f.length <= 8
  {
  }

  // What follows uses only those laws.

  /** A channel comes back from its own field, whatever lies in the others. */
  lemma ChannelReadsBack(c: bv8, f: Field, others: bv32)
    requires f.length <= 8 && Fits(f, 32) && Exact(c, f) && And(others, Mask(f)) == 0
    ensures Channel(Or(Place(c, f), others), f) == c
  {
    hide Shl, Shr, And, Or, Ones, Widen, Narrow, Fits, Exact, Short;
    AndOr(Place(c, f), others, Mask(f));
    NarrowLaws(c, f.length);
    ShlInside(Narrow(c, f.length), Ones(f.length), f.offset);
    ShrShl(Narrow(c, f.length), f);
    WidenNarrow(c, f);
  }

  lemma PlaceMisses(c: bv8, f: Field, g: Field)
    requires f.length <= 8 && g.length <= 8 && Fits(f, 32) && Fits(g, 32) && Disjoint(f, g)
    ensures And(Place(c, f), Mask(g)) == 0
  {
    hide Shl, Shr, And, Ones, Narrow, Fits, Before, Short;
    NarrowLaws(c, f.length);
    NarrowLaws(0, g.length);
    if Before(f, g) {
      BelowMisses(Narrow(c, f.length), f, Ones(g.length), g);
    } else {
      BelowMisses(Ones(g.length), g, Narrow(c, f.length), f);
    }
  }

  /** Pairwise disjoint colour fields inside the pixel, and no alpha field, as the framebuffer header has it. */
  predicate Layout(m: Meta, bits: bv32) {
    && Fits(m.red, bits) && Fits(m.green, bits) && Fits(m.blue, bits)
    && m.red.length <= 8 && m.green.length <= 8 && m.blue.length <= 8
    && Disjoint(m.red, m.green) && Disjoint(m.red, m.blue) && Disjoint(m.green, m.blue)
    && m.alpha.length == 0
  }

  function PackPixel(p: RGBA, m: Meta): bv32
    requires m.red.length <= 8 && m.green.length <= 8 && m.blue.length <= 8
  {
    Or(Place(p.r, m.red), Or(Place(p.g, m.green), Place(p.b, m.blue)))
  }

  /** Alpha 255 and channels that fit their fields exactly. */
  predicate Representable(p: RGBA, m: Meta)
    requires m.red.length <= 8 && m.green.length <= 8 && m.blue.length <= 8
  {
    Exact(p.r, m.red) && Exact(p.g, m.green) && Exact(p.b, m.blue) && p.a == 0xff
  }

  lemma OneOfThree(c: bv8, f: Field, d: bv8, g: Field, e: bv8, h: Field)
    requires f.length <= 8 && g.length <= 8 && h.length <= 8 && Fits(f, 32) && Fits(g, 32) && Fits(h, 32)
    requires Disjoint(g, f) && Disjoint(h, f) && Exact(c, f)
    ensures Channel(Or(Place(c, f), Or(Place(d, g), Place(e, h))), f) == c
  {
    hide Place, Mask, Channel, Fits, Exact, And, Or, Disjoint;
    PlaceMisses(d, g, f);
    PlaceMisses(e, h, f);
    OrMisses(Place(d, g), Place(e, h), Mask(f));
    ChannelReadsBack(c, f, Or(Place(d, g), Place(e, h)));
  }

  /** A packed pixel decodes to itself. */
  lemma PixelReadsBack(p: RGBA, m: Meta, bits: bv32)
    requires Layout(m, bits) && Representable(p, m)
    ensures DecodePixel(PackPixel(p, m), m) == p
  {
    hide Place, Channel, Fits, Exact, Or, Before;
    FitsWord(m.red, bits);
    FitsWord(m.green, bits);
    FitsWord(m.blue, bits);
    OrTurns(Place(p.r, m.red), Place(p.g, m.green), Place(p.b, m.blue));
    OneOfThree(p.r, m.red, p.g, m.green, p.b, m.blue);
    OneOfThree(p.g, m.green, p.r, m.red, p.b, m.blue);
    OneOfThree(p.b, m.blue, p.r, m.red, p.g, m.green);
  }

  // ------------------------------------------------------------------ bit by bit

  function Bit(x: bv32, n: bv32): bv32
    requires n < 32
  {
    (x >> n) & 1
  }

  /** The field lies inside the word. */
  predicate Inside(f: Field) {
    f.length <= 32 && f.offset <= 32 - f.length
  }

  /** Bit j of a channel: short fields fill the byte from the top, long ones are cut to their low byte. */
  function FieldBit(pixel: bv32, f: Field, j: bv32): bv32
    requires Inside(f) && j < 8
  {
    if f.length < 8 then
      if j < 8 - f.length then 0 else Bit(pixel, f.offset + (j - (8 - f.length)))
    else Bit(pixel, f.offset + j)
  }

  lemma MaskBit(f: Field, k: bv32)
    requires Inside(f) && k < f.length
    ensures Bit(Mask(f), f.offset + k) == 1
  {
  }

  lemma AndBit(x: bv32, y: bv32, k: bv32)
    requires k < 32 && Bit(y, k) == 1
    ensures Bit(And(x, y), k) == Bit(x, k)
  {
  }

  lemma ShrBit(x: bv32, n: bv32, k: bv32)
    requires k < 32 && n < 32 - k
    ensures Bit(Shr(x, n), k) == Bit(x, n + k)
  {
  }

  lemma WidenBit(v: bv32, length: bv32, j: bv32)
    requires length <= 32 && j < 8
    ensures Bit(Widen(v, length) as bv32, j) ==
            if length >= 8 then Bit(v, j) else if j < 8 - length then 0 else Bit(v, j - (8 - length))
  {
  }

  function FieldValue(pixel: bv32, f: Field): bv32 {
    Shr(And(pixel, Mask(f)), f.offset)
  }

  /** Bit k of the value of a field. */
  lemma FieldValueBit(pixel: bv32, f: Field, k: bv32)
    requires Inside(f) && k < f.length
    ensures Bit(FieldValue(pixel, f), k) == Bit(pixel, f.offset + k)
  {
    hide Shr, And, Bit, Mask;
    MaskBit(f, k);
    ShrBit(And(pixel, Mask(f)), f.offset, k);
    AndBit(pixel, Mask(f), f.offset + k);
  }

  /** Bit j of the byte made of a value. */
  function ByteBit(v: bv32, length: bv32, j: bv32): bv32
    requires j < 8
  {
    Bit(Widen(v, length) as bv32, j)
  }

  lemma LongBit(v: bv32, length: bv32, j: bv32)
    requires 8 <= length <= 32 && j < 8
    ensures ByteBit(v, length, j) == Bit(v, j) && j < length
  {
    WidenBit(v, length, j);
  }

  lemma ShortBit(v: bv32, length: bv32, j: bv32)
    requires length < 8 && 8 - length <= j < 8
    ensures ByteBit(v, length, j) == Bit(v, j - (8 - length)) && j - (8 - length) < length
  {
    WidenBit(v, length, j);
  }

  lemma FilledBit(v: bv32, length: bv32, j: bv32)
    requires length < 8 && j < 8 - length
    ensures ByteBit(v, length, j) == 0
  {
    WidenBit(v, length, j);
  }

  /** Bit j of a channel is the bit of the pixel that belongs there, whatever the other bits of the pixel are. */
  lemma ChannelBits(pixel: bv32, f: Field, j: bv32)
    requires Inside(f) && j < 8
    ensures ByteBit(FieldValue(pixel, f), f.length, j) == FieldBit(pixel, f, j)
    ensures Channel(pixel, f) == Widen(FieldValue(pixel, f), f.length)
  {
    hide Shr, And, Widen, Bit, Mask, FieldValue, ByteBit;
    assert Channel(pixel, f) == Widen(FieldValue(pixel, f), f.length) by { ChannelIs(pixel, f); }
    var v := FieldValue(pixel, f);
    if f.length >= 8 {
      LongBit(v, f.length, j);
      FieldValueBit(pixel, f, j);
    } else if j >= 8 - f.length {
      ShortBit(v, f.length, j);
      FieldValueBit(pixel, f, j - (8 - f.length));
    } else {
      FilledBit(v, f.length, j);
    }
  }

  lemma ChannelIs(pixel: bv32, f: Field)
    ensures Channel(pixel, f) == Widen(FieldValue(pixel, f), f.length)
  {
    hide Shr, And, Widen, Mask;
  }

  /** Every decoded pixel shows its four fields bit by bit, and alpha 255 when the pixel has no alpha field. */
  lemma DecodedBits(pixel: bv32, m: Meta, j: bv32)
    requires Inside(m.red) && Inside(m.green) && Inside(m.blue) && Inside(m.alpha) && j < 8
    ensures var p := DecodePixel(pixel, m);
            && Bit(p.r as bv32, j) == FieldBit(pixel, m.red, j)
            && Bit(p.g as bv32, j) == FieldBit(pixel, m.green, j)
            && Bit(p.b as bv32, j) == FieldBit(pixel, m.blue, j)
            && (if m.alpha.length == 0 then p.a == 0xff else Bit(p.a as bv32, j) == FieldBit(pixel, m.alpha, j))
  {
    hide Channel, FieldBit, Bit;
    ChannelBits(pixel, m.red, j);
    ChannelBits(pixel, m.green, j);
    ChannelBits(pixel, m.blue, j);
    ChannelBits(pixel, m.alpha, j);
  }

  // ---------------------------------------------------------------- whole images

  function ByteOf(p: bv32, i: nat): bv8 {
    ((if i == 0 then p else if i == 1 then p >> 8 else if i == 2 then p >> 16 else p >> 24) & 0xff) as bv8
  }

  /** The n low bytes of a pixel word, lowest first. */
  function Store(p: bv32, n: nat): (s: seq<bv8>)
    ensures |s| == n
  {
    seq(n, i requires 0 <= i < n => ByteOf(p, i))
  }

  function Bits(n: nat): bv32 {
    if n == 1 then 8 else if n == 2 then 16 else if n == 3 then 24 else 32
  }

  lemma Join1(p: bv32)
    requires Shr(p, 8) == 0
    ensures Placed(ByteOf(p, 0), 0) == p
  {
  }

  lemma Join2(p: bv32)
    requires Shr(p, 16) == 0
    ensures Or(Placed(ByteOf(p, 0), 0), Placed(ByteOf(p, 1), 1)) == p
  {
  }

  lemma Join3(p: bv32)
    requires Shr(p, 24) == 0
    ensures Or(Or(Placed(ByteOf(p, 0), 0), Placed(ByteOf(p, 1), 1)), Placed(ByteOf(p, 2), 2)) == p
  {
  }

  lemma Join4(p: bv32)
    ensures Or(Or(Or(Placed(ByteOf(p, 0), 0), Placed(ByteOf(p, 1), 1)), Placed(ByteOf(p, 2), 2)), Placed(ByteOf(p, 3), 3)) == p
  {
  }

  lemma OrZero(x: bv32)
    ensures Or(0, x) == x
  {
  }

  lemma LoadGrows(data: seq<bv8>, at: nat, n: nat, i: nat, p: bv32)
    requires i < n && at + n <= |data| && data[at..at + n] == Store(p, n)
    ensures Load(data, at, i + 1) == Or(Load(data, at, i), Placed(ByteOf(p, i), i))
  {
    hide Or, Placed, ByteOf;
    assert data[at + i] == data[at..at + n][i];
  }

  lemma LoadNothing(data: seq<bv8>, at: nat)
    requires at <= |data|
    ensures Load(data, at, 0) == 0
  {
  }

  /** Storing a pixel that fits n bytes and loading it gives it back. */
  lemma LoadStore(data: seq<bv8>, at: nat, n: nat, p: bv32)
    requires 1 <= n <= 4 && at + n <= |data| && data[at..at + n] == Store(p, n) && Shr(p, Bits(n)) == 0
    ensures Load(data, at, n) == p
  {
    hide Or, Placed, ByteOf, Shr, Load, Store;
    LoadNothing(data, at);
    OrZero(Placed(ByteOf(p, 0), 0));
    LoadGrows(data, at, n, 0, p);
    if n == 1 {
      Join1(p);
    } else {
      LoadGrows(data, at, n, 1, p);
      if n == 2 {
        Join2(p);
      } else {
        LoadGrows(data, at, n, 2, p);
        if n == 3 {
          Join3(p);
        } else {
          LoadGrows(data, at, n, 3, p);
          Join4(p);
        }
      }
    }
  }

  lemma ShlFits(v: bv32, f: Field, bits: bv32)
    requires Fits(f, bits) && Short(v, f.length)
    ensures Shr(Shl(v, f.offset), bits) == 0
  {
  }

  lemma PlaceFits(c: bv8, f: Field, bits: bv32)
    requires f.length <= 8 && Fits(f, bits)
    ensures Shr(Place(c, f), bits) == 0
  {
    hide Shl, Shr, Narrow, Fits, Short, Ones, And;
    NarrowLaws(c, f.length);
    ShlFits(Narrow(c, f.length), f, bits);
  }

  lemma OrFits(a: bv32, b: bv32, bits: bv32)
    requires Shr(a, bits) == 0 && Shr(b, bits) == 0
    ensures Shr(Or(a, b), bits) == 0
  {
  }

  lemma PackFits(p: RGBA, m: Meta, bits: bv32)
    requires Layout(m, bits)
    ensures Shr(PackPixel(p, m), bits) == 0
  {
    hide Place, Fits, Or, Shr, Disjoint;
    var r, g, b := Place(p.r, m.red), Place(p.g, m.green), Place(p.b, m.blue);
    PlaceFits(p.r, m.red, bits);
    PlaceFits(p.g, m.green, bits);
    PlaceFits(p.b, m.blue, bits);
    OrFits(g, b, bits);
    OrFits(r, Or(g, b), bits);
  }

  /** A row-major image as n bytes a pixel. */
  function PackAll(img: seq<RGBA>, m: Meta, n: nat): (data: seq<bv8>)
    requires m.red.length <= 8 && m.green.length <= 8 && m.blue.length <= 8
    ensures |data| == |img| * n
  {
    if img == [] then [] else Store(PackPixel(img[0], m), n) + PackAll(img[1..], m, n)
  }

  lemma {:induction false} PackedAt(img: seq<RGBA>, m: Meta, n: nat, k: nat)
    requires m.red.length <= 8 && m.green.length <= 8 && m.blue.length <= 8 && k < |img|
    ensures 0 <= k * n && k * n + n <= |PackAll(img, m, n)|
    ensures PackAll(img, m, n)[k * n..k * n + n] == Store(PackPixel(img[k], m), n)
  {
    hide PackPixel, Store;
    var first, tail := Store(PackPixel(img[0], m), n), PackAll(img[1..], m, n);
    assert PackAll(img, m, n) == first + tail;
    if k == 0 {
      assert (first + tail)[..n] == first;
    } else {
      PackedAt(img[1..], m, n, k - 1);
      var at := (k - 1) * n;
      assert k * n == at + n;
      assert (first + tail)[at + n..at + n + n] == tail[at..at + n];
    }
  }

  /** Every pixel of a packed image, of any size and of 1 to 4 bytes a pixel, decodes to itself. */
  lemma ImageReadsBack(img: seq<RGBA>, m: Meta, n: nat, k: nat)
    requires 1 <= n <= 4 && Layout(m, Bits(n)) && k < |img| && Representable(img[k], m)
    ensures 0 <= k * n && k * n + n <= |PackAll(img, m, n)|
    ensures DecodePixel(Load(PackAll(img, m, n), k * n, n), m) == img[k]
  {
    hide PackPixel, DecodePixel, Store, Layout, Representable, PackAll;
    LayoutIsShort(m, Bits(n));
    PackedAt(img, m, n, k);
    PackFits(img[k], m, Bits(n));
    LoadStore(PackAll(img, m, n), k * n, n, PackPixel(img[k], m));
    PixelReadsBack(img[k], m, Bits(n));
  }

  lemma LayoutIsShort(m: Meta, bits: bv32)
    requires Layout(m, bits)
    ensures m.red.length <= 8 && m.green.length <= 8 && m.blue.length <= 8
  {
  }

  /** Decoding a packed image of any width and height restores it. */
  method DecodePacked(img: seq<RGBA>, width: nat, height: nat, n: nat, m: Meta) returns (out: array2<RGBA>)
    requires 1 <= n <= 4 && Layout(m, Bits(n)) && |img| == height * width
    requires forall k :: 0 <= k < |img| ==> Representable(img[k], m)
    ensures out.Length0 == height && out.Length1 == width
    ensures forall y, x :: 0 <= y < height && 0 <= x < width ==>
              Index(y, x, width) < |img| && out[y, x] == img[Index(y, x, width)]
  {
    hide DecodePixel, PackAll, Layout, Representable, Load, Bits;
    LayoutIsShort(m, Bits(n));
    var data := PackAll(img, m, n);
    var ok;
    ok, out := DecodeFramebuffer(data, width, height, 8 * n, m);
    forall y, x | 0 <= y < height && 0 <= x < width
      ensures Index(y, x, width) < |img| && out[y, x] == img[Index(y, x, width)]
    {
      assert Shown(data, width, n, m, y, x, out[y, x]);
      IndexInside(y, x, width, height);
      ImageReadsBack(img, m, n, Index(y, x, width));
    }
  }

  /** Row-major order. */
  function Index(y: nat, x: nat, width: nat): nat {
    y * width + x
  }

  lemma IndexInside(y: nat, x: nat, width: nat, height: nat)
    requires y < height && x < width
    ensures Index(y, x, width) < height * width
  {
    MulGrows(y + 1, height, width);
    assert (y + 1) * width == y * width + width;
  }
}
