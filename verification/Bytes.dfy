/** Bytes, 32-bit words and their little-endian layout, shared by every codec of the bridge. */
module Bytes {

  const WORD: int := 0x1_0000_0000

  type byte = x: int | 0 <= x < 256

  type u32 = x: int | 0 <= x < 0x1_0000_0000

  function Min(a: int, b: int): int {
    if a < b then a else b
  }

  /** Go's conversion of a non-negative length to uint32: the high bits are dropped. */
  function ToU32(n: nat): u32 {
    n % WORD
  }

  /** binary.LittleEndian.PutUint32 */
  function LE32(n: u32): (s: seq<byte>)
    ensures |s| == 4
  {
    [n % 256, n / 0x100 % 256, n / 0x1_0000 % 256, n / 0x100_0000]
  }

  /** binary.LittleEndian.Uint32 */
  function FromLE32(s: seq<byte>): u32
    requires |s| == 4
  {
    var b0: int, b1: int, b2: int, b3: int := s[0], s[1], s[2], s[3];
    b0 + 0x100 * b1 + 0x1_0000 * b2 + 0x100_0000 * b3
  }

  method PutUint32(chunk: array<byte>, at: nat, n: u32)
    requires at + 4 <= chunk.Length
    modifies chunk
    ensures chunk[at..at + 4] == LE32(n)
    ensures forall k :: 0 <= k < chunk.Length && !(at <= k < at + 4) ==> chunk[k] == old(chunk[k])
  {
    chunk[at] := n % 256;
    chunk[at + 1] := n / 0x100 % 256;
    chunk[at + 2] := n / 0x1_0000 % 256;
    chunk[at + 3] := n / 0x100_0000;
  }

  lemma LowByte(b: int, r: nat)
    requires 0 <= b < 256
    ensures (b + 0x100 * r) % 0x100 == b && (b + 0x100 * r) / 0x100 == r
  {
  }

  lemma Shifted(n: nat)
    ensures n / 0x1_0000 == n / 0x100 / 0x100 && n / 0x100_0000 == n / 0x1_0000 / 0x100
  {
  }

  lemma WordReadsBack(n: u32)
    ensures FromLE32(LE32(n)) == n
  {
    Shifted(n);
    var m, k := n / 0x100, n / 0x1_0000;
    assert n == n % 0x100 + 0x100 * m && m == m % 0x100 + 0x100 * k;
  }

  lemma BytesReadBack(s: seq<byte>)
    requires |s| == 4
    ensures LE32(FromLE32(s)) == s
  {
    var b0: int, b1: int, b2: int, b3: int := s[0], s[1], s[2], s[3];
    var r2 := b2 + 0x100 * b3;
    var r1 := b1 + 0x100 * r2;
    var m := b0 + 0x100 * r1;
    assert FromLE32(s) == m;
    LowByte(b0, r1);
    LowByte(b1, r2);
    LowByte(b2, b3);
    Shifted(m);
  }

  /** The two directions of the word codec: each undoes the other. */
  lemma WordCodec(n: u32, s: seq<byte>)
    requires |s| == 4
    ensures FromLE32(LE32(n)) == n
    ensures LE32(FromLE32(s)) == s
  {
    hide LE32, FromLE32;
    WordReadsBack(n);
    BytesReadBack(s);
  }

  /** The bytes of a text in ASCII. */
  function Ascii(text: string): (s: seq<byte>)
    requires forall i :: 0 <= i < |text| ==> text[i] < 128 as char
    ensures |s| == |text|
  {
    seq(|text|, i requires 0 <= i < |text| => text[i] as int)
  }

  /** Decimal digits, as %d prints them. */
  function Decimal(n: nat): (s: seq<byte>)
    ensures 1 <= |s| <= n + 1
  {
    if n < 10 then [48 + n] else Decimal(n / 10) + [48 + n % 10]
  }

  /** The number that decimal digits stand for. */
  function FromDecimal(s: seq<byte>): int {
    if s == [] then 0
    else
      var last: int := s[|s| - 1];
      10 * FromDecimal(s[..|s| - 1]) + last - 48
  }

  lemma {:induction false} DecimalReadsBack(n: nat)
    ensures FromDecimal(Decimal(n)) == n
    ensures forall k :: 0 <= k < |Decimal(n)| ==> 48 <= Decimal(n)[k] <= 57
  {
    if n < 10 {
      assert Decimal(n)[..0] == [];
    } else {
      DecimalReadsBack(n / 10);
      assert Decimal(n)[..|Decimal(n)| - 1] == Decimal(n / 10);
    }
  }

  /** Concatenation of a list of byte strings. */
  function Flatten(parts: seq<seq<byte>>): (s: seq<byte>) {
    if parts == [] then [] else parts[0] + Flatten(parts[1..])
  }

  lemma {:induction false} FlattenAppend(a: seq<seq<byte>>, b: seq<seq<byte>>)
    ensures Flatten(a + b) == Flatten(a) + Flatten(b)
  {
    if a == [] {
      assert a + b == b;
    } else {
      FlattenAppend(a[1..], b);
      assert (a + b)[1..] == a[1..] + b && (a + b)[0] == a[0];
      assert Flatten(a + b) == a[0] + (Flatten(a[1..]) + Flatten(b));
    }
  }

  lemma FlattenSnoc(a: seq<seq<byte>>, last: seq<byte>)
    ensures Flatten(a + [last]) == Flatten(a) + last
  {
    FlattenAppend(a, [last]);
    assert Flatten([last]) == last;
  }
}
