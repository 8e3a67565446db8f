/** The ADB message packet: its checksum, its magic word and its printer (tcpusb/packet.go). */
module Packets {
  import opened Bytes
  import opened Wrappers

  const A_SYNC: u32 := 0x434e5953
  const A_CNXN: u32 := 0x4e584e43
  const A_OPEN: u32 := 0x4e45504f
  const A_OKAY: u32 := 0x59414b4f
  const A_CLSE: u32 := 0x45534c43
  const A_WRTE: u32 := 0x45545257
  const A_AUTH: u32 := 0x48545541

  const HEADER: nat := 24

  /** Data is nil in the program exactly when it is empty here: the reader allocates it only for a positive length. */
  datatype Packet = Packet(command: u32, arg0: u32, arg1: u32, length: u32, check: u32, magic: u32, data: seq<byte>)

  // ---------------------------------------------------------------- checksum

  /** The sum of the bytes with no bound on its size. */
  function ByteSum(data: seq<byte>): nat {
    if data == [] then 0 else ByteSum(data[..|data| - 1]) + data[|data| - 1]
  }

  /** The checksum as defined by the protocol: the byte sum modulo 2^32. */
  function Checksum(data: seq<byte>): u32 {
    ByteSum(data) % WORD
  }

  method ComputeChecksum(data: seq<byte>) returns (sum: u32)
    ensures sum == Checksum(data)
  {
    sum := 0;
    for i := 0 to |data|
      invariant sum == ByteSum(data[..i]) % WORD
    {
      assert data[..i + 1][..i] == data[..i];
      sum := (sum + data[i]) % WORD;
    }
    assert data[..|data|] == data;
  }

  lemma {:induction false} ByteSumAppend(a: seq<byte>, b: seq<byte>)
    ensures ByteSum(a + b) == ByteSum(a) + ByteSum(b)
  {
    if b == [] {
      assert a + b == a;
    } else {
      var front := b[..|b| - 1];
      ByteSumAppend(a, front);
      assert (a + b)[..|a + b| - 1] == a + front;
    }
  }

  lemma ChecksumAdditive(a: seq<byte>, b: seq<byte>)
    ensures Checksum(a + b) == (Checksum(a) + Checksum(b)) % WORD
  {
    hide ByteSum;
    ByteSumAppend(a, b);
    ModAdds(ByteSum(a), ByteSum(b));
  }

  lemma ModAdds(x: nat, y: nat)
    ensures (x + y) % WORD == (x % WORD + y % WORD) % WORD
  {
    var q := x / WORD + y / WORD;
    assert x + y == x % WORD + y % WORD + WORD * q;
  }

  lemma {:induction false} ByteSumBound(data: seq<byte>)
    ensures ByteSum(data) <= 255 * |data|
    ensures (forall k :: 0 <= k < |data| ==> data[k] == 255) ==> ByteSum(data) == 255 * |data|
  {
    if data == [] {
    } else {
      ByteSumBound(data[..|data| - 1]);
    }
  }

  /** No wrap-around up to 16843009 bytes, and that bound is the largest one. */
  lemma ChecksumIsTrueSum(data: seq<byte>)
    ensures |data| <= 16843009 ==> Checksum(data) == ByteSum(data)
    ensures |data| == 16843010 && (forall k :: 0 <= k < |data| ==> data[k] == 255) ==> Checksum(data) != ByteSum(data)
  {
    ByteSumBound(data);
  }

  /** Altering one byte always alters the checksum, whatever the length. */
  lemma ChecksumSeesOneByte(data: seq<byte>, i: nat, b: byte)
    requires i < |data| && b != data[i]
    ensures Checksum(data[i := b]) != Checksum(data)
  {
    var left, right := data[..i], data[i + 1..];
    assert data == left + [data[i]] + right;
    assert data[i := b] == left + [b] + right;
    ByteSumAppend(left + [data[i]], right);
    ByteSumAppend(left, [data[i]]);
    ByteSumAppend(left + [b], right);
    ByteSumAppend(left, [b]);
    assert [b][..0] == [] && [data[i]][..0] == [];
    assert ByteSum([b]) == b && ByteSum([data[i]]) == data[i];
  }

  // ------------------------------------------------------------------- magic

  /** Exclusive or of the low `bits` bits, bit by bit. */
  function Xor(a: nat, b: nat, bits: nat): (r: nat) {
    if bits == 0 then 0
    else (if a % 2 == b % 2 then 0 else 1) + 2 * Xor(a / 2, b / 2, bits - 1)
  }

  function Pow2(n: nat): (p: nat)
    ensures p >= 1
  {
    if n == 0 then 1 else 2 * Pow2(n - 1)
  }

  lemma {:induction false} XorAllOnes(a: nat, bits: nat)
    requires a < Pow2(bits)
    ensures Xor(a, Pow2(bits) - 1, bits) == Pow2(bits) - 1 - a
  {
    if bits == 0 {
    } else {
      assert (Pow2(bits) - 1) / 2 == Pow2(bits - 1) - 1;
      XorAllOnes(a / 2, bits - 1);
    }
  }

  lemma Pow2Is32()
    ensures Pow2(32) == WORD
  {
    assert Pow2(8) == 256;
    assert Pow2(16) == 0x1_0000;
    assert Pow2(24) == 0x100_0000;
  }

  function Magic(command: u32): (m: u32)
    ensures m == 0xffff_ffff - command
  {
    Pow2Is32();
    XorAllOnes(command, 32);
    Xor(command, 0xffff_ffff, 32)
  }

  // ---------------------------------------------------------------- printing

  function Header(command: u32, arg0: u32, arg1: u32, length: u32, check: u32): (h: seq<byte>)
    ensures |h| == HEADER
  {
    LE32(command) + LE32(arg0) + LE32(arg1) + LE32(length) + LE32(check) + LE32(Magic(command))
  }

  /** What Assemble returns; None is the slice panic of a chunk too short for its header. */
  function Assembled(command: u32, arg0: u32, arg1: u32, data: seq<byte>): Option<seq<byte>> {
    var length := ToU32(|data|);
    if ToU32(HEADER + length) < HEADER then None
    else Some(Header(command, arg0, arg1, length, Checksum(data)) + data[..length])
  }

  method PutHeader(chunk: array<byte>, command: u32, arg0: u32, arg1: u32, length: u32, check: u32)
    requires HEADER <= chunk.Length
    modifies chunk
    ensures chunk[..HEADER] == Header(command, arg0, arg1, length, check)
  {
    PutUint32(chunk, 0, command);
    PutUint32(chunk, 4, arg0);
    assert chunk[0..4] == LE32(command);
    PutUint32(chunk, 8, arg1);
    assert chunk[0..8] == LE32(command) + LE32(arg0);
    PutUint32(chunk, 12, length);
    assert chunk[0..12] == LE32(command) + LE32(arg0) + LE32(arg1);
    PutUint32(chunk, 16, check);
    assert chunk[0..16] == LE32(command) + LE32(arg0) + LE32(arg1) + LE32(length);
    PutUint32(chunk, 20, Magic(command));
    assert chunk[0..20] == LE32(command) + LE32(arg0) + LE32(arg1) + LE32(length) + LE32(check);
    assert chunk[..HEADER] == chunk[0..20] + chunk[20..24];
  }

  method Assemble(command: u32, arg0: u32, arg1: u32, data: seq<byte>) returns (r: Option<seq<byte>>)
    ensures r == Assembled(command, arg0, arg1, data)
  {
    hide Header, Checksum, Magic;
    var length := ToU32(|data|);
    var check := ComputeChecksum(data);
    var size := ToU32(HEADER + length);
    if size < HEADER {
      return None;
    }
    var chunk := new byte[size](_ => 0);
    PutHeader(chunk, command, arg0, arg1, length, check);
    ghost var head := chunk[..HEADER];
    for i := 0 to length
      invariant chunk[..HEADER] == head
      invariant chunk[HEADER..HEADER + i] == data[..i]
    {
      chunk[HEADER + i] := data[i];
      assert chunk[HEADER..HEADER + i + 1] == chunk[HEADER..HEADER + i] + [data[i]];
    }
    assert chunk[..] == chunk[..HEADER] + chunk[HEADER..HEADER + length];
    return Some(chunk[..]);
  }

  predicate VerifyChecksum(p: Packet) {
    p.check == Checksum(p.data)
  }

  predicate VerifyMagic(p: Packet) {
    p.magic == Magic(p.command)
  }
}
