/** The incremental packet reader and the one-shot parser it agrees with (tcpusb/packet_reader.go). */
module PacketStream {
  import opened Bytes
  import opened Packets
  import opened Wrappers

  // ------------------------------------------------------ the one-shot parser

  datatype Parse = NeedMore | BadMagic | BadChecksum | Parsed(packet: Packet, rest: seq<byte>)

  /** The six header words, with no body yet. */
  function HeaderOf(h: seq<byte>): Packet
    requires |h| == HEADER
  {
    Packet(FromLE32(h[0..4]), FromLE32(h[4..8]), FromLE32(h[8..12]),
           FromLE32(h[12..16]), FromLE32(h[16..20]), FromLE32(h[20..24]), [])
  }

  /** The 24 bytes a header was read from. */
  function HeaderBytes(p: Packet): (h: seq<byte>)
    ensures |h| == HEADER
  {
    LE32(p.command) + LE32(p.arg0) + LE32(p.arg1) + LE32(p.length) + LE32(p.check) + LE32(p.magic)
  }

  /** Reading a header loses nothing, and every header can be read back. */
  lemma HeaderCodec(h: seq<byte>, p: Packet)
    requires |h| == HEADER
    ensures HeaderBytes(HeaderOf(h)) == h
    ensures HeaderOf(HeaderBytes(p)) == p.(data := [])
  {
    var b := HeaderBytes(p);
    assert b[0..4] == LE32(p.command) && b[4..8] == LE32(p.arg0) && b[8..12] == LE32(p.arg1);
    assert b[12..16] == LE32(p.length) && b[16..20] == LE32(p.check) && b[20..24] == LE32(p.magic);
    WordCodec(p.command, h[0..4]);
    WordCodec(p.arg0, h[4..8]);
    WordCodec(p.arg1, h[8..12]);
    WordCodec(p.length, h[12..16]);
    WordCodec(p.check, h[16..20]);
    WordCodec(p.magic, h[20..24]);
    assert h == h[0..4] + h[4..8] + h[8..12] + h[12..16] + h[16..20] + h[20..24];
  }

  /** What follows a header whose words are `p`. */
  function ParseBody(p: Packet, s: seq<byte>): Parse {
    if !VerifyMagic(p) then BadMagic
    else if p.length == 0 then Parsed(p, s)
    else if |s| < p.length then NeedMore
    else
      var full := p.(data := s[..p.length]);
      if VerifyChecksum(full) then Parsed(full, s[p.length..]) else BadChecksum
  }

  function ParseOne(s: seq<byte>): (r: Parse)
    ensures r.Parsed? ==> |r.rest| < |s| && |r.packet.data| < WORD
  {
    if |s| < HEADER then NeedMore else ParseBody(HeaderOf(s[..HEADER]), s[HEADER..])
  }

  lemma ParseShort(s: seq<byte>)
    ensures |s| < HEADER ==> ParseOne(s) == NeedMore
  {
  }

  lemma ParseAfterHeader(p: Packet, s: seq<byte>)
    requires p.data == []
    ensures ParseOne(HeaderBytes(p) + s) == ParseBody(p, s)
  {
    hide HeaderBytes, HeaderOf, ParseBody;
    HeaderCodec(HeaderBytes(p), p);
    assert (HeaderBytes(p) + s)[..HEADER] == HeaderBytes(p);
    assert (HeaderBytes(p) + s)[HEADER..] == s;
  }

  /** A message as its bytes say: six little-endian words and the body. */
  datatype Raw = Raw(command: u32, arg0: u32, arg1: u32, length: u32, check: u32, magic: u32)

  function RawOf(s: seq<byte>): Raw
    requires |s| >= 24
  {
    Raw(FromLE32(s[0..4]), FromLE32(s[4..8]), FromLE32(s[8..12]), FromLE32(s[12..16]), FromLE32(s[16..20]), FromLE32(s[20..24]))
  }

  /**
   * What becomes of every byte string: more is needed; or the magic word is not the complement of the command; or the
   * byte sum of a body is not the one announced; or it is a packet.  A packet without a body is not summed.
   */
  lemma ParseTotal(s: seq<byte>)
    ensures |s| < 24 ==> ParseOne(s) == NeedMore
    ensures |s| >= 24 ==>
              && var w := RawOf(s);
              && (w.magic != 0xffff_ffff - w.command ==> ParseOne(s) == BadMagic)
              && (w.magic == 0xffff_ffff - w.command && |s| - 24 < w.length ==> ParseOne(s) == NeedMore)
              && (w.magic == 0xffff_ffff - w.command && |s| - 24 >= w.length ==>
                  && var body := s[24..24 + w.length];
                  if body != [] && ByteSum(body) % 0x1_0000_0000 != w.check then ParseOne(s) == BadChecksum
                  else ParseOne(s) ==
                       Parsed(Packet(w.command, w.arg0, w.arg1, w.length, w.check, w.magic, body), s[24 + w.length..]))
  {
    hide FromLE32, ByteSum, Magic;
    if |s| >= 24 {
      var h := s[..24];
      assert h[0..4] == s[0..4] && h[4..8] == s[4..8] && h[8..12] == s[8..12];
      assert h[12..16] == s[12..16] && h[16..20] == s[16..20] && h[20..24] == s[20..24];
      var n := FromLE32(s[12..16]);
      if |s| - 24 >= n {
        assert s[24..][..n] == s[24..24 + n] && s[24..][n..] == s[24 + n..];
      }
    }
  }

  datatype Ending = Incomplete(rest: seq<byte>) | MagicMismatch | ChecksumMismatch
  datatype Trace = Trace(packets: seq<Packet>, ending: Ending)

  /** Parsing a whole stream at once, up to its first mismatch. */
  function ParseAll(s: seq<byte>): Trace
    decreases |s|
  {
    match ParseOne(s)
    case NeedMore => Trace([], Incomplete(s))
    case BadMagic => Trace([], MagicMismatch)
    case BadChecksum => Trace([], ChecksumMismatch)
    case Parsed(p, rest) =>
      var later := ParseAll(rest);
      Trace([p] + later.packets, later.ending)
  }

  // ---------------------------------------------------- the incremental reader

  /** One answer of the underlying stream: some bytes (possibly none), or an error together with some (usually none). */
  datatype ReadEvent = Data(bytes: seq<byte>) | Fail(bytes: seq<byte>)

  datatype Outcome = Got(packet: Packet) | ReadError | MagicError | ChecksumError

  /** The bytes the reader still takes from the stream: those that come with an error are dropped. */
  function Delivered(events: seq<ReadEvent>): seq<byte> {
    if events == [] then []
    else (if events[0].Data? then events[0].bytes else []) + Delivered(events[1..])
  }

  /** All the bytes that arrive. */
  function Arriving(events: seq<ReadEvent>): seq<byte> {
    if events == [] then [] else events[0].bytes + Arriving(events[1..])
  }

  predicate NoBytesWithErrors(events: seq<ReadEvent>) {
    forall k :: 0 <= k < |events| && events[k].Fail? ==> events[k].bytes == []
  }

  /** Nothing that arrives is dropped exactly when no error comes with bytes. */
  lemma {:induction false} DroppedWithErrors(events: seq<ReadEvent>)
    ensures |Delivered(events)| <= |Arriving(events)|
    ensures Delivered(events) == Arriving(events) <==> NoBytesWithErrors(events)
  {
    hide NoBytesWithErrors;
    if events == [] {
      NoErrorYet(events);
    } else {
      var e, later := events[0], events[1..];
      DroppedWithErrors(later);
      NoErrorYet(events);
      if e.Data? || e.bytes == [] {
        SameFront(e.bytes, Delivered(later), Arriving(later));
      }
    }
  }

  lemma NoErrorYet(events: seq<ReadEvent>)
    ensures events == [] ==> NoBytesWithErrors(events)
    ensures events != [] ==>
              (NoBytesWithErrors(events) <==> (events[0].Fail? ==> events[0].bytes == []) && NoBytesWithErrors(events[1..]))
  {
    if events != [] {
      assert forall k :: 0 < k < |events| ==> events[k] == events[1..][k - 1];
    }
  }

  lemma SameFront(a: seq<byte>, b: seq<byte>, c: seq<byte>)
    ensures a + b == a + c <==> b == c
  {
    if a + b == a + c {
      assert b == (a + b)[|a|..] && c == (a + c)[|a|..];
    }
  }

  predicate NoReadErrors(events: seq<ReadEvent>) {
    forall k :: 0 <= k < |events| ==> events[k].Data?
  }

  class PacketReader {
    var stream: seq<ReadEvent>
    var buffer: seq<byte>
    var inBody: bool
    var packet: Packet

    ghost predicate Valid()
      reads this
    {
      inBody ==> packet.data == [] && VerifyMagic(packet) && packet.length > 0
    }

    /** The bytes taken from the stream that belong to no packet returned so far. */
    function Pending(): seq<byte>
      reads this
    {
      if inBody then HeaderBytes(packet) + buffer else buffer
    }

    /** The input as a whole: what is pending and what is still to come. */
    ghost function Input(): seq<byte>
      reads this
    {
      if inBody then HeaderBytes(packet) + (buffer + Delivered(stream)) else buffer + Delivered(stream)
    }

    constructor (events: seq<ReadEvent>)
      ensures Valid() && Input() == Delivered(events) && stream == events
    {
      stream := events;
      buffer := [];
      inBody := false;
      packet := Packet(0, 0, 0, 0, 0, 0, []);
    }

    /** An exhausted stream keeps answering with an error, as a connection at end of file does. */
    method AppendChunk() returns (ok: bool)
      modifies this`stream, this`buffer
      ensures buffer + Delivered(stream) == old(buffer + Delivered(stream))
      ensures ok ==> |stream| < |old(stream)|
      ensures !ok ==> buffer == old(buffer) && (|stream| < |old(stream)| || stream == [])
      ensures NoReadErrors(old(stream)) ==> NoReadErrors(stream) && (!ok ==> stream == [])
    {
      if stream == [] {
        return false;
      }
      var e := stream[0];
      stream := stream[1..];
      match e
      case Fail(_) => ok := false;
      case Data(bytes) =>
        assert buffer + (bytes + Delivered(stream)) == (buffer + bytes) + Delivered(stream);
        buffer := buffer + bytes;
        ok := true;
    }

    /** One call agrees with the one-shot parser on the whole input; a read error loses nothing that was taken. */
    method ReadPacket() returns (r: Outcome)
      requires Valid()
      modifies this
      ensures r.Got? ==> Valid() && ParseOne(old(Input())) == Parsed(r.packet, Input()) && |stream| <= |old(stream)|
      ensures r.ReadError? ==> Valid() && Input() == old(Input()) && ParseOne(Pending()) == NeedMore
      ensures r.ReadError? && stream == [] ==> Input() == Pending()
      ensures r.ReadError? ==> |stream| < |old(stream)| || stream == []
      ensures NoReadErrors(old(stream)) ==> NoReadErrors(stream) && (r.ReadError? ==> stream == [])
      ensures r.MagicError? ==> ParseOne(old(Input())) == BadMagic
      ensures r.ChecksumError? ==> ParseOne(old(Input())) == BadChecksum
    {
      hide HeaderBytes, HeaderOf, VerifyMagic, VerifyChecksum, ParseOne, Delivered, NoReadErrors;
      while true
        invariant Valid()
        invariant Input() == old(Input())
        invariant |stream| <= |old(stream)|
        invariant NoReadErrors(old(stream)) ==> NoReadErrors(stream)
        decreases |stream|, if inBody then 0 else 1
      {
        if inBody {
          if |buffer| < packet.length {
            var ok := AppendChunk();
            if !ok {
              EndOfStream(buffer);
              ParseAfterHeader(packet, buffer);
              return ReadError;
            }
          } else {
            ghost var ahead := buffer + Delivered(stream);
            ParseAfterHeader(packet, ahead);
            assert ahead[..packet.length] == buffer[..packet.length];
            assert ahead[packet.length..] == buffer[packet.length..] + Delivered(stream);
            packet, buffer := packet.(data := buffer[..packet.length]), buffer[packet.length..];
            if !VerifyChecksum(packet) {
              return ChecksumError;
            }
            inBody := false;
            return Got(packet);
          }
        } else {
          if |buffer| < HEADER {
            var ok := AppendChunk();
            if !ok {
              EndOfStream(buffer);
              ParseShort(buffer);
              return ReadError;
            }
          } else {
            TakeHeader();
            ParseAfterHeader(packet, buffer + Delivered(stream));
            if !VerifyMagic(packet) {
              return MagicError;
            }
            if packet.length == 0 {
              return Got(packet);
            }
            inBody := true;
          }
        }
      }
    }

    /** Moves the first 24 bytes of the buffer into a fresh packet. */
    method TakeHeader()
      requires HEADER <= |buffer|
      modifies this`packet, this`buffer
      ensures packet.data == [] && HeaderOf(old(buffer)[..HEADER]) == packet && HeaderBytes(packet) + buffer == old(buffer)
      ensures HeaderBytes(packet) + (buffer + Delivered(stream)) == old(buffer) + Delivered(stream)
    {
      hide HeaderBytes, HeaderOf;
      var header := buffer[..HEADER];
      packet := HeaderOf(header);
      buffer := buffer[HEADER..];
      HeaderCodec(header, packet);
    }
  }

  lemma EndOfStream(buffer: seq<byte>)
    ensures buffer + Delivered([]) == buffer
  {
  }

  /** A caller that retries after every read error collects exactly the packets of the one-shot parser. */
  method ReadAll(events: seq<ReadEvent>) returns (t: Trace)
    ensures t == ParseAll(Delivered(events))
  {
    hide HeaderBytes, ParseOne, Delivered;
    var reader := new PacketReader(events);
    var packets := [];
    while true
      invariant reader.Valid()
      invariant ParseAll(Delivered(events)).packets == packets + ParseAll(reader.Input()).packets
      invariant ParseAll(Delivered(events)).ending == ParseAll(reader.Input()).ending
      invariant fresh(reader)
      decreases |reader.Input()|, |reader.stream|
    {
      ghost var input := reader.Input();
      var r := reader.ReadPacket();
      match r
      case Got(p) =>
        packets := packets + [p];
      case ReadError =>
        if reader.stream == [] {
          return Trace(packets, Incomplete(reader.Pending()));
        }
      case MagicError => return Trace(packets, MagicMismatch);
      case ChecksumError => return Trace(packets, ChecksumMismatch);
    }
  }

  // --------------------------------------------------------------- round trip

  /** What is asked of Assemble. */
  datatype Message = Message(command: u32, arg0: u32, arg1: u32, data: seq<byte>)

  predicate Fits(m: Message) {
    |m.data| < WORD - HEADER
  }

  function PacketOf(m: Message): Packet
    requires Fits(m)
  {
    Packet(m.command, m.arg0, m.arg1, |m.data|, Checksum(m.data), Magic(m.command), m.data)
  }

  /** The bytes of an assembled message. */
  function Wire(m: Message): (s: seq<byte>)
    requires Fits(m)
    ensures |s| == HEADER + |m.data|
  {
    HeaderBytes(PacketOf(m)) + m.data
  }

  lemma WireIsAssembled(m: Message)
    requires Fits(m)
    ensures Assembled(m.command, m.arg0, m.arg1, m.data) == Some(Wire(m))
  {
    hide LE32, Magic, Checksum;
    assert m.data[..|m.data|] == m.data;
  }

  lemma WireReadsBack(m: Message, rest: seq<byte>)
    requires Fits(m)
    ensures ParseOne(Wire(m) + rest) == Parsed(PacketOf(m), rest)
  {
    hide HeaderBytes, ParseOne, Magic, Checksum;
    var p := PacketOf(m);
    ParseAfterHeader(p.(data := []), m.data + rest);
    HeaderIgnoresData(p);
    assert Wire(m) + rest == HeaderBytes(p) + (m.data + rest);
    assert (m.data + rest)[..|m.data|] == m.data && (m.data + rest)[|m.data|..] == rest;
  }

  lemma HeaderIgnoresData(p: Packet)
    ensures HeaderBytes(p.(data := [])) == HeaderBytes(p)
  {
  }

  function Wires(ms: seq<Message>): seq<byte>
    requires forall k :: 0 <= k < |ms| ==> Fits(ms[k])
  {
    if ms == [] then [] else Wire(ms[0]) + Wires(ms[1..])
  }

  /** The concatenation of any list of assembled packets reads back as that list and nothing else. */
  lemma {:induction false} RoundTrip(ms: seq<Message>)
    requires forall k :: 0 <= k < |ms| ==> Fits(ms[k])
    ensures ParseAll(Wires(ms)) == Trace(seq(|ms|, k requires 0 <= k < |ms| => PacketOf(ms[k])), Incomplete([]))
  {
    hide Wire, PacketOf, ParseOne;
    ParseShort([]);
    if ms == [] {
    } else {
      WireReadsBack(ms[0], Wires(ms[1..]));
      RoundTrip(ms[1..]);
    }
  }

  /** The reader gives back a message exactly when its payload is shorter than 2^32 - 24 bytes. */
  lemma AssembleFaithful(m: Message)
    ensures Fits(m) <==>
            var a := Assembled(m.command, m.arg0, m.arg1, m.data);
            a.Some? && ParseOne(a.value).Parsed? && ParseOne(a.value).packet.data == m.data
  {
    hide ParseOne, Header, Magic, Checksum;
    if Fits(m) {
      WireIsAssembled(m);
      WireReadsBack(m, []);
      assert Wire(m) + [] == Wire(m);
    }
  }

  /** On the wire a command is its four letters: the words are little-endian. */
  lemma CommandsSpell()
    ensures LE32(A_SYNC) == Ascii("SYNC") && LE32(A_CNXN) == Ascii("CNXN") && LE32(A_OPEN) == Ascii("OPEN")
    ensures LE32(A_OKAY) == Ascii("OKAY") && LE32(A_CLSE) == Ascii("CLSE") && LE32(A_WRTE) == Ascii("WRTE")
    ensures LE32(A_AUTH) == Ascii("AUTH")
  {
  }

  lemma HeaderByteByByte()
    ensures Header(A_WRTE, 2, 7, 2, 209) ==
            [87, 82, 84, 69, 2, 0, 0, 0, 7, 0, 0, 0, 2, 0, 0, 0, 209, 0, 0, 0, 168, 173, 171, 186]
  {
    hide LE32, Magic;
    WordsByteByByte();
    assert LE32(A_WRTE) + LE32(2) + LE32(7) == [87, 82, 84, 69, 2, 0, 0, 0, 7, 0, 0, 0];
  }

  lemma WordsByteByByte()
    ensures LE32(A_WRTE) == [87, 82, 84, 69] && LE32(Magic(A_WRTE)) == [168, 173, 171, 186]
    ensures LE32(2) == [2, 0, 0, 0] && LE32(7) == [7, 0, 0, 0] && LE32(209) == [209, 0, 0, 0]
  {
    hide Magic;
  }

  /** One packet byte by byte: command, the two words, length, byte sum, complement of the command, data. */
  lemma WireByteByByte()
    ensures Assembled(A_WRTE, 2, 7, Ascii("hi")) ==
            Some([87, 82, 84, 69, 2, 0, 0, 0, 7, 0, 0, 0, 2, 0, 0, 0, 209, 0, 0, 0, 168, 173, 171, 186, 104, 105])
  {
    hide Header;
    var data := Ascii("hi");
    assert data == [104, 105];
    assert data[..1] == [104] && data[..1][..0] == [];
    assert ByteSum(data) == 209;
    HeaderByteByByte();
    assert Header(A_WRTE, 2, 7, 2, 209) + data[..2] ==
           [87, 82, 84, 69, 2, 0, 0, 0, 7, 0, 0, 0, 2, 0, 0, 0, 209, 0, 0, 0, 168, 173, 171, 186, 104, 105];
  }

  // ---------------------------------------------------------------- integrity

  /** One altered body byte is always caught. */
  lemma AlteredBodyRejected(m: Message, i: nat, b: byte, rest: seq<byte>)
    requires Fits(m) && i < |m.data| && b != m.data[i]
    ensures ParseOne(Wire(m)[HEADER + i := b] + rest) == BadChecksum
  {
    hide HeaderBytes, ParseOne, Magic, Checksum;
    var p := PacketOf(m);
    var altered := m.data[i := b];
    ParseAfterHeader(p.(data := []), altered + rest);
    HeaderIgnoresData(p);
    assert Wire(m)[HEADER + i := b] + rest == HeaderBytes(p) + (altered + rest);
    assert (altered + rest)[..|m.data|] == altered;
    ChecksumSeesOneByte(m.data, i, b);
  }

  /** A packet whose command word alone, or whose magic word alone, was replaced is always caught. */
  lemma AlteredHeaderRejected(m: Message, word: u32, rest: seq<byte>)
    requires Fits(m)
    ensures word != m.command ==> ParseOne(HeaderBytes(PacketOf(m).(command := word)) + m.data + rest) == BadMagic
    ensures word != Magic(m.command) ==> ParseOne(HeaderBytes(PacketOf(m).(magic := word)) + m.data + rest) == BadMagic
  {
    hide HeaderBytes, ParseOne, Checksum;
    var p, q := PacketOf(m).(command := word), PacketOf(m).(magic := word);
    HeaderIgnoresData(p);
    HeaderIgnoresData(q);
    ParseAfterHeader(p.(data := []), m.data + rest);
    ParseAfterHeader(q.(data := []), m.data + rest);
    assert HeaderBytes(p) + m.data + rest == HeaderBytes(p) + (m.data + rest);
    assert HeaderBytes(q) + m.data + rest == HeaderBytes(q) + (m.data + rest);
  }
}
