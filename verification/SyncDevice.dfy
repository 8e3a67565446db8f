/** The other side of the sync protocol: what a device reads from the requests of a client (adb/sync.go). */
module SyncDevice {
  import opened Bytes
  import opened Conn
  import opened Wrappers
  import opened SyncWire
  import opened SyncLaws
  import opened SyncCalls

  datatype Read<T> = Read(value: T, rest: seq<byte>) | Garbled

  /** A command of four letters, a length word and that many bytes. */
  datatype Asked = Asked(cmd: seq<byte>, arg: seq<byte>)

  function ReadRequest(s: seq<byte>): Read<Asked> {
    if |s| < 8 || |s| - 8 < FromLE32(s[4..8]) then Garbled
    else
      var n := FromLE32(s[4..8]);
      Read(Asked(s[..4], s[8..8 + n]), s[8 + n..])
  }

  datatype Pushed = Pushed(data: seq<byte>, mtime: u32)

  /** DATA messages up to a DONE, whose word is the time of the file. */
  function ReadPush(s: seq<byte>, got: seq<byte>): Read<Pushed>
    decreases |s|
  {
    if |s| < 8 then Garbled
    else if s[..4] == DONE then Read(Pushed(got, FromLE32(s[4..8])), s[8..])
    else if s[..4] == DATA && |s| - 8 >= FromLE32(s[4..8]) then
      var n := FromLE32(s[4..8]);
      ReadPush(s[8 + n..], got + s[8..8 + n])
    else Garbled
  }

  /** Where the last comma is, or the length if there is none. */
  function LastComma(s: seq<byte>): nat {
    if s == [] then 0
    else if s[|s| - 1] == 44 then |s| - 1
    else
      var k := LastComma(s[..|s| - 1]);
      if k == |s| - 1 then |s| else k
  }

  datatype Order =
    | AskStat(path: seq<byte>)
    | AskList(path: seq<byte>)
    | AskFile(path: seq<byte>)
    | TakeFile(path: seq<byte>, mode: int, data: seq<byte>, mtime: u32)

  function ReadOrder(s: seq<byte>): Read<Order> {
    match ReadRequest(s)
    case Garbled => Garbled
    case Read(asked, rest) =>
      var arg := asked.arg;
      if asked.cmd == [83, 84, 65, 84] then Read(AskStat(arg), rest)
      else if asked.cmd == [76, 73, 83, 84] then Read(AskList(arg), rest)
      else if asked.cmd == [82, 69, 67, 86] then Read(AskFile(arg), rest)
      else if asked.cmd == [83, 69, 78, 68] then
        var k := LastComma(arg);
        if k >= |arg| then Garbled
        else
          match ReadPush(rest, [])
          case Garbled => Garbled
          case Read(push, later) => Read(TakeFile(arg[..k], FromDecimal(arg[k + 1..]), push.data, push.mtime), later)
      else Garbled
  }

  // ------------------------------------------------------------------ reading back

  lemma RequestReadsBack(cmd: seq<byte>, arg: seq<byte>, rest: seq<byte>)
    requires |cmd| == 4 && Sized(arg)
    ensures ReadRequest(Request(cmd, arg) + rest) == Read(Asked(cmd, arg), rest)
  {
    hide LE32, FromLE32;
    var w := LE32(ToU32(|arg|));
    var s := Request(cmd, arg) + rest;
    assert s == cmd + w + arg + rest;
    assert s[..4] == cmd && s[4..8] == w;
    WordCodec(|arg|, w);
    assert s[8..8 + |arg|] == arg && s[8 + |arg|..] == rest;
  }

  lemma DataReadsBack(chunk: seq<byte>, rest: seq<byte>, got: seq<byte>)
    requires Sized(chunk)
    ensures ReadPush(DataMessage(chunk) + rest, got) == ReadPush(rest, got + chunk)
  {
    hide LE32, FromLE32;
    var w := LE32(ToU32(|chunk|));
    var s := DataMessage(chunk) + rest;
    assert s == DATA + w + chunk + rest;
    assert s[..4] == DATA && s[4..8] == w;
    WordCodec(|chunk|, w);
    assert s[8..8 + |chunk|] == chunk && s[8 + |chunk|..] == rest;
  }

  lemma {:induction false} ChunksReadBack(chunks: seq<seq<byte>>, rest: seq<byte>, got: seq<byte>)
    requires AllSized(chunks)
    ensures ReadPush(DataMessages(chunks) + rest, got) == ReadPush(rest, got + Flatten(chunks))
    decreases |chunks|
  {
    hide ReadPush, DataMessage;
    if chunks == [] {
      assert DataMessages(chunks) + rest == rest && got + Flatten(chunks) == got;
    } else {
      var more := DataMessages(chunks[1..]) + rest;
      assert DataMessages(chunks) + rest == DataMessage(chunks[0]) + more;
      DataReadsBack(chunks[0], more, got);
      ChunksReadBack(chunks[1..], rest, got + chunks[0]);
      assert got + chunks[0] + Flatten(chunks[1..]) == got + Flatten(chunks);
    }
  }

  lemma DoneReadsBack(timestamp: u32, rest: seq<byte>, got: seq<byte>)
    ensures ReadPush(Command(DONE, timestamp) + rest, got) == Read(Pushed(got, timestamp), rest)
  {
    hide LE32, FromLE32;
    var s := Command(DONE, timestamp) + rest;
    assert s[..4] == DONE && s[4..8] == LE32(timestamp) && s[8..] == rest;
    WordCodec(timestamp, LE32(0));
  }

  lemma PushReadsBack(data: seq<byte>, timestamp: u32, rest: seq<byte>)
    ensures ReadPush(PushBytes(data, timestamp) + rest, []) == Read(Pushed(data, timestamp), rest)
  {
    hide ReadPush, DataMessages, Chunks, Command, Flatten;
    var tail := Command(DONE, timestamp) + rest;
    ChunksMean(data);
    assert PushBytes(data, timestamp) + rest == DataMessages(Chunks(data)) + tail;
    ChunksReadBack(Chunks(data), tail, []);
    assert [] + data == data;
    DoneReadsBack(timestamp, rest, data);
  }

  lemma {:induction false} CommaReadsBack(path: seq<byte>, digits: seq<byte>)
    requires forall k :: 0 <= k < |digits| ==> digits[k] != 44
    ensures LastComma(path + [44] + digits) == |path|
    decreases |digits|
  {
    var s := path + [44] + digits;
    if digits == [] {
      assert s[|s| - 1] == 44;
    } else {
      CommaReadsBack(path, digits[..|digits| - 1]);
      assert s[..|s| - 1] == path + [44] + digits[..|digits| - 1];
      assert s[|s| - 1] == digits[|digits| - 1];
    }
  }

  lemma ArgReadsBack(path: seq<byte>, mode: u32)
    ensures var arg := PushArg(path, mode);
            LastComma(arg) == |path| < |arg| && arg[..|path|] == path && FromDecimal(arg[|path| + 1..]) == PushMode(mode)
  {
    hide PushMode, LastComma;
    var digits := Decimal(PushMode(mode));
    DecimalReadsBack(PushMode(mode));
    CommaReadsBack(path, digits);
    assert PushArg(path, mode)[|path| + 1..] == digits;
  }

  predicate CallSized(c: Call) {
    Sized(c.path) && (c.PushCall? ==> Sized(PushArg(c.path, c.mode)))
  }

  /** What a call orders the device to do. */
  function OrderOf(c: Call): Order {
    match c
    case StatCall(path) => AskStat(path)
    case ListCall(path) => AskList(path)
    case PullCall(path) => AskFile(path)
    case PushCall(path, data, mode, mtime) => TakeFile(path, PushMode(mode), data, mtime % 0x1_0000_0000)
  }

  lemma CallReadsBack(c: Call, rest: seq<byte>)
    requires CallSized(c)
    ensures ReadOrder(CallBytes(c) + rest) == Read(OrderOf(c), rest)
  {
    hide ReadRequest, ReadPush, Request, PushBytes, PushArg, LastComma, PushMode;
    match c
    case StatCall(path) => RequestReadsBack(STAT, path, rest);
    case ListCall(path) => RequestReadsBack(LIST, path, rest);
    case PullCall(path) => RequestReadsBack(RECV, path, rest);
    case PushCall(path, data, mode, mtime) =>
      var push := PushBytes(data, Truncated(mtime));
      assert CallBytes(c) + rest == Request(SEND, PushArg(path, mode)) + (push + rest);
      RequestReadsBack(SEND, PushArg(path, mode), push + rest);
      PushReadsBack(data, Truncated(mtime), rest);
      ArgReadsBack(path, mode);
  }

  /** All the orders in a byte string, up to its end or to something that is none. */
  function ReadOrders(s: seq<byte>): (seq<Order>, seq<byte>)
    decreases |s|
  {
    match ReadOrder(s)
    case Garbled => ([], s)
    case Read(order, rest) =>
      if |rest| >= |s| then ([], s)
      else
        var (orders, last) := ReadOrders(rest);
        ([order] + orders, last)
  }

  function OrdersOf(calls: seq<Call>): seq<Order> {
    if calls == [] then [] else [OrderOf(calls[0])] + OrdersOf(calls[1..])
  }

  lemma {:induction false} CallsBytesCons(calls: seq<Call>)
    requires calls != []
    ensures CallsBytes(calls) == CallBytes(calls[0]) + CallsBytes(calls[1..])
    decreases |calls|
  {
    hide CallBytes;
    var n := |calls| - 1;
    if n == 0 {
      assert CallsBytes(calls[..0]) == [] && CallsBytes(calls[1..]) == [];
    } else {
      CallsBytesCons(calls[..n]);
      assert calls[..n][1..] == calls[1..][..n - 1] && calls[1..][n - 1] == calls[n];
      assert CallsBytes(calls[1..]) == CallsBytes(calls[1..][..n - 1]) + CallBytes(calls[n]);
    }
  }

  lemma CallIsLong(c: Call)
    ensures |CallBytes(c)| >= 8
  {
  }

  lemma NothingOrdered()
    ensures ReadOrders([]) == ([], [])
  {
  }

  /** The device reads from the bytes of any list of calls exactly these calls, in order, with nothing left over. */
  lemma {:induction false} CallsReadBack(calls: seq<Call>)
    requires forall k :: 0 <= k < |calls| ==> CallSized(calls[k])
    ensures ReadOrders(CallsBytes(calls)) == (OrdersOf(calls), [])
    decreases |calls|
  {
    hide ReadOrder, OrderOf, CallBytes, CallSized;
    if calls == [] {
      NothingOrdered();
    } else {
      CallsBytesCons(calls);
      CallIsLong(calls[0]);
      CallReadsBack(calls[0], CallsBytes(calls[1..]));
      CallsReadBack(calls[1..]);
    }
  }
}
