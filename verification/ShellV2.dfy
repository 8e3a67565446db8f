/** Shell protocol v2 frames (adb/device_shell_v2.go). */
module ShellFrames {
  import opened Bytes
  import opened Conn

  const STDIN: byte := 0
  const STDOUT: byte := 1
  const STDERR: byte := 2
  const EXIT: byte := 3
  const CLOSE_STDIN: byte := 4
  const WINDOW_SIZE: byte := 5

  const FRAME_HEADER: nat := 5
  const MAX_PAYLOAD: nat := 16 * 1024 * 1024
  const WRITE_CHUNK: nat := 64 * 1024

  datatype Frame = Frame(id: byte, payload: seq<byte>)

  predicate Valid(f: Frame) {
    |f.payload| <= MAX_PAYLOAD
  }

  /** What writeShellV2Packet sends. */
  function Encode(f: Frame): (s: seq<byte>)
    ensures |s| == FRAME_HEADER + |f.payload|
  {
    [f.id] + LE32(ToU32(|f.payload|)) + f.payload
  }

  function EncodeAll(fs: seq<Frame>): (s: seq<byte>) {
    if fs == [] then [] else Encode(fs[0]) + EncodeAll(fs[1..])
  }

  datatype Error = Io(err: IoError) | TooLarge | ShortWrite

  datatype FrameRead = GotFrame(frame: Frame, rest: seq<byte>) | FrameError(err: Error)

  /** readShellV2Packet. */
  function ReadFrame(s: seq<byte>, end: IoError): (r: FrameRead)
    ensures r.GotFrame? ==> |r.rest| < |s|
  {
    match ReadFull(s, FRAME_HEADER, end)
    case Failed(e) => FrameError(Io(e))
    case Got(header, body) =>
      var length := FromLE32(header[1..]);
      if length > MAX_PAYLOAD then FrameError(TooLarge)
      else
        match ReadFull(body, length, end)
        case Failed(e) => FrameError(Io(e))
        case Got(payload, rest) => GotFrame(Frame(header[0], payload), rest)
  }

  /** A valid frame reads back, and the bytes after it are left alone. */
  lemma FrameReadsBack(f: Frame, rest: seq<byte>, end: IoError)
    requires Valid(f)
    ensures ReadFrame(Encode(f) + rest, end) == GotFrame(f, rest)
  {
    hide LE32, FromLE32;
    var s := Encode(f) + rest;
    assert s[..FRAME_HEADER] == [f.id] + LE32(|f.payload|);
    assert s[..FRAME_HEADER][1..] == LE32(|f.payload|);
    WordCodec(|f.payload|, LE32(0));
    assert s[FRAME_HEADER..] == f.payload + rest;
    assert (f.payload + rest)[..|f.payload|] == f.payload;
    assert (f.payload + rest)[|f.payload|..] == rest;
  }

  /** A frame cut short anywhere fails with the end of the connection, never with a frame. */
  lemma CutFrameFails(f: Frame, k: nat, end: IoError)
    requires Valid(f) && k < |Encode(f)|
    ensures ReadFrame(Encode(f)[..k], end).FrameError?
    ensures var e := ReadFrame(Encode(f)[..k], end).err; e == Io(end) || (end.EOF? && e == Io(UnexpectedEOF))
  {
    hide LE32, FromLE32;
    var s := Encode(f)[..k];
    if k >= FRAME_HEADER {
      assert s[..FRAME_HEADER][1..] == LE32(|f.payload|);
      WordCodec(|f.payload|, LE32(0));
    }
  }

  /** Bytes that are not the beginning of a whole frame: too few of them, or a length that is too large. */
  predicate NotWhole(s: seq<byte>) {
    |s| < 5 || FromLE32(s[1..5]) > 16777216 || |s| - 5 < FromLE32(s[1..5])
  }

  /** What a broken frame is reported as; an end of file between two reads stays an EOF. */
  function BrokenError(s: seq<byte>, end: IoError): Error {
    if |s| >= 5 && FromLE32(s[1..5]) > 16777216 then TooLarge
    else Io(if end.EOF? && |s| != 0 && |s| != 5 then UnexpectedEOF else end)
  }

  lemma BrokenFails(s: seq<byte>, end: IoError)
    requires NotWhole(s)
    ensures ReadFrame(s, end) == FrameError(BrokenError(s, end))
  {
    hide FromLE32;
    if |s| >= 5 {
      assert s[..5][1..] == s[1..5];
    }
  }

  /** All other byte strings begin with a valid frame, and are read as it. */
  lemma SplitFrame(s: seq<byte>) returns (f: Frame, rest: seq<byte>)
    requires !NotWhole(s)
    ensures Valid(f) && s == Encode(f) + rest
  {
    hide LE32, FromLE32;
    var n := FromLE32(s[1..5]);
    f, rest := Frame(s[0], s[5..5 + n]), s[5 + n..];
    BytesReadBack(s[1..5]);
    assert s == [s[0]] + s[1..5] + s[5..5 + n] + s[5 + n..];
  }

  /** One frame byte by byte: id, length, payload. */
  lemma FrameByteByByte()
    ensures Encode(Frame(1, Ascii("hi"))) == [1, 2, 0, 0, 0, 104, 105]
  {
  }

  lemma {:induction false} EncodeAllAppend(a: seq<Frame>, b: seq<Frame>)
    ensures EncodeAll(a + b) == EncodeAll(a) + EncodeAll(b)
  {
    hide Encode;
    if a == [] {
      assert a + b == b;
    } else {
      EncodeAllAppend(a[1..], b);
      assert (a + b)[1..] == a[1..] + b && (a + b)[0] == a[0];
      assert EncodeAll(a + b) == Encode(a[0]) + (EncodeAll(a[1..]) + EncodeAll(b));
    }
  }

  lemma EncodeAllSnoc(a: seq<Frame>, f: Frame)
    ensures EncodeAll(a + [f]) == EncodeAll(a) + Encode(f)
  {
    hide Encode;
    EncodeAllAppend(a, [f]);
    assert [f][1..] == [];
    assert EncodeAll([f]) == Encode(f) + EncodeAll([]);
  }

  datatype Parsed = Parsed(frames: seq<Frame>, rest: seq<byte>)

  /** All the whole frames at the front of a byte string, and what is left. */
  function ParseFrames(s: seq<byte>): Parsed
    decreases |s|
  {
    match ReadFrame(s, EOF)
    case FrameError(_) => Parsed([], s)
    case GotFrame(f, rest) => var p := ParseFrames(rest); Parsed([f] + p.frames, p.rest)
  }

  /** The wire of any list of valid frames parses completely into that list. */
  lemma {:induction false} FramesReadBack(fs: seq<Frame>)
    requires forall k :: 0 <= k < |fs| ==> Valid(fs[k])
    ensures ParseFrames(EncodeAll(fs)) == Parsed(fs, [])
  {
    hide Encode, ReadFrame;
    if fs == [] {
      NoFrame();
    } else {
      FrameReadsBack(fs[0], EncodeAll(fs[1..]), EOF);
      FramesReadBack(fs[1..]);
    }
  }

  lemma NoFrame()
    ensures ReadFrame([], EOF).FrameError?
  {
  }
}

/** The read side of a session: demultiplexing, the exit code and truncation (adb/device_shell_v2.go). */
module ShellSession {
  import opened Bytes
  import opened Conn
  import opened Wrappers
  import opened ShellFrames

  /** What the read loop leaves behind. */
  datatype Result = Result(stdout: seq<byte>, stderr: seq<byte>, gotExit: bool, exitCode: nat, err: Option<Error>)

  const START: Result := Result([], [], false, 0, None)

  /** The effect of one frame that is not an exit frame. */
  function Deliver(r: Result, f: Frame): Result {
    if f.id == STDOUT then r.(stdout := r.stdout + f.payload)
    else if f.id == STDERR then r.(stderr := r.stderr + f.payload)
    else r
  }

  function Exited(r: Result, f: Frame): Result {
    r.(gotExit := true, exitCode := if f.payload == [] then r.exitCode else f.payload[0])
  }

  /** The whole read loop on a connection. */
  function Demux(s: seq<byte>, end: IoError, r: Result): Result
    decreases |s|
  {
    match ReadFrame(s, end)
    case FrameError(e) => if e == Io(EOF) then r else r.(err := Some(e))
    case GotFrame(f, rest) => if f.id == EXIT then Exited(r, f) else Demux(rest, end, Deliver(r, f))
  }

  function Waited(r: Result): (nat, Option<Error>) {
    if r.err.Some? then (r.exitCode, r.err)
    else if !r.gotExit then (r.exitCode, Some(Io(UnexpectedEOF)))
    else (r.exitCode, None)
  }

  class Session {
    var input: seq<byte>
    const end: IoError
    var stdout: seq<byte>
    var stderr: seq<byte>
    var gotExit: bool
    var exitCode: nat
    var err: Option<Error>
    var closed: bool      // both streams and the transport
    var done: bool        // the done channel

    function View(): Result
      reads this
    {
      Result(stdout, stderr, gotExit, exitCode, err)
    }

    constructor (input: seq<byte>, end: IoError)
      ensures View() == START && !closed && !done && this.input == input && this.end == end
    {
      this.input, this.end := input, end;
      stdout, stderr, gotExit, exitCode, err := [], [], false, 0, None;
      closed, done := false, false;
    }

    method ReadLoop()
      requires !done
      modifies this
      ensures View() == Demux(old(input), end, old(View()))
      ensures closed && done
    {
      while true
        invariant Demux(input, end, View()) == Demux(old(input), end, old(View()))
        decreases |input|
      {
        match ReadFrame(input, end)
        case FrameError(e) =>
          if e != Io(EOF) {
            err := Some(e);
          }
          break;
        case GotFrame(f, rest) =>
          input := rest;
          if f.id == STDOUT {
            stdout := stdout + f.payload;
          } else if f.id == STDERR {
            stderr := stderr + f.payload;
          } else if f.id == EXIT {
            gotExit := true;
            if |f.payload| > 0 {
              exitCode := f.payload[0];
            }
            break;
          }
      }
      closed := true;
      done := true;
    }

    /** Returns once done is closed. */
    method Wait() returns (code: nat, e: Option<Error>)
      requires done
      ensures (code, e) == Waited(View())
    {
      if err.Some? {
        return exitCode, err;
      }
      if !gotExit {
        return exitCode, Some(Io(UnexpectedEOF));
      }
      return exitCode, None;
    }
  }

  // ----------------------------------------------------------------- truncation

  /** The frames that lie wholly within the first k bytes. */
  function Whole(fs: seq<Frame>, k: nat): seq<Frame> {
    if fs == [] || k < |Encode(fs[0])| then [] else [fs[0]] + Whole(fs[1..], k - |Encode(fs[0])|)
  }

  function DeliverAll(r: Result, fs: seq<Frame>): Result
    decreases |fs|
  {
    if fs == [] then r else DeliverAll(Deliver(r, fs[0]), fs[1..])
  }

  /** Payloads of the frames with the given id, in order. */
  function PayloadsOf(fs: seq<Frame>, id: byte): seq<byte> {
    if fs == [] then [] else (if fs[0].id == id then fs[0].payload else []) + PayloadsOf(fs[1..], id)
  }

  lemma {:induction false} DeliverAllMeans(r: Result, fs: seq<Frame>)
    ensures DeliverAll(r, fs) == r.(stdout := r.stdout + PayloadsOf(fs, STDOUT), stderr := r.stderr + PayloadsOf(fs, STDERR))
    decreases |fs|
  {
    if fs == [] {
    } else {
      DeliverAllMeans(Deliver(r, fs[0]), fs[1..]);
    }
  }

  /** Valid frames of which the last one, and no other, is an exit frame. */
  predicate Script(fs: seq<Frame>) {
    && |fs| >= 1
    && (forall i :: 0 <= i < |fs| ==> ShellFrames.Valid(fs[i]))
    && (forall i :: 0 <= i < |fs| - 1 ==> fs[i].id != EXIT)
    && fs[|fs| - 1].id == EXIT
  }

  lemma {:induction false} DemuxCut(fs: seq<Frame>, k: nat, end: IoError, r: Result)
    requires Script(fs) && k < |EncodeAll(fs)| && end != UnexpectedEOF
    requires r.err.None? && !r.gotExit
    ensures var d := Demux(EncodeAll(fs)[..k], end, r);
            && d.(err := None) == DeliverAll(r, Whole(fs, k))
            && (if end.EOF? then d.err.None? || d.err == Some(Io(UnexpectedEOF)) else d.err == Some(Io(end)))
    decreases |fs|
  {
    hide Encode, ReadFrame;
    var e, rest := Encode(fs[0]), EncodeAll(fs[1..]);
    var s := EncodeAll(fs)[..k];
    if k < |e| {
      assert s == e[..k];
      CutFrameFails(fs[0], k, end);
      assert Whole(fs, k) == [];
    } else {
      var t := rest[..k - |e|];
      assert s == e + t;
      FrameReadsBack(fs[0], t, end);
      assert |fs| > 1 && Script(fs[1..]);
      DemuxCut(fs[1..], k - |e|, end, Deliver(r, fs[0]));
      assert Demux(s, end, r) == Demux(t, end, Deliver(r, fs[0]));
      assert Whole(fs, k)[1..] == Whole(fs[1..], k - |e|);
    }
  }

  /**
   * Wherever a session's output is cut, Wait reports it, with exit code 0, and the streams hold exactly the
   * payloads of the frames received whole.  An end of file always shows as ErrUnexpectedEOF.
   */
  lemma Truncation(fs: seq<Frame>, k: nat, end: IoError)
    requires Script(fs) && k < |EncodeAll(fs)| && end != UnexpectedEOF
    ensures var d := Demux(EncodeAll(fs)[..k], end, START);
            && Waited(d) == (0, Some(Io(if end.EOF? then UnexpectedEOF else end)))
            && d.stdout == PayloadsOf(Whole(fs, k), STDOUT)
            && d.stderr == PayloadsOf(Whole(fs, k), STDERR)
  {
    hide Encode, ReadFrame, Demux, Whole, DeliverAll, PayloadsOf;
    DemuxCut(fs, k, end, START);
    DeliverAllMeans(START, Whole(fs, k));
  }

  lemma {:induction false} DemuxWhole(fs: seq<Frame>, junk: seq<byte>, end: IoError, r: Result)
    requires Script(fs)
    ensures Demux(EncodeAll(fs) + junk, end, r) == Exited(DeliverAll(r, fs[..|fs| - 1]), fs[|fs| - 1])
    decreases |fs|
  {
    hide Encode, ReadFrame;
    var rest := EncodeAll(fs[1..]) + junk;
    assert EncodeAll(fs) + junk == Encode(fs[0]) + rest;
    FrameReadsBack(fs[0], rest, end);
    if |fs| == 1 {
    } else {
      DemuxWhole(fs[1..], junk, end, Deliver(r, fs[0]));
      assert fs[1..][..|fs| - 2] == fs[..|fs| - 1][1..];
    }
  }

  /** On the full stream Wait returns the exit byte (0 if there is none) and no error, whatever follows. */
  lemma Completion(fs: seq<Frame>, junk: seq<byte>, end: IoError)
    requires Script(fs)
    ensures var d, exit, before := Demux(EncodeAll(fs) + junk, end, START), fs[|fs| - 1], fs[..|fs| - 1];
            && Waited(d) == (if exit.payload == [] then 0 else exit.payload[0], None)
            && d.stdout == PayloadsOf(before, STDOUT)
            && d.stderr == PayloadsOf(before, STDERR)
  {
    hide Encode, ReadFrame, Demux, DeliverAll, PayloadsOf;
    DemuxWhole(fs, junk, end, START);
    DeliverAllMeans(START, fs[..|fs| - 1]);
  }

  /** How the output of a session ends after its last whole frame that is not an exit frame. */
  datatype Last = ExitFrame(exit: Frame, junk: seq<byte>) | BrokenFrame(part: seq<byte>)

  predicate LastOk(l: Last) {
    match l
    case ExitFrame(exit, _) => ShellFrames.Valid(exit) && exit.id == 3
    case BrokenFrame(part) => NotWhole(part)
  }

  function LastBytes(l: Last): seq<byte> {
    match l
    case ExitFrame(exit, junk) => Encode(exit) + junk
    case BrokenFrame(part) => part
  }

  /** What Wait returns: the exit byte, 0 without one; or that the output broke off. */
  function Verdict(l: Last, end: IoError): (nat, Option<Error>) {
    match l
    case ExitFrame(exit, _) => (if exit.payload == [] then 0 else exit.payload[0], None)
    case BrokenFrame(part) =>
      var e := BrokenError(part, end);
      (0, Some(if e == Io(EOF) then Io(UnexpectedEOF) else e))
  }

  predicate NoExits(fs: seq<Frame>) {
    forall k :: 0 <= k < |fs| ==> ShellFrames.Valid(fs[k]) && fs[k].id != 3
  }

  lemma LastIsRead(l: Last, end: IoError, r: Result)
    requires LastOk(l)
    ensures l.ExitFrame? ==>
              Demux(LastBytes(l), end, r) ==
              r.(gotExit := true, exitCode := if l.exit.payload == [] then r.exitCode else l.exit.payload[0])
    ensures l.BrokenFrame? ==>
              Demux(LastBytes(l), end, r) ==
              if BrokenError(l.part, end) == Io(EOF) then r else r.(err := Some(BrokenError(l.part, end)))
  {
    hide Encode, ReadFrame, BrokenError, NotWhole;
    match l
    case ExitFrame(exit, junk) => FrameReadsBack(exit, junk, end);
    case BrokenFrame(part) => BrokenFails(part, end);
  }

  lemma {:induction false} DemuxTotal(s: seq<byte>, end: IoError, r: Result) returns (fs: seq<Frame>, l: Last)
    ensures NoExits(fs) && LastOk(l) && s == EncodeAll(fs) + LastBytes(l)
    ensures Demux(s, end, r) == Demux(LastBytes(l), end, DeliverAll(r, fs))
    decreases |s|
  {
    hide Encode, ReadFrame, NotWhole, Deliver;
    if NotWhole(s) {
      fs, l := [], BrokenFrame(s);
      assert EncodeAll(fs) + s == s;
    } else {
      var f, rest := SplitFrame(s);
      FrameReadsBack(f, rest, end);
      if f.id == 3 {
        fs, l := [], ExitFrame(f, rest);
        assert EncodeAll(fs) + LastBytes(l) == LastBytes(l);
      } else {
        fs, l := DemuxTotal(rest, end, Deliver(r, f));
        var all := [f] + fs;
        assert all[1..] == fs;
        assert Encode(f) + (EncodeAll(fs) + LastBytes(l)) == EncodeAll(all) + LastBytes(l);
        fs := all;
      }
    }
  }

  /**
   * Whatever the device sends, the streams hold the payloads of the whole frames before the exit frame, or before the
   * point where the output breaks off, and Wait says which of the two it was.
   */
  lemma SessionTotal(s: seq<byte>, end: IoError) returns (fs: seq<Frame>, l: Last)
    ensures NoExits(fs) && LastOk(l) && s == EncodeAll(fs) + LastBytes(l)
    ensures var d := Demux(s, end, START);
            d.stdout == PayloadsOf(fs, 1) && d.stderr == PayloadsOf(fs, 2) && Waited(d) == Verdict(l, end)
  {
    hide Encode, ReadFrame, NotWhole, BrokenError, Demux, DeliverAll, PayloadsOf, EncodeAll;
    fs, l := DemuxTotal(s, end, START);
    DeliverAllMeans(START, fs);
    LastIsRead(l, end, DeliverAll(START, fs));
  }
}

/** The write side of a session: chunking, partial writes and concurrent callers (adb/device_shell_v2.go). */
module ShellWrites {
  import opened Bytes
  import opened Wrappers
  import opened ShellFrames

  // ------------------------------------------------------------------ the frames

  /** The stdin frames that Write sends for an input. */
  function StdinFrames(p: seq<byte>): seq<Frame> {
    if p == [] then []
    else
      var n := Min(|p|, WRITE_CHUNK);
      [Frame(STDIN, p[..n])] + StdinFrames(p[n..])
  }

  function Joined(fs: seq<Frame>): seq<byte> {
    if fs == [] then [] else fs[0].payload + Joined(fs[1..])
  }

  /** Frames of 1 to 65536 bytes whose payloads put together are the input. */
  lemma {:induction false} StdinFramesMean(p: seq<byte>)
    ensures Joined(StdinFrames(p)) == p
    ensures forall k :: 0 <= k < |StdinFrames(p)| ==>
              StdinFrames(p)[k].id == 0 && 1 <= |StdinFrames(p)[k].payload| <= 65536
    ensures forall k :: 0 <= k < |StdinFrames(p)| - 1 ==> |StdinFrames(p)[k].payload| == 65536
    decreases |p|
  {
    if p == [] {
    } else {
      StdinFramesMean(p[Min(|p|, WRITE_CHUNK)..]);
    }
  }

  /** Complete chunks first, then one more chunk. */
  lemma {:induction false} StdinFramesSnoc(a: seq<byte>, b: seq<byte>)
    requires |a| % WRITE_CHUNK == 0 && 0 < |b| <= WRITE_CHUNK
    ensures StdinFrames(a + b) == StdinFrames(a) + [Frame(STDIN, b)]
    decreases |a|
  {
    if a == [] {
      assert a + b == b && b[..|b|] == b && b[|b|..] == [];
    } else {
      var rest := a[WRITE_CHUNK..];
      StdinFramesSnoc(rest, b);
      assert (a + b)[..WRITE_CHUNK] == a[..WRITE_CHUNK];
      assert (a + b)[WRITE_CHUNK..] == rest + b;
    }
  }

  type u16 = x: int | 0 <= x < 0x1_0000

  /** "%dx%d,0x0" and a zero byte. */
  function WindowSize(rows: u16, cols: u16): seq<byte> {
    Decimal(rows) + [120] + Decimal(cols) + [44, 48, 120, 48] + [0]
  }

  datatype Call = Write(p: seq<byte>) | Resize(rows: u16, cols: u16) | CloseStdin

  function FramesOf(c: Call): (fs: seq<Frame>) {
    match c
    case Write(p) => StdinFrames(p)
    case Resize(rows, cols) => [Frame(WINDOW_SIZE, WindowSize(rows, cols))]
    case CloseStdin => [Frame(CLOSE_STDIN, [])]
  }

  function ProgramOf(calls: seq<Call>): seq<Frame> {
    if calls == [] then [] else FramesOf(calls[0]) + ProgramOf(calls[1..])
  }

  /** What the frames of the three calls say: the input, the window with its rows first, and the end of the input. */
  lemma CallsMean(c: Call) returns (x: nat, y: nat)
    ensures c.Write? ==> Joined(FramesOf(c)) == c.p && forall k :: 0 <= k < |FramesOf(c)| ==> FramesOf(c)[k].id == 0
    ensures c.CloseStdin? ==> FramesOf(c) == [Frame(4, [])]
    ensures c.Resize? ==>
              && |FramesOf(c)| == 1 && FramesOf(c)[0].id == 5
              && var w := FramesOf(c)[0].payload;
              && x < y < |w| && w[x] == 120 && w[y..] == [44, 48, 120, 48, 0]
              && FromDecimal(w[..x]) == c.rows && FromDecimal(w[x + 1..y]) == c.cols
  {
    hide WindowSize, FromDecimal, StdinFrames, Joined;
    x, y := 0, 0;
    match c
    case Write(p) => StdinFramesMean(p);
    case CloseStdin =>
    case Resize(rows, cols) => x, y := WindowMeans(rows, cols);
  }

  /** Rows, the letter x, columns, and the part that does not vary. */
  lemma WindowMeans(rows: u16, cols: u16) returns (x: nat, y: nat)
    ensures var w := WindowSize(rows, cols);
            && x < y < |w| && w[x] == 120 && w[y..] == [44, 48, 120, 48, 0]
            && FromDecimal(w[..x]) == rows && FromDecimal(w[x + 1..y]) == cols
  {
    hide Decimal, FromDecimal;
    var w := WindowSize(rows, cols);
    x := |Decimal(rows)|;
    y := x + 1 + |Decimal(cols)|;
    DecimalReadsBack(rows);
    DecimalReadsBack(cols);
    assert w[..x] == Decimal(rows) && w[x + 1..y] == Decimal(cols);
  }

  predicate AllValid(fs: seq<Frame>) {
    forall k :: 0 <= k < |fs| ==> Valid(fs[k])
  }

  lemma {:induction false} ProgramsValid(calls: seq<Call>)
    ensures AllValid(ProgramOf(calls))
  {
    if calls == [] {
    } else {
      ProgramsValid(calls[1..]);
      if calls[0].Write? {
        StdinFramesMean(calls[0].p);
      }
    }
  }

  // -------------------------------------------------------------- partial writes

  /** One answer of the transport's Write: it takes some of the bytes, and may report an error as well. */
  datatype Answer = Answer(takes: nat, fails: bool)

  /** Every write takes at least one byte and none fails. */
  predicate Willing(plan: seq<Answer>) {
    forall k :: 0 <= k < |plan| ==> plan[k].takes >= 1 && !plan[k].fails
  }

  class Wire {
    var out: seq<byte>
    var plan: seq<Answer>

    constructor (plan: seq<Answer>)
      ensures out == [] && this.plan == plan
    {
      out, this.plan := [], plan;
    }

    /** Once the plan is used up, everything is taken. */
    method Write(p: seq<byte>) returns (n: nat, failed: bool)
      modifies this
      ensures n <= |p| && out == old(out) + p[..n]
      ensures Willing(old(plan)) ==> Willing(plan) && !failed && (p != [] ==> n > 0)
    {
      n, failed := |p|, false;
      if plan != [] {
        n, failed := Min(plan[0].takes, |p|), plan[0].fails;
        plan := plan[1..];
      }
      out := out + p[..n];
    }
  }

  method WriteAll(w: Wire, p: seq<byte>) returns (ok: bool, ghost sent: nat)
    modifies w
    ensures sent <= |p| && w.out == old(w.out) + p[..sent]
    ensures ok ==> sent == |p|
    ensures Willing(old(w.plan)) ==> ok && Willing(w.plan)
  {
    var left := p;
    sent := 0;
    while |left| > 0
      invariant sent <= |p| && left == p[sent..]
      invariant w.out == old(w.out) + p[..sent]
      invariant Willing(old(w.plan)) ==> Willing(w.plan)
      decreases |left|
    {
      var n, failed := w.Write(left);
      assert p[..sent] + left[..n] == p[..sent + n];
      sent := sent + n;
      left := left[n..];
      if failed {
        return false, sent;
      }
      if n == 0 {
        return false, sent;
      }
    }
    return true, sent;
  }

  method WriteFrame(w: Wire, f: Frame) returns (ok: bool, ghost sent: nat)
    modifies w
    ensures sent <= |Encode(f)| && w.out == old(w.out) + Encode(f)[..sent]
    ensures ok ==> sent == |Encode(f)|
    ensures Willing(old(w.plan)) ==> ok && Willing(w.plan)
  {
    hide LE32;
    var header := [f.id] + LE32(ToU32(|f.payload|));
    assert Encode(f) == header + f.payload;
    ok, sent := WriteAll(w, header);
    assert Encode(f)[..sent] == header[..sent];
    if !ok {
      return;
    }
    ghost var more;
    ok, more := WriteAll(w, f.payload);
    assert header[..sent] == header;
    assert Encode(f)[..sent + more] == header + f.payload[..more];
    sent := sent + more;
  }

  /**
   * Session.Write over a transport that takes arbitrary parts: on success the wire carries the frames of the whole
   * input; on failure the complete frames of the first `written` bytes and then a prefix of the next frame.
   */
  method WriteStdin(w: Wire, p: seq<byte>) returns (written: nat, ok: bool, ghost partial: seq<byte>)
    modifies w
    ensures written <= |p|
    ensures w.out == old(w.out) + EncodeAll(StdinFrames(p[..written])) + partial
    ensures ok ==> written == |p| && partial == []
    ensures !ok ==> written < |p| && written % WRITE_CHUNK == 0
                    && partial <= Encode(Frame(STDIN, p[written..][..Min(|p| - written, WRITE_CHUNK)]))
    ensures Willing(old(w.plan)) ==> ok
  {
    hide Encode, EncodeAll, StdinFrames;
    written, partial := 0, [];
    var left := p;
    NothingWritten();
    while |left| > 0
      invariant written <= |p| && left == p[written..] && partial == []
      invariant left != [] ==> written % WRITE_CHUNK == 0
      invariant w.out == old(w.out) + EncodeAll(StdinFrames(p[..written]))
      invariant Willing(old(w.plan)) ==> Willing(w.plan)
      decreases |left|
    {
      var n := |left|;
      if n > WRITE_CHUNK {
        n := WRITE_CHUNK;
      }
      var f := Frame(STDIN, left[..n]);
      ghost var sent;
      ok, sent := WriteFrame(w, f);
      if !ok {
        partial := Encode(f)[..sent];
        return;
      }
      assert Encode(f)[..sent] == Encode(f);
      StdinFramesSnoc(p[..written], left[..n]);
      assert p[..written] + left[..n] == p[..written + n];
      EncodeAllSnoc(StdinFrames(p[..written]), f);
      written := written + n;
      left := left[n..];
    }
    ok := true;
  }

  lemma NothingWritten()
    ensures EncodeAll(StdinFrames([])) == []
  {
  }

  // ----------------------------------------------------------- concurrent callers

  /** Any number of callers; `todo` holds the frames each has still to send, `log` who locked writeMu for what. */
  datatype State = State(
    todo: seq<seq<Frame>>,
    holder: Option<nat>,
    remaining: seq<byte>,
    wire: seq<byte>,
    log: seq<(nat, Frame)>)

  datatype Step = Lock(who: nat) | Emit(n: nat) | Unlock

  function Init(programs: seq<seq<Frame>>): State {
    State(programs, None, [], [], [])
  }

  function Next(s: State, step: Step): Option<State> {
    match step
    case Lock(i) =>
      if s.holder.Some? || i >= |s.todo| || s.todo[i] == [] then None
      else
        var f := s.todo[i][0];
        Some(s.(todo := s.todo[i := s.todo[i][1..]], holder := Some(i), remaining := Encode(f), log := s.log + [(i, f)]))
    case Emit(n) =>
      if s.holder.None? || n == 0 || n > |s.remaining| then None
      else Some(s.(wire := s.wire + s.remaining[..n], remaining := s.remaining[n..]))
    case Unlock =>
      if s.holder.None? || s.remaining != [] then None else Some(s.(holder := None))
  }

  function Run(s: State, steps: seq<Step>): Option<State>
    decreases |steps|
  {
    if steps == [] then Some(s)
    else
      match Next(s, steps[0])
      case None => None
      case Some(t) => Run(t, steps[1..])
  }

  function FramesIn(log: seq<(nat, Frame)>): seq<Frame> {
    seq(|log|, k requires 0 <= k < |log| => log[k].1)
  }

  /** The frames of one caller, in the order they were sent. */
  function Sent(log: seq<(nat, Frame)>, i: nat): seq<Frame> {
    if log == [] then []
    else
      var last := log[|log| - 1];
      Sent(log[..|log| - 1], i) + if last.0 == i then [last.1] else []
  }

  ghost predicate Inv(s: State, programs: seq<seq<Frame>>) {
    && |s.todo| == |programs|
    && s.wire + s.remaining == EncodeAll(FramesIn(s.log))
    && (s.holder.None? ==> s.remaining == [])
    && (forall i :: 0 <= i < |programs| ==> Sent(s.log, i) + s.todo[i] == programs[i])
    && (forall k :: 0 <= k < |s.log| ==> s.log[k].0 < |programs|)
  }

  lemma LogGrows(log: seq<(nat, Frame)>, i: nat, f: Frame)
    ensures FramesIn(log + [(i, f)]) == FramesIn(log) + [f]
    ensures forall j: nat :: Sent(log + [(i, f)], j) == Sent(log, j) + if j == i then [f] else []
  {
    assert (log + [(i, f)])[..|log|] == log;
  }

  lemma StepKeeps(s: State, step: Step, t: State, programs: seq<seq<Frame>>)
    requires Inv(s, programs) && Next(s, step) == Some(t)
    ensures Inv(t, programs)
  {
    hide Encode, EncodeAll, FramesIn, Sent;
    match step
    case Lock(i) =>
      var f := s.todo[i][0];
      LogGrows(s.log, i, f);
      EncodeAllSnoc(FramesIn(s.log), f);
      assert s.todo[i] == [f] + s.todo[i][1..];
      assert Sent(s.log, i) + s.todo[i] == Sent(s.log, i) + [f] + s.todo[i][1..];
    case Emit(n) =>
      assert s.remaining == s.remaining[..n] + s.remaining[n..];
    case Unlock =>
  }

  lemma {:induction false} RunKeeps(s: State, steps: seq<Step>, t: State, programs: seq<seq<Frame>>)
    requires Inv(s, programs) && Run(s, steps) == Some(t)
    ensures Inv(t, programs)
    decreases |steps|
  {
    hide Inv, Next;
    if steps == [] {
    } else {
      StepKeeps(s, steps[0], Next(s, steps[0]).value, programs);
      RunKeeps(Next(s, steps[0]).value, steps[1..], t, programs);
    }
  }

  lemma {:induction false} SentIsValid(log: seq<(nat, Frame)>, programs: seq<seq<Frame>>, k: nat)
    requires k < |log| && log[k].0 < |programs|
    requires Sent(log, log[k].0) <= programs[log[k].0] && AllValid(programs[log[k].0])
    ensures Valid(log[k].1)
    decreases |log|
  {
    var i := log[k].0;
    var front := log[..|log| - 1];
    assert Sent(front, i) <= Sent(log, i);
    if k < |log| - 1 {
      assert front[k] == log[k];
      SentIsValid(front, programs, k);
    } else {
      assert Sent(log, i)[|Sent(front, i)|] == log[k].1;
    }
  }

  /**
   * Whatever the interleaving and however the transport splits the writes, whenever no caller is inside a frame
   * the wire parses completely into whole frames, and those sent by each caller are, in order, the first frames
   * of its own calls; once it has nothing left to send they are all of them.
   */
  lemma FramesNeverMix(callers: seq<seq<Call>>, steps: seq<Step>, s: State)
    requires Run(Init(seq(|callers|, i requires 0 <= i < |callers| => ProgramOf(callers[i]))), steps) == Some(s)
    ensures s.wire <= EncodeAll(FramesIn(s.log))
    ensures s.holder.None? ==> ParseFrames(s.wire) == Parsed(FramesIn(s.log), [])
    ensures |s.todo| == |callers|
    ensures forall k :: 0 <= k < |s.log| ==> s.log[k].0 < |callers|
    ensures forall i :: 0 <= i < |callers| ==> Sent(s.log, i) + s.todo[i] == ProgramOf(callers[i])
  {
    hide Encode, EncodeAll, ParseFrames, ProgramOf, Next, Run;
    var programs := seq(|callers|, i requires 0 <= i < |callers| => ProgramOf(callers[i]));
    InitHolds(programs);
    RunKeeps(Init(programs), steps, s, programs);
    forall k | 0 <= k < |s.log|
      ensures Valid(FramesIn(s.log)[k])
    {
      ProgramsValid(callers[s.log[k].0]);
      SentIsValid(s.log, programs, k);
    }
    FramesReadBack(FramesIn(s.log));
    assert s.holder.None? ==> s.wire == s.wire + s.remaining;
  }

  function FramesLeft(todo: seq<seq<Frame>>): nat {
    if todo == [] then 0 else |todo[0]| + FramesLeft(todo[1..])
  }

  lemma {:induction false} OneFrameLess(todo: seq<seq<Frame>>, i: nat)
    requires i < |todo| && todo[i] != []
    ensures FramesLeft(todo[i := todo[i][1..]]) == FramesLeft(todo) - 1
    decreases |todo|
  {
    var less := todo[i := todo[i][1..]];
    if i == 0 {
      assert less[1..] == todo[1..];
    } else {
      assert less[1..] == todo[1..][i - 1 := todo[1..][i - 1][1..]];
      OneFrameLess(todo[1..], i - 1);
    }
  }

  lemma StepFirst(s: State, step: Step, m: State, more: seq<Step>, t: State)
    requires Next(s, step) == Some(m) && Run(m, more) == Some(t)
    ensures Run(s, [step] + more) == Some(t)
  {
    hide Next;
    assert ([step] + more)[1..] == more;
  }

  /** The caller that holds writeMu sends what is left of its frame and lets go. */
  lemma HolderFinishes(s: State) returns (steps: seq<Step>, t: State)
    requires s.holder.Some?
    ensures Run(s, steps) == Some(t) && t.holder.None? && t.todo == s.todo && t.log == s.log && |steps| <= 2
  {
    var m := s;
    if s.remaining != [] {
      m := Next(s, Emit(|s.remaining|)).value;
    }
    t := Next(m, Unlock).value;
    StepFirst(m, Unlock, t, [], t);
    steps := [Unlock] + [];
    if s.remaining != [] {
      StepFirst(s, Emit(|s.remaining|), m, steps, t);
      steps := [Emit(|s.remaining|)] + steps;
    }
  }

  lemma {:induction false} RunsJoin(s: State, a: seq<Step>, m: State, b: seq<Step>, t: State)
    requires Run(s, a) == Some(m) && Run(m, b) == Some(t)
    ensures Run(s, a + b) == Some(t)
    decreases |a|
  {
    hide Next;
    if a == [] {
      assert a + b == b;
    } else {
      RunsJoin(Next(s, a[0]).value, a[1..], m, b, t);
      assert (a + b)[1..] == a[1..] + b;
    }
  }

  /** From every state some continuation sends all frames of all callers. */
  lemma {:induction false} AllCanBeSent(s: State) returns (steps: seq<Step>, t: State)
    ensures Run(s, steps) == Some(t) && t.holder.None? && forall i :: 0 <= i < |t.todo| ==> t.todo[i] == []
    decreases FramesLeft(s.todo), if s.holder.Some? then 1 else 0
  {
    hide Next;
    if s.holder.Some? {
      var a, m := HolderFinishes(s);
      var b;
      b, t := AllCanBeSent(m);
      RunsJoin(s, a, m, b, t);
      steps := a + b;
    } else if i :| 0 <= i < |s.todo| && s.todo[i] != [] {
      var m := Locks(s, i);
      OneFrameLess(s.todo, i);
      var b;
      b, t := AllCanBeSent(m);
      StepFirst(s, Lock(i), m, b, t);
      steps := [Lock(i)] + b;
    } else {
      steps, t := [], s;
    }
  }

  lemma Locks(s: State, i: nat) returns (t: State)
    requires s.holder.None? && i < |s.todo| && s.todo[i] != []
    ensures Next(s, Lock(i)) == Some(t) && t.todo == s.todo[i := s.todo[i][1..]]
  {
    t := Next(s, Lock(i)).value;
  }

  lemma InitHolds(programs: seq<seq<Frame>>)
    ensures Inv(Init(programs), programs)
  {
    assert FramesIn([]) == [];
  }
}

/** The unbounded buffer behind Stdout and Stderr, with any number of blocked readers (adb/device_shell_v2.go). */
module ShellStream {
  import opened Bytes
  import opened Wrappers

  /** bytes.Buffer.Read on a non-empty buffer: what is taken and what stays. */
  function Taken(buf: seq<byte>, n: nat): (seq<byte>, seq<byte>) {
    var m := Min(n, |buf|);
    (buf[..m], buf[m..])
  }

  class Stream {
    var buf: seq<byte>
    var closed: bool

    constructor ()
      ensures buf == [] && !closed
    {
      buf, closed := [], false;
    }

    method Write(p: seq<byte>)
      modifies this
      ensures buf == old(buf) + p && closed == old(closed)
    {
      if |p| == 0 {
        return;
      }
      buf := buf + p;
    }

    method Close()
      modifies this
      ensures closed && buf == old(buf)
    {
      closed := true;
    }

    /** The part of Read after its wait. */
    method Take(n: nat) returns (bytes: seq<byte>, eof: bool)
      requires buf != [] || closed
      modifies this
      ensures closed == old(closed) && (bytes, buf) == Taken(old(buf), n)
      ensures var m := if n < |old(buf)| then n else |old(buf)|; bytes == old(buf)[..m] && buf == old(buf)[m..]
      ensures eof <==> old(buf) == []
    {
      if |buf| == 0 {
        return [], true;
      }
      var m := Min(n, |buf|);
      bytes, eof := buf[..m], false;
      buf := buf[m..];
    }
  }

  /** A reader outside Read, asleep on the condition variable, or woken and about to look again. */
  datatype Reader = Idle | Asleep(n: nat) | Woken(n: nat)

  datatype State = State(
    buf: seq<byte>,
    closed: bool,
    readers: seq<Reader>,
    written: seq<byte>,
    delivered: seq<byte>,
    eofs: nat)

  /** Write and Close come from the one read loop of the session, which closes last. */
  datatype Step = Read(who: nat, n: nat) | LookAgain(who: nat) | Write(p: seq<byte>) | Close

  function Init(readers: nat): State {
    State([], false, seq(readers, _ => Idle), [], [], 0)
  }

  /** One look at the buffer under the lock. */
  function Look(s: State, who: nat, n: nat): State
    requires who < |s.readers|
  {
    if s.buf == [] && !s.closed then s.(readers := s.readers[who := Asleep(n)])
    else if s.buf == [] then s.(readers := s.readers[who := Idle], eofs := s.eofs + 1)
    else
      var (bytes, rest) := Taken(s.buf, n);
      s.(readers := s.readers[who := Idle], buf := rest, delivered := s.delivered + bytes)
  }

  /** cond.Broadcast */
  function Broadcast(readers: seq<Reader>): (r: seq<Reader>)
    ensures |r| == |readers|
    ensures forall i :: 0 <= i < |r| ==> !r[i].Asleep?
  {
    seq(|readers|, i requires 0 <= i < |readers| => if readers[i].Asleep? then Woken(readers[i].n) else readers[i])
  }

  function Next(s: State, step: Step): Option<State> {
    match step
    case Read(who, n) => if who < |s.readers| && s.readers[who].Idle? then Some(Look(s, who, n)) else None
    case LookAgain(who) => if who < |s.readers| && s.readers[who].Woken? then Some(Look(s, who, s.readers[who].n)) else None
    case Write(p) =>
      if s.closed then None
      else if p == [] then Some(s)
      else Some(s.(buf := s.buf + p, written := s.written + p, readers := Broadcast(s.readers)))
    case Close => Some(s.(closed := true, readers := Broadcast(s.readers)))
  }

  function Run(s: State, steps: seq<Step>): Option<State>
    decreases |steps|
  {
    if steps == [] then Some(s)
    else
      match Next(s, steps[0])
      case None => None
      case Some(t) => Run(t, steps[1..])
  }

  predicate Inv(s: State) {
    && s.delivered + s.buf == s.written
    && (forall i :: 0 <= i < |s.readers| && s.readers[i].Asleep? ==> s.buf == [] && !s.closed)
    && (s.eofs > 0 ==> s.closed && s.buf == [])
  }

  lemma LookKeeps(s: State, who: nat, n: nat)
    requires Inv(s) && who < |s.readers|
    ensures Inv(Look(s, who, n))
  {
    var t := Look(s, who, n);
    if s.buf != [] {
      var m := Min(n, |s.buf|);
      FrontAndRest(s.delivered, s.buf, m);
    }
  }

  lemma FrontAndRest(a: seq<byte>, b: seq<byte>, m: nat)
    requires m <= |b|
    ensures (a + b[..m]) + b[m..] == a + b
  {
  }

  lemma StepKeeps(s: State, step: Step, t: State)
    requires Inv(s) && Next(s, step) == Some(t)
    ensures Inv(t)
  {
    hide Look;
    match step
    case Read(who, n) => LookKeeps(s, who, n);
    case LookAgain(who) => LookKeeps(s, who, s.readers[who].n);
    case Write(p) => assert s.delivered + (s.buf + p) == (s.delivered + s.buf) + p;
    case Close =>
  }

  lemma {:induction false} RunKeeps(s: State, steps: seq<Step>, t: State)
    requires Inv(s) && Run(s, steps) == Some(t)
    ensures Inv(t)
    decreases |steps|
  {
    hide Inv, Next;
    if steps == [] {
    } else {
      StepKeeps(s, steps[0], Next(s, steps[0]).value);
      RunKeeps(Next(s, steps[0]).value, steps[1..], t);
    }
  }

  /** FIFO without loss; nobody sleeps while there is something to see; EOF only after everything was delivered. */
  lemma FifoNoLostWakeup(readers: nat, steps: seq<Step>, s: State)
    requires Run(Init(readers), steps) == Some(s)
    ensures s.delivered + s.buf == s.written
    ensures forall i :: 0 <= i < |s.readers| && s.readers[i].Asleep? ==> s.buf == [] && !s.closed
    ensures s.eofs > 0 ==> s.closed && s.delivered == s.written
  {
    hide Run, Next;
    RunKeeps(Init(readers), steps, s);
  }

  /** Everything the session has written. */
  function WrittenIn(steps: seq<Step>): seq<byte> {
    if steps == [] then []
    else
      var last := steps[|steps| - 1];
      WrittenIn(steps[..|steps| - 1]) + if last.Write? then last.p else []
  }

  lemma WrittenGrows(steps: seq<Step>, step: Step)
    ensures WrittenIn(steps + [step]) == WrittenIn(steps) + if step.Write? then step.p else []
  {
    assert (steps + [step])[..|steps|] == steps;
  }

  lemma StepWrites(s: State, step: Step, t: State)
    requires Next(s, step) == Some(t)
    ensures t.written == s.written + if step.Write? then step.p else []
    ensures t.closed == (s.closed || step.Close?)
    ensures step.Write? || step.Close? ==> forall i :: 0 <= i < |t.readers| ==> t.readers[i].Asleep? ==> step == Write([])
  {
  }

  lemma {:induction false} RunWrites(done: seq<Step>, s: State, more: seq<Step>, t: State)
    requires s.written == WrittenIn(done) && (s.closed <==> Close in done) && Run(s, more) == Some(t)
    ensures t.written == WrittenIn(done + more) && (t.closed <==> Close in done + more)
    decreases |more|
  {
    hide Next, WrittenIn;
    if more == [] {
      assert done + more == done;
    } else {
      var m := Next(s, more[0]).value;
      StepWrites(s, more[0], m);
      WrittenGrows(done, more[0]);
      RunWrites(done + [more[0]], m, more[1..], t);
      assert done + [more[0]] + more[1..] == done + more;
    }
  }

  /** What readers got and what is buffered is, in order, all that was written; the stream is closed once Close was called. */
  lemma StreamIsFifo(readers: nat, steps: seq<Step>, s: State)
    requires Run(Init(readers), steps) == Some(s)
    ensures s.delivered + s.buf == WrittenIn(steps)
    ensures s.closed <==> Close in steps
  {
    hide Run, WrittenIn;
    FifoNoLostWakeup(readers, steps, s);
    NothingWrittenYet();
    RunWrites([], Init(readers), steps, s);
    assert [] + steps == steps;
  }

  lemma NothingWrittenYet()
    ensures WrittenIn([]) == []
  {
  }

  /** The session never waits for its readers: it can always write to an open stream, and always close it. */
  lemma WriterNeverBlocks(s: State, p: seq<byte>)
    ensures Next(s, Write(p)).Some? <==> !s.closed
    ensures Next(s, Close).Some?
  {
  }

  /** A look by a reader at the buffer, and how much it asks for. */
  predicate Looks(s: State, step: Step, who: nat, n: nat) {
    && who < |s.readers|
    && ((step == Read(who, n) && s.readers[who].Idle?) || (step == LookAgain(who) && s.readers[who] == Woken(n)))
  }

  /**
   * What a look gives: as much of the front of the buffer as is asked for, or EOF when a closed stream is empty; an
   * empty open stream puts the reader to sleep.
   */
  lemma LookGives(s: State, step: Step, who: nat, n: nat)
    requires Looks(s, step, who, n)
    ensures Next(s, step).Some?
    ensures var t, m := Next(s, step).value, if n < |s.buf| then n else |s.buf|;
            && t.written == s.written && t.closed == s.closed && |t.readers| == |s.readers|
            && t.delivered == s.delivered + s.buf[..m] && t.buf == s.buf[m..]
            && (s.buf != [] ==> t.eofs == s.eofs && t.readers == s.readers[who := Idle])
            && (s.buf == [] && s.closed ==> t.eofs == s.eofs + 1 && t.readers == s.readers[who := Idle])
            && (s.buf == [] && !s.closed ==> t.eofs == s.eofs && t.readers == s.readers[who := Asleep(n)])
  {
  }

  /** Every look of the list asks for at least one byte, where the readers now stand. */
  predicate Greedy(s: State, looks: seq<Step>) {
    && (forall k :: 0 <= k < |looks| ==> looks[k].LookAgain? || (looks[k].Read? && looks[k].n >= 1))
    && (forall i :: 0 <= i < |s.readers| ==> s.readers[i].Idle? || s.readers[i].n >= 1)
  }

  /** On a closed stream, any looks of any readers, as many as there are bytes left, deliver everything. */
  lemma {:induction false} LooksDrain(s: State, looks: seq<Step>, t: State)
    requires Inv(s) && s.closed && Greedy(s, looks) && Run(s, looks) == Some(t)
    ensures |looks| >= |s.buf| ==> t.delivered == t.written
    ensures t.closed && Inv(t)
    decreases |looks|
  {
    hide Next;
    if looks == [] {
      assert s.buf == [] ==> s.delivered + s.buf == s.delivered;
    } else {
      var who, n := LookIs(s, looks[0]);
      LookGives(s, looks[0], who, n);
      var m := Next(s, looks[0]).value;
      StepKeeps(s, looks[0], m);
      LooksDrain(m, looks[1..], t);
    }
  }

  lemma LookIs(s: State, step: Step) returns (who: nat, n: nat)
    requires (step.LookAgain? || step.Read?) && Next(s, step).Some?
    ensures Looks(s, step, who, n) && (step.Read? ==> n == step.n) && (step.LookAgain? ==> n == s.readers[who].n)
  {
    who := step.who;
    n := if step.Read? then step.n else s.readers[who].n;
  }

  /** A reader that is free can always do it alone. */
  lemma {:induction false} OneReaderDrains(s: State, who: nat, n: nat) returns (looks: seq<Step>, t: State)
    requires Inv(s) && s.closed && who < |s.readers| && s.readers[who].Idle? && n >= 1
    ensures Run(s, looks) == Some(t) && |looks| <= |s.buf| && t.delivered == t.written == s.written
    decreases |s.buf|
  {
    hide Next;
    if s.buf == [] {
      looks, t := [], s;
      assert s.delivered + [] == s.delivered;
    } else {
      LookGives(s, Read(who, n), who, n);
      var m := Next(s, Read(who, n)).value;
      StepKeeps(s, Read(who, n), m);
      var later;
      later, t := OneReaderDrains(m, who, n);
      looks := [Read(who, n)] + later;
      assert looks[1..] == later;
    }
  }

  /** From every reachable closed state, looks that ask for something, as many as there are bytes left, deliver everything. */
  lemma ClosedStreamDrains(readers: nat, steps: seq<Step>, s: State, looks: seq<Step>, t: State)
    requires Run(Init(readers), steps) == Some(s) && s.closed && Greedy(s, looks) && Run(s, looks) == Some(t)
    requires |looks| >= |s.buf|
    ensures t.delivered == t.written
  {
    hide Run, Next;
    RunKeeps(Init(readers), steps, s);
    LooksDrain(s, looks, t);
  }

  lemma {:induction false} DrainedStays(s: State, more: seq<Step>, t: State)
    requires s.closed && s.buf == [] && Run(s, more) == Some(t)
    ensures t.closed && t.buf == [] && t.delivered == s.delivered && t.written == s.written
    decreases |more|
  {
    if more == [] {
    } else {
      DrainedStays(Next(s, more[0]).value, more[1..], t);
    }
  }

  /** Once EOF was returned, no read ever returns anything else. */
  lemma EofIsPermanent(readers: nat, steps: seq<Step>, s: State, more: seq<Step>, t: State, who: nat, n: nat)
    requires Run(Init(readers), steps) == Some(s) && s.eofs > 0 && Run(s, more) == Some(t)
    requires who < |t.readers|
    ensures t.delivered == s.delivered == s.written
    ensures Look(t, who, n) == t.(readers := t.readers[who := Idle], eofs := t.eofs + 1)
  {
    hide Run, Next;
    RunKeeps(Init(readers), steps, s);
    DrainedStays(s, more, t);
  }
}
