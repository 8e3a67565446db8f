/** The sync file-transfer protocol as functions of the bytes a device sends (adb/sync.go). */
module SyncWire {
  import opened Bytes
  import opened Conn
  import opened Wrappers

  const STAT: seq<byte> := [83, 84, 65, 84]
  const LIST: seq<byte> := [76, 73, 83, 84]
  const SEND: seq<byte> := [83, 69, 78, 68]
  const RECV: seq<byte> := [82, 69, 67, 86]
  const DENT: seq<byte> := [68, 69, 78, 84]
  const DONE: seq<byte> := [68, 79, 78, 69]
  const DATA: seq<byte> := [68, 65, 84, 65]
  const OKAY: seq<byte> := [79, 75, 65, 89]
  const FAIL: seq<byte> := [70, 65, 73, 76]

  const DATA_MAX: nat := 65536

  datatype Error = Io(err: IoError) | Remote(msg: seq<byte>) | Unexpected(reply: seq<byte>) | NoSuchFile | WriteFailed | WriterFailed

  // ------------------------------------------------------------------- replies

  /** What is left of the connection once a read has failed: nothing. */
  function ReadError(s: seq<byte>, end: IoError): (Error, seq<byte>) {
    match ReadFull(s, 4, end)
    case Failed(e) => (Io(e), [])
    case Got(word, s1) =>
      match ReadFull(s1, FromLE32(word), end)
      case Failed(e) => (Io(e), [])
      case Got(msg, s2) => (Remote(msg), s2)
  }

  datatype Pull = Pull(data: seq<byte>, err: Option<Error>, rest: seq<byte>)

  /** readData: everything handed to the writer, the error returned, and the bytes not consumed. */
  function ReadData(s: seq<byte>, end: IoError, got: seq<byte>): Pull
    decreases |s|
  {
    match ReadFull(s, 4, end)
    case Failed(e) => Pull(got, Some(Io(e)), [])
    case Got(reply, s1) =>
      if reply == DATA then
        match ReadFull(s1, 4, end)
        case Failed(e) => Pull(got, Some(Io(e)), [])
        case Got(word, s2) =>
          match ReadFull(s2, FromLE32(word), end)
          case Failed(e) => Pull(got, Some(Io(e)), [])
          case Got(data, s3) => ReadData(s3, end, got + data)
      else if reply == DONE then
        match ReadFull(s1, 4, end)
        case Failed(e) => Pull(got, Some(Io(e)), [])
        case Got(_, s2) => Pull(got, None, s2)
      else if reply == FAIL then
        var (e, s2) := ReadError(s1, end);
        Pull(got, Some(e), s2)
      else Pull(got, Some(Unexpected(reply)), s1)
  }

  /** ReadFile: through the pipe an io.EOF of readData becomes an ordinary end of file. */
  function ReadFile(s: seq<byte>, end: IoError): Pull {
    var p := ReadData(s, end, []);
    if p.err == Some(Io(EOF)) then p.(err := None) else p
  }

  function FinalReply(s: seq<byte>, end: IoError): (Option<Error>, seq<byte>) {
    match ReadFull(s, 4, end)
    case Failed(e) => (Some(Io(e)), [])
    case Got(reply, s1) =>
      if reply == OKAY then
        match ReadFull(s1, 4, end)
        case Failed(e) => (Some(Io(e)), [])
        case Got(_, s2) => (None, s2)
      else if reply == FAIL then
        var (e, s2) := ReadError(s1, end);
        (Some(e), s2)
      else (Some(Unexpected(reply)), s1)
  }

  datatype StatEntry = StatEntry(mode: u32, size: u32, mtime: u32)
  datatype StatResult = StatOk(entry: StatEntry) | StatError(err: Error)

  function StatReply(s: seq<byte>, end: IoError): (StatResult, seq<byte>) {
    match ReadFull(s, 4, end)
    case Failed(e) => (StatError(Io(e)), [])
    case Got(reply, s1) =>
      if reply == STAT then
        match ReadFull(s1, 12, end)
        case Failed(e) => (StatError(Io(e)), [])
        case Got(w, s2) =>
          var mode := FromLE32(w[0..4]);
          if mode == 0 then (StatError(NoSuchFile), s2)
          else (StatOk(StatEntry(mode, FromLE32(w[4..8]), FromLE32(w[8..12]))), s2)
      else if reply == FAIL then
        var (e, s2) := ReadError(s1, end);
        (StatError(e), s2)
      else (StatError(Unexpected(reply)), s1)
  }

  datatype DirEntry = DirEntry(name: seq<byte>, mode: u32, size: u32, mtime: u32)
  datatype DirResult = DirOk(files: seq<DirEntry>) | DirError(err: Error)

  /** "." and ".." */
  predicate IsDots(name: seq<byte>) {
    name == [46] || name == [46, 46]
  }

  function Listed(files: seq<DirEntry>, e: DirEntry): seq<DirEntry> {
    if IsDots(e.name) then files else files + [e]
  }

  function DirReply(s: seq<byte>, end: IoError, files: seq<DirEntry>): (DirResult, seq<byte>)
    decreases |s|
  {
    match ReadFull(s, 4, end)
    case Failed(e) => (DirError(Io(e)), [])
    case Got(reply, s1) =>
      if reply == DENT then
        match ReadFull(s1, 16, end)
        case Failed(e) => (DirError(Io(e)), [])
        case Got(w, s2) =>
          match ReadFull(s2, FromLE32(w[12..16]), end)
          case Failed(e) => (DirError(Io(e)), [])
          case Got(name, s3) =>
            DirReply(s3, end, Listed(files, DirEntry(name, FromLE32(w[0..4]), FromLE32(w[4..8]), FromLE32(w[8..12]))))
      else if reply == DONE then
        match ReadFull(s1, 16, end)
        case Failed(e) => (DirError(Io(e)), [])
        case Got(_, s2) => (DirOk(files), s2)
      else if reply == FAIL then
        var (e, s2) := ReadError(s1, end);
        (DirError(e), s2)
      else (DirError(Unexpected(reply)), s1)
  }

  // ------------------------------------------------------------------- requests

  function Command(cmd: seq<byte>, n: u32): seq<byte> {
    cmd + LE32(n)
  }

  function Request(cmd: seq<byte>, arg: seq<byte>): seq<byte> {
    Command(cmd, ToU32(|arg|)) + arg
  }

  /** The pieces writeData cuts its data into. */
  function Chunks(data: seq<byte>): (cs: seq<seq<byte>>) {
    if data == [] then []
    else
      var n := Min(|data|, DATA_MAX);
      [data[..n]] + Chunks(data[n..])
  }

  function DataMessage(chunk: seq<byte>): seq<byte> {
    Command(DATA, ToU32(|chunk|)) + chunk
  }

  function DataMessages(chunks: seq<seq<byte>>): seq<byte> {
    if chunks == [] then [] else DataMessage(chunks[0]) + DataMessages(chunks[1..])
  }

  /** What writeData sends before it waits for the reply. */
  function PushBytes(data: seq<byte>, timestamp: u32): seq<byte> {
    DataMessages(Chunks(data)) + Command(DONE, timestamp)
  }

  const DEFAULT_CHMOD: u32 := 420

  /** The mode a push asks for: 0644 if none is given, and always with bit 15, which marks a regular file. */
  function PushMode(mode: u32): u32 {
    var m := if mode == 0 then DEFAULT_CHMOD else mode;
    if m / 0x8000 % 2 == 1 then m else m + 0x8000
  }

  /** The path, a comma and the mode in decimal. */
  function PushArg(path: seq<byte>, mode: u32): seq<byte> {
    path + [44] + Decimal(PushMode(mode))
  }

  /** Go's conversion of an int64 to uint32. */
  function Truncated(n: int): u32 {
    n % WORD
  }

  /** Everything a push sends. */
  function PushRequest(data: seq<byte>, path: seq<byte>, mode: u32, mtime: int): seq<byte> {
    Request(SEND, PushArg(path, mode)) + PushBytes(data, Truncated(mtime))
  }
}

/** The sync client itself (adb/sync.go). */
module SyncClient {
  import opened Bytes
  import opened Conn
  import opened Wrappers
  import opened SyncWire

  class SyncService {
    var input: seq<byte>     // what the device sends
    const end: IoError       // and how the connection ends after that
    var output: seq<byte>    // what the client wrote
    var faults: seq<Option<nat>>   // one entry a write: Some(n) is an error after n bytes; once used up all goes well

    constructor (input: seq<byte>, end: IoError, faults: seq<Option<nat>>)
      ensures this.input == input && this.end == end && output == [] && this.faults == faults
    {
      this.input, this.end, this.output, this.faults := input, end, [], faults;
    }

    /** net.Conn.Write: all of it, or an error after some of it. */
    method Write(p: seq<byte>) returns (ok: bool, ghost sent: nat)
      modifies this`output, this`faults
      ensures sent <= |p| && output == old(output) + p[..sent] && (ok ==> sent == |p|)
      ensures old(faults) == [] ==> ok && faults == []
    {
      ok, sent := true, |p|;
      var n := |p|;
      if faults != [] {
        if faults[0].Some? {
          n := Min(faults[0].value, |p|);
          ok, sent := false, n;
        }
        faults := faults[1..];
      }
      output := output + p[..n];
    }

    method SendCommandWithLength(cmd: seq<byte>, length: u32) returns (ok: bool, ghost sent: nat)
      modifies this`output, this`faults
      ensures sent <= |Command(cmd, length)| && output == old(output) + Command(cmd, length)[..sent]
      ensures ok ==> sent == |Command(cmd, length)|
      ensures old(faults) == [] ==> ok && faults == []
    {
      hide LE32;
      var payload := new byte[|cmd| + 4](i => 0);
      forall i | 0 <= i < |cmd| {
        payload[i] := cmd[i];
      }
      PutUint32(payload, |cmd|, length);
      assert payload[..] == payload[..|cmd|] + payload[|cmd|..|cmd| + 4];
      assert payload[..|cmd|] == cmd;
      ok, sent := Write(payload[..]);
    }

    method SendCommandWithArg(cmd: seq<byte>, arg: seq<byte>) returns (ok: bool, ghost sent: nat)
      modifies this`output, this`faults
      ensures sent <= |Request(cmd, arg)| && output == old(output) + Request(cmd, arg)[..sent]
      ensures ok ==> sent == |Request(cmd, arg)|
      ensures old(faults) == [] ==> ok && faults == []
    {
      hide LE32;
      var payload := new byte[|cmd| + 4 + |arg|](i => 0);
      forall i | 0 <= i < |cmd| {
        payload[i] := cmd[i];
      }
      PutUint32(payload, |cmd|, ToU32(|arg|));
      forall i | 0 <= i < |arg| {
        payload[|cmd| + 4 + i] := arg[i];
      }
      assert payload[..|cmd|] == cmd;
      assert payload[|cmd|..|cmd| + 4] == LE32(ToU32(|arg|));
      assert payload[|cmd| + 4..] == arg;
      assert payload[..] == payload[..|cmd|] + payload[|cmd|..|cmd| + 4] + payload[|cmd| + 4..];
      ok, sent := Write(payload[..]);
    }

    /** ReadFull on the connection. */
    method ReadBytes(n: nat) returns (r: Full)
      modifies this`input
      ensures r == ReadFull(old(input), n, end)
      ensures input == if r.Got? then r.rest else []
    {
      r := ReadFull(input, n, end);
      input := if r.Got? then r.rest else [];
    }

    method ReadErrorMessage() returns (err: Error)
      modifies this`input
      ensures (err, input) == ReadError(old(input), end)
    {
      var w := ReadBytes(4);
      if w.Failed? {
        return Io(w.err);
      }
      var m := ReadBytes(FromLE32(w.bytes));
      if m.Failed? {
        return Io(m.err);
      }
      return Remote(m.bytes);
    }

    method ReadFinalReply() returns (err: Option<Error>)
      modifies this`input
      ensures (err, input) == FinalReply(old(input), end)
    {
      var r := ReadBytes(4);
      if r.Failed? {
        return Some(Io(r.err));
      }
      if r.bytes == OKAY {
        var w := ReadBytes(4);
        return if w.Failed? then Some(Io(w.err)) else None;
      } else if r.bytes == FAIL {
        var e := ReadErrorMessage();
        return Some(e);
      }
      return Some(Unexpected(r.bytes));
    }

    /** One round of the loop of writeData. */
    method SendChunk(chunk: seq<byte>) returns (ok: bool, ghost sent: nat)
      modifies this`output, this`faults
      ensures sent <= |DataMessage(chunk)| && output == old(output) + DataMessage(chunk)[..sent]
      ensures ok ==> sent == |DataMessage(chunk)|
      ensures old(faults) == [] ==> ok && faults == []
    {
      hide Command;
      ghost var head := Command(DATA, ToU32(|chunk|));
      ok, sent := SendCommandWithLength(DATA, ToU32(|chunk|));
      assert head[..sent] == DataMessage(chunk)[..sent];
      if ok {
        assert head[..sent] == head;
        ghost var more;
        ok, more := Write(chunk);
        assert head + chunk[..more] == DataMessage(chunk)[..sent + more];
        sent := sent + more;
      }
    }

    /** The data goes out in chunks of at most 64 KiB, then DONE with the timestamp; a failed write leaves a prefix of that. */
    method WriteData(data: seq<byte>, timestamp: u32) returns (err: Option<Error>, ghost sent: nat)
      modifies this
      ensures sent <= |PushBytes(data, timestamp)| && output == old(output) + PushBytes(data, timestamp)[..sent]
      ensures (err == Some(WriteFailed) && input == old(input))
              || (sent == |PushBytes(data, timestamp)| && (err, input) == FinalReply(old(input), end))
      ensures old(faults) == [] ==>
                sent == |PushBytes(data, timestamp)| && (err, input) == FinalReply(old(input), end) && faults == []
    {
      hide Command, Chunks, DataMessage, DataMessages, FinalReply;
      ghost var all := PushBytes(data, timestamp);
      ghost var before := [];
      var offset := 0;
      NothingPushed();
      while offset < |data|
        invariant offset <= |data| && input == old(input)
        invariant offset < |data| ==> offset % DATA_MAX == 0
        invariant before == DataMessages(Chunks(data[..offset]))
        invariant output == old(output) + before
        invariant old(faults) == [] ==> faults == []
      {
        var size := DATA_MAX;
        if offset + size > |data| {
          size := |data| - offset;
        }
        var chunk := data[offset..offset + size];
        ChunksPrefix(data, offset, timestamp);
        var ok, n := SendChunk(chunk);
        PrefixSlice(before, DataMessage(chunk), all, n);
        if !ok {
          return Some(WriteFailed), |before| + n;
        }
        before := before + DataMessage(chunk);
        assert DataMessage(chunk)[..n] == DataMessage(chunk);
        offset := offset + size;
      }
      assert data[..offset] == data;
      var ok, n := SendCommandWithLength(DONE, timestamp);
      PrefixSlice(before, Command(DONE, timestamp), all, n);
      sent := |before| + n;
      if !ok {
        return Some(WriteFailed), sent;
      }
      err := ReadFinalReply();
    }

    /**
     * PushContent: the request, the data, one final reply.  A failed write leaves a prefix of that and nothing read.
     */
    method PushContent(data: seq<byte>, path: seq<byte>, mode: u32, mtime: int) returns (err: Option<Error>, ghost sent: nat)
      modifies this
      ensures var all := PushRequest(data, path, mode, mtime);
              && sent <= |all| && output == old(output) + all[..sent]
              && ((err == Some(WriteFailed) && input == old(input))
                  || (sent == |all| && (err, input) == FinalReply(old(input), end)))
              && (old(faults) == [] ==> sent == |all| && (err, input) == FinalReply(old(input), end) && faults == [])
    {
      hide Request, PushArg, PushBytes, FinalReply;
      ghost var all := PushRequest(data, path, mode, mtime);
      ghost var head := Request(SEND, PushArg(path, mode));
      var ok;
      ok, sent := SendCommandWithArg(SEND, PushArg(path, mode));
      assert head[..sent] == all[..sent];
      if !ok {
        return Some(WriteFailed), sent;
      }
      ghost var more;
      err, more := WriteData(data, Truncated(mtime));
      PrefixSlice(head, PushBytes(data, Truncated(mtime)), all, more);
      assert head[..sent] == head;
      sent := sent + more;
    }

    /**
     * readData.  The entries of `writer` are the answers of the receiving writer, Some(n) an error after n bytes, all
     * well once they are used up.  After such an error the bytes handed over so far and the rest of the connection
     * are those of a pull in mid-course.
     */
    method ReadDataInto(writer: seq<Option<nat>>) returns (got: seq<byte>, err: Option<Error>, ghost handed: seq<byte>)
      modifies this`input
      ensures err != Some(WriterFailed) ==> Pull(got, err, input) == ReadData(old(input), end, [])
      ensures err == Some(WriterFailed) ==> got <= handed && ReadData(input, end, handed) == ReadData(old(input), end, [])
      ensures writer == [] ==> err != Some(WriterFailed)
    {
      got, handed := [], [];
      var answers := writer;
      while true
        invariant ReadData(input, end, got) == ReadData(old(input), end, [])
        invariant writer == [] ==> answers == []
        decreases |input|
      {
        var r := ReadBytes(4);
        if r.Failed? {
          return got, Some(Io(r.err)), got;
        }
        if r.bytes == DATA {
          var w := ReadBytes(4);
          if w.Failed? {
            return got, Some(Io(w.err)), got;
          }
          var d := ReadBytes(FromLE32(w.bytes));
          if d.Failed? {
            return got, Some(Io(d.err)), got;
          }
          if answers != [] {
            if answers[0].Some? {
              return got + d.bytes[..Min(answers[0].value, |d.bytes|)], Some(WriterFailed), got + d.bytes;
            }
            answers := answers[1..];
          }
          got := got + d.bytes;
        } else if r.bytes == DONE {
          var w := ReadBytes(4);
          return got, if w.Failed? then Some(Io(w.err)) else None, got;
        } else if r.bytes == FAIL {
          var e := ReadErrorMessage();
          return got, Some(e), got;
        } else {
          return got, Some(Unexpected(r.bytes)), got;
        }
      }
    }

    /** Stat: one request, then one reply. */
    method Stat(path: seq<byte>) returns (r: StatResult, ghost sent: nat)
      modifies this
      ensures sent <= |Request(STAT, path)| && output == old(output) + Request(STAT, path)[..sent]
      ensures (r == StatError(WriteFailed) && input == old(input))
              || (sent == |Request(STAT, path)| && (r, input) == StatReply(old(input), end))
      ensures old(faults) == [] ==> sent == |Request(STAT, path)| && (r, input) == StatReply(old(input), end) && faults == []
    {
      hide Request, StatReply;
      var ok;
      ok, sent := SendCommandWithArg(STAT, path);
      if !ok {
        return StatError(WriteFailed), sent;
      }
      r := ReadStat();
    }

    /** Readdir. */
    method Readdir(path: seq<byte>) returns (r: DirResult, ghost sent: nat)
      modifies this
      ensures sent <= |Request(LIST, path)| && output == old(output) + Request(LIST, path)[..sent]
      ensures (r == DirError(WriteFailed) && input == old(input))
              || (sent == |Request(LIST, path)| && (r, input) == DirReply(old(input), end, []))
      ensures old(faults) == [] ==> sent == |Request(LIST, path)| && (r, input) == DirReply(old(input), end, []) && faults == []
    {
      hide Request, DirReply;
      var ok;
      ok, sent := SendCommandWithArg(LIST, path);
      if !ok {
        return DirError(WriteFailed), sent;
      }
      r := ReadEntries();
    }

    /** ReadFile: Pull, with the pipe turning an io.EOF of readData into an ordinary end. */
    method ReadFileContent(path: seq<byte>) returns (data: seq<byte>, err: Option<Error>, ghost sent: nat)
      modifies this
      ensures sent <= |Request(RECV, path)| && output == old(output) + Request(RECV, path)[..sent]
      ensures (err == Some(WriteFailed) && data == [] && input == old(input))
              || (sent == |Request(RECV, path)| && Pull(data, err, input) == ReadFile(old(input), end))
      ensures old(faults) == [] ==> sent == |Request(RECV, path)| && Pull(data, err, input) == ReadFile(old(input), end) && faults == []
    {
      hide Request, ReadData;
      var ok;
      ok, sent := SendCommandWithArg(RECV, path);
      if !ok {
        return [], Some(WriteFailed), sent;
      }
      ghost var handed;
      data, err, handed := ReadDataInto([]);
      if err == Some(Io(EOF)) {
        err := None;
      }
    }

    /** The reply half of Stat. */
    method ReadStat() returns (r: StatResult)
      modifies this`input
      ensures (r, input) == StatReply(old(input), end)
    {
      var reply := ReadBytes(4);
      if reply.Failed? {
        return StatError(Io(reply.err));
      }
      if reply.bytes == STAT {
        var w := ReadBytes(12);
        if w.Failed? {
          return StatError(Io(w.err));
        }
        var mode, size, mtime := FromLE32(w.bytes[0..4]), FromLE32(w.bytes[4..8]), FromLE32(w.bytes[8..12]);
        if mode == 0 {
          return StatError(NoSuchFile);
        }
        return StatOk(StatEntry(mode, size, mtime));
      } else if reply.bytes == FAIL {
        var e := ReadErrorMessage();
        return StatError(e);
      }
      return StatError(Unexpected(reply.bytes));
    }

    /** The reply half of Readdir. */
    method ReadEntries() returns (r: DirResult)
      modifies this`input
      ensures (r, input) == DirReply(old(input), end, [])
    {
      var files := [];
      while true
        invariant DirReply(input, end, files) == DirReply(old(input), end, [])
        decreases |input|
      {
        var reply := ReadBytes(4);
        if reply.Failed? {
          return DirError(Io(reply.err));
        }
        if reply.bytes == DENT {
          var w := ReadBytes(16);
          if w.Failed? {
            return DirError(Io(w.err));
          }
          var name := ReadBytes(FromLE32(w.bytes[12..16]));
          if name.Failed? {
            return DirError(Io(name.err));
          }
          if !IsDots(name.bytes) {
            files := files + [DirEntry(name.bytes, FromLE32(w.bytes[0..4]), FromLE32(w.bytes[4..8]), FromLE32(w.bytes[8..12]))];
          }
        } else if reply.bytes == DONE {
          var w := ReadBytes(16);
          if w.Failed? {
            return DirError(Io(w.err));
          }
          return DirOk(files);
        } else if reply.bytes == FAIL {
          var e := ReadErrorMessage();
          return DirError(e);
        } else {
          return DirError(Unexpected(reply.bytes));
        }
      }
    }
  }

  lemma PrefixSlice(a: seq<byte>, b: seq<byte>, all: seq<byte>, n: nat)
    requires a + b <= all && n <= |b|
    ensures |a| + n <= |all| && a + b[..n] == all[..|a| + n]
  {
    assert all[..|a| + n] == (a + b)[..|a| + n];
  }

  lemma NothingPushed()
    ensures DataMessages(Chunks([])) == []
  {
  }

  lemma {:induction false} MessagesAppend(a: seq<seq<byte>>, b: seq<seq<byte>>)
    ensures DataMessages(a + b) == DataMessages(a) + DataMessages(b)
  {
    hide DataMessage;
    if a == [] {
      assert a + b == b;
    } else {
      MessagesAppend(a[1..], b);
      assert (a + b)[1..] == a[1..] + b && (a + b)[0] == a[0];
      assert DataMessages(a + b) == DataMessage(a[0]) + (DataMessages(a[1..]) + DataMessages(b));
    }
  }

  lemma {:induction false} ChunksSplit(a: seq<byte>, b: seq<byte>)
    requires |a| % DATA_MAX == 0
    ensures Chunks(a + b) == Chunks(a) + Chunks(b)
    decreases |a|
  {
    if a == [] {
      assert a + b == b;
    } else {
      ChunksSplit(a[DATA_MAX..], b);
      assert (a + b)[..DATA_MAX] == a[..DATA_MAX];
      assert (a + b)[DATA_MAX..] == a[DATA_MAX..] + b;
    }
  }

  /** Cutting at a multiple of the chunk size, the messages of the front are followed by that of the next chunk. */
  lemma ChunksPrefix(data: seq<byte>, offset: nat, timestamp: u32)
    requires offset < |data| && offset % DATA_MAX == 0
    ensures var size := Min(|data| - offset, DATA_MAX);
            var chunk := data[offset..offset + size];
            && DataMessages(Chunks(data[..offset])) + DataMessage(chunk) <= PushBytes(data, timestamp)
            && DataMessages(Chunks(data[..offset + size])) == DataMessages(Chunks(data[..offset])) + DataMessage(chunk)
  {
    hide DataMessage, Chunks, Command;
    var size := Min(|data| - offset, DATA_MAX);
    var a, chunk, tail := data[..offset], data[offset..offset + size], data[offset + size..];
    OneChunk(chunk, tail);
    assert data == a + (chunk + tail) && data[..offset + size] == a + chunk;
    ChunksSplit(a, chunk + tail);
    ChunksSplit(a, chunk);
    MessagesAppend(Chunks(a), Chunks(chunk + tail));
    MessagesAppend(Chunks(a), [chunk]);
    var one: seq<seq<byte>> := [chunk];
    assert one[1..] == [] && DataMessages(one) == DataMessage(chunk) + DataMessages([]);
    assert Chunks(chunk + tail)[1..] == Chunks(tail);
    assert PushBytes(data, timestamp)
        == DataMessages(Chunks(a)) + (DataMessage(chunk) + DataMessages(Chunks(tail))) + Command(DONE, timestamp);
  }

  lemma OneChunk(chunk: seq<byte>, tail: seq<byte>)
    requires 0 < |chunk| <= DATA_MAX && (tail != [] ==> |chunk| == DATA_MAX)
    ensures Chunks(chunk + tail) == [chunk] + Chunks(tail)
    ensures Chunks(chunk) == [chunk]
  {
    assert (chunk + tail)[..|chunk|] == chunk && (chunk + tail)[|chunk|..] == tail;
    assert chunk[..|chunk|] == chunk && chunk[|chunk|..] == [];
  }
}
