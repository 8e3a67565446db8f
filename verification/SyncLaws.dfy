/** What the sync protocol promises: push and pull undo each other, and requests stay aligned (adb/sync.go). */
module SyncLaws {
  import opened Bytes
  import opened Conn
  import opened Wrappers
  import opened SyncWire

  // -------------------------------------------------------- one message at a time

  lemma FullReadsBack(a: seq<byte>, rest: seq<byte>, end: IoError)
    ensures ReadFull(a + rest, |a|, end) == Got(a, rest)
  {
    assert (a + rest)[..|a|] == a && (a + rest)[|a|..] == rest;
  }

  /** A length word and that many bytes. */
  predicate Sized(s: seq<byte>) {
    |s| < WORD
  }

  function Counted(s: seq<byte>): seq<byte> {
    LE32(ToU32(|s|)) + s
  }

  lemma CountedReadsBack(s: seq<byte>, rest: seq<byte>, end: IoError)
    requires Sized(s)
    ensures ReadFull(Counted(s) + rest, 4, end) == Got(LE32(ToU32(|s|)), s + rest)
    ensures FromLE32(LE32(ToU32(|s|))) == |s|
    ensures ReadFull(s + rest, |s|, end) == Got(s, rest)
  {
    hide LE32, FromLE32, ReadFull;
    var w := LE32(ToU32(|s|));
    assert Counted(s) + rest == w + (s + rest);
    FullReadsBack(w, s + rest, end);
    FullReadsBack(s, rest, end);
    WordCodec(|s|, w);
  }

  lemma ReplyReadsBack(cmd: seq<byte>, body: seq<byte>, rest: seq<byte>, end: IoError)
    requires |cmd| == 4
    ensures ReadFull(cmd + body + rest, 4, end) == Got(cmd, body + rest)
  {
    assert cmd + body + rest == cmd + (body + rest);
    FullReadsBack(cmd, body + rest, end);
  }

  lemma ErrorReadsBack(msg: seq<byte>, rest: seq<byte>, end: IoError)
    requires Sized(msg)
    ensures ReadError(Counted(msg) + rest, end) == (Remote(msg), rest)
  {
    hide LE32, FromLE32, ReadFull, Counted;
    CountedReadsBack(msg, rest, end);
  }

  lemma DataStep(chunk: seq<byte>, rest: seq<byte>, end: IoError, got: seq<byte>)
    requires Sized(chunk)
    ensures ReadData(DataMessage(chunk) + rest, end, got) == ReadData(rest, end, got + chunk)
  {
    hide LE32, FromLE32, ReadFull;
    assert DataMessage(chunk) == DATA + Counted(chunk);
    ReplyReadsBack(DATA, Counted(chunk), rest, end);
    CountedReadsBack(chunk, rest, end);
  }

  lemma DoneStep(word: seq<byte>, rest: seq<byte>, end: IoError, got: seq<byte>)
    requires |word| == 4
    ensures ReadData(DONE + word + rest, end, got) == Pull(got, None, rest)
  {
    hide ReadFull;
    ReplyReadsBack(DONE, word, rest, end);
    FullReadsBack(word, rest, end);
  }

  lemma FailStep(msg: seq<byte>, rest: seq<byte>, end: IoError, got: seq<byte>)
    requires Sized(msg)
    ensures ReadData(FAIL + Counted(msg) + rest, end, got) == Pull(got, Some(Remote(msg)), rest)
  {
    hide ReadFull, Counted, ReadError;
    ReplyReadsBack(FAIL, Counted(msg), rest, end);
    ErrorReadsBack(msg, rest, end);
  }

  // ------------------------------------------------------------------ push and pull

  predicate AllSized(chunks: seq<seq<byte>>) {
    forall k :: 0 <= k < |chunks| ==> Sized(chunks[k])
  }

  lemma {:induction false} ChunksConsumed(chunks: seq<seq<byte>>, rest: seq<byte>, end: IoError, got: seq<byte>)
    requires AllSized(chunks)
    ensures ReadData(DataMessages(chunks) + rest, end, got) == ReadData(rest, end, got + Flatten(chunks))
    decreases |chunks|
  {
    hide ReadData, DataMessage;
    if chunks == [] {
      assert DataMessages(chunks) + rest == rest && got + Flatten(chunks) == got;
    } else {
      var more := DataMessages(chunks[1..]) + rest;
      assert DataMessages(chunks) + rest == DataMessage(chunks[0]) + more;
      DataStep(chunks[0], more, end, got);
      ChunksConsumed(chunks[1..], rest, end, got + chunks[0]);
      assert got + chunks[0] + Flatten(chunks[1..]) == got + Flatten(chunks);
    }
  }

  /** Any chunking of the device is put together again, and what follows is left alone. */
  lemma PullAccepts(chunks: seq<seq<byte>>, word: seq<byte>, rest: seq<byte>, end: IoError)
    requires AllSized(chunks) && |word| == 4
    ensures ReadData(DataMessages(chunks) + (DONE + word + rest), end, []) == Pull(Flatten(chunks), None, rest)
  {
    hide ReadData, DataMessages, Flatten;
    ChunksConsumed(chunks, DONE + word + rest, end, []);
    assert [] + Flatten(chunks) == Flatten(chunks);
    DoneStep(word, rest, end, Flatten(chunks));
  }


  /** readData succeeds on nothing else: its input was DATA messages, then DONE and four bytes. */
  lemma {:induction false} PullSound(s: seq<byte>, end: IoError, got: seq<byte>)
    returns (chunks: seq<seq<byte>>, word: seq<byte>)
    requires ReadData(s, end, got).err.None?
    ensures AllSized(chunks) && |word| == 4
    ensures s == DataMessages(chunks) + (DONE + word + ReadData(s, end, got).rest)
    ensures ReadData(s, end, got).data == got + Flatten(chunks)
    decreases |s|
  {
    hide ReadData, DataMessage;
    DataShape(s, end, got);
    if s[..4] == DONE {
      chunks, word := [], s[4..8];
      assert s == DONE + word + s[8..];
      DoneStep(word, s[8..], end, got);
    } else {
      var n := FromLE32(s[4..8]);
      var data, rest := s[8..8 + n], s[8 + n..];
      SplitData(s);
      DataStep(data, rest, end, got);
      var more;
      more, word := PullSound(rest, end, got + data);
      chunks := [data] + more;
      assert chunks[1..] == more;
      assert DataMessages(chunks) == DataMessage(data) + DataMessages(more);
      assert Flatten(chunks) == data + Flatten(more);
    }
  }

  /** Input that ends inside a DATA message. */
  predicate ShortData(s: seq<byte>) {
    |s| < 4 || (s[..4] == DATA && (|s| < 8 || |s| < 8 + FromLE32(s[4..8])))
  }

  lemma ShortDataFails(s: seq<byte>, end: IoError, got: seq<byte>)
    requires ShortData(s)
    ensures ReadData(s, end, got)
         == Pull(got, Some(Io(if end.EOF? && |s| != 0 && |s| != 4 && |s| != 8 then UnexpectedEOF else end)), [])
  {
    hide FromLE32;
    if |s| >= 8 {
      assert s[4..][..4] == s[4..8] && s[4..][4..] == s[8..];
    }
  }

  /** A successful readData starts with a whole DATA message or with DONE and four bytes. */
  lemma DataShape(s: seq<byte>, end: IoError, got: seq<byte>)
    requires ReadData(s, end, got).err.None?
    ensures |s| >= 8 && (s[..4] == DONE || (s[..4] == DATA && |s| >= 8 + FromLE32(s[4..8])))
  {
    hide FromLE32, ReadError;
    if ShortData(s) {
      ShortDataFails(s, end, got);
    }
  }

  lemma SplitData(s: seq<byte>)
    requires |s| >= 8 && s[..4] == DATA && |s| >= 8 + FromLE32(s[4..8])
    ensures var n := FromLE32(s[4..8]); Sized(s[8..8 + n]) && s == DataMessage(s[8..8 + n]) + s[8 + n..]
  {
    hide LE32, FromLE32;
    BytesReadBack(s[4..8]);
    var n := FromLE32(s[4..8]);
    assert s == s[..4] + s[4..8] + s[8..8 + n] + s[8 + n..];
  }

  /** Pieces of 1 to 65536 bytes that together are the data. */
  lemma {:induction false} ChunksMean(data: seq<byte>)
    ensures Flatten(Chunks(data)) == data
    ensures forall k :: 0 <= k < |Chunks(data)| ==> 1 <= |Chunks(data)[k]| <= 65536
    ensures forall k :: 0 <= k < |Chunks(data)| - 1 ==> |Chunks(data)[k]| == 65536
    decreases |data|
  {
    if data == [] {
    } else {
      ChunksMean(data[Min(|data|, DATA_MAX)..]);
    }
  }

  /** What writeData sends, readData reads back exactly, and leaves the bytes that follow untouched. */
  lemma PushThenPull(data: seq<byte>, timestamp: u32, rest: seq<byte>, end: IoError)
    ensures ReadData(PushBytes(data, timestamp) + rest, end, []) == Pull(data, None, rest)
  {
    hide ReadData, DataMessages, Chunks, LE32;
    ChunksMean(data);
    PullAccepts(Chunks(data), LE32(timestamp), rest, end);
    assert PushBytes(data, timestamp) + rest == DataMessages(Chunks(data)) + (DONE + LE32(timestamp) + rest);
  }

  // ------------------------------------------------------------------ truncation

  /** How a device ends an answer. */
  datatype Ending = Done(pad: seq<byte>) | Fail(msg: seq<byte>)

  predicate EndingOk(e: Ending, pad: nat) {
    match e
    case Done(p) => |p| == pad
    case Fail(msg) => Sized(msg)
  }

  function EndingBytes(e: Ending, done: seq<byte>): seq<byte> {
    match e
    case Done(pad) => done + pad
    case Fail(msg) => FAIL + Counted(msg)
  }

  /** Cuts of a pull that fall between two reads of the client. */
  predicate BetweenReads(chunks: seq<seq<byte>>, e: Ending, k: nat) {
    if chunks == [] then k == 0 || k == 4 || (e.Fail? && k == 8)
    else if k < 8 + |chunks[0]| then k == 0 || k == 4 || k == 8
    else BetweenReads(chunks[1..], e, k - 8 - |chunks[0]|)
  }

  lemma CutMessage(chunk: seq<byte>, k: nat, end: IoError, got: seq<byte>)
    requires Sized(chunk) && k < 8 + |chunk|
    ensures |DataMessage(chunk)| == 8 + |chunk|
    ensures ReadData(DataMessage(chunk)[..k], end, got)
         == Pull(got, Some(Io(if end.EOF? && k != 0 && k != 4 && k != 8 then UnexpectedEOF else end)), [])
  {
    hide LE32, FromLE32, ReadData;
    var w := LE32(ToU32(|chunk|));
    var full, s := DataMessage(chunk), DataMessage(chunk)[..k];
    assert full == DATA + w + chunk;
    assert full[..4] == DATA && full[4..8] == w;
    WordCodec(|chunk|, w);
    if k >= 4 {
      assert s[..4] == full[..4];
    }
    if k >= 8 {
      assert s[4..8] == full[4..8];
    }
    ShortDataFails(s, end, got);
  }

  lemma CutDone(word: seq<byte>, k: nat, end: IoError, got: seq<byte>)
    requires |word| == 4 && k < 8
    ensures ReadData((DONE + word)[..k], end, got)
         == Pull(got, Some(Io(if end.EOF? && k != 0 && k != 4 then UnexpectedEOF else end)), [])
  {
    var s := (DONE + word)[..k];
    if k >= 4 {
      assert s[..4] == DONE && |s[4..]| == k - 4;
    }
  }

  /** A length word with too few bytes after it, or a part of the word. */
  lemma CutCounted(msg: seq<byte>, k: nat, end: IoError)
    requires Sized(msg) && k < 4 + |msg|
    ensures |Counted(msg)| == 4 + |msg|
    ensures ReadError(Counted(msg)[..k], end)
         == (Io(if end.EOF? && k != 0 && k != 4 then UnexpectedEOF else end), [])
  {
    hide LE32, FromLE32;
    var w, s := LE32(ToU32(|msg|)), Counted(msg)[..k];
    WordCodec(|msg|, w);
    if k >= 4 {
      assert s[..4] == w && |s[4..]| == k - 4;
    }
  }

  lemma CutFail(msg: seq<byte>, k: nat, end: IoError, got: seq<byte>)
    requires Sized(msg) && k < 8 + |msg|
    ensures |FAIL + Counted(msg)| == 8 + |msg|
    ensures ReadData((FAIL + Counted(msg))[..k], end, got)
         == Pull(got, Some(Io(if end.EOF? && k != 0 && k != 4 && k != 8 then UnexpectedEOF else end)), [])
  {
    hide ReadError, Counted;
    CutCounted(msg, 0, end);
    var s := (FAIL + Counted(msg))[..k];
    if k >= 4 {
      assert s[..4] == FAIL && s[4..] == Counted(msg)[..k - 4];
      CutCounted(msg, k - 4, end);
    }
  }

  /** readData never takes a proper prefix of an answer for the whole answer, whether that ends in DONE or in FAIL. */
  lemma {:induction false} PullCut(chunks: seq<seq<byte>>, e: Ending, k: nat, end: IoError, got: seq<byte>)
    requires AllSized(chunks) && EndingOk(e, 4) && k < |DataMessages(chunks) + EndingBytes(e, DONE)|
    ensures ReadData((DataMessages(chunks) + EndingBytes(e, DONE))[..k], end, got).err
         == Some(Io(if end.EOF? && !BetweenReads(chunks, e, k) then UnexpectedEOF else end))
    decreases |chunks|
  {
    hide ReadData, DataMessage, Counted;
    var last := EndingBytes(e, DONE);
    var all := DataMessages(chunks) + last;
    if chunks == [] {
      assert all[..k] == last[..k];
      match e
      case Done(word) => CutDone(word, k, end, got);
      case Fail(msg) =>
        CutFail(msg, 0, end, got);
        CutFail(msg, k, end, got);
    } else {
      var m := DataMessage(chunks[0]);
      var more := DataMessages(chunks[1..]) + last;
      assert all == m + more;
      CutMessage(chunks[0], 0, end, got);
      if k < |m| {
        assert all[..k] == m[..k];
        CutMessage(chunks[0], k, end, got);
      } else {
        assert all[..k] == m + more[..k - |m|];
        DataStep(chunks[0], more[..k - |m|], end, got);
        PullCut(chunks[1..], e, k - |m|, end, got + chunks[0]);
      }
    }
  }

  /**
   * ReadFile, however, reports a truncated answer as a complete file exactly when the cut falls between two reads;
   * the answer may even be the beginning of a failure.
   */
  lemma ReadFileHidesCut(chunks: seq<seq<byte>>, e: Ending, k: nat)
    requires AllSized(chunks) && EndingOk(e, 4) && k < |DataMessages(chunks) + EndingBytes(e, DONE)|
    ensures ReadFile((DataMessages(chunks) + EndingBytes(e, DONE))[..k], EOF).err.None? <==> BetweenReads(chunks, e, k)
  {
    hide ReadData, DataMessages, BetweenReads, EndingBytes;
    PullCut(chunks, e, k, EOF, []);
  }

  // ------------------------------------------------------------------- alignment

  /** One request together with the answer the device gives to it. */
  datatype Exchange =
    | StatX(entry: StatEntry)
    | StatFailX(msg: seq<byte>)
    | ListX(entries: seq<DirEntry>, ending: Ending)
    | PushX(ending: Ending)
    | PullX(chunks: seq<seq<byte>>, ending: Ending)

  predicate WellFormed(x: Exchange) {
    match x
    case StatX(_) => true
    case StatFailX(msg) => Sized(msg)
    case ListX(entries, e) => EndingOk(e, 16) && forall k :: 0 <= k < |entries| ==> Sized(entries[k].name)
    case PushX(e) => EndingOk(e, 4)
    case PullX(chunks, e) => EndingOk(e, 4) && AllSized(chunks)
  }

  function EntryBytes(e: DirEntry): seq<byte> {
    DENT + (LE32(e.mode) + LE32(e.size) + LE32(e.mtime) + LE32(ToU32(|e.name|))) + e.name
  }

  function EntriesBytes(es: seq<DirEntry>): seq<byte> {
    if es == [] then [] else EntryBytes(es[0]) + EntriesBytes(es[1..])
  }

  /** The bytes of the device's answer. */
  function Answer(x: Exchange): seq<byte> {
    match x
    case StatX(e) => STAT + (LE32(e.mode) + LE32(e.size) + LE32(e.mtime))
    case StatFailX(msg) => FAIL + Counted(msg)
    case ListX(entries, e) => EntriesBytes(entries) + EndingBytes(e, DONE)
    case PushX(e) => EndingBytes(e, OKAY)
    case PullX(chunks, e) => DataMessages(chunks) + EndingBytes(e, DONE)
  }

  /** What the caller of Stat, Readdir, PushContent or ReadFile gets. */
  datatype Outcome =
    | StatDone(stat: StatResult)
    | ListDone(dir: DirResult)
    | PushDone(err: Option<Error>)
    | PullDone(data: seq<byte>, readErr: Option<Error>)

  /** What it should get. */
  function Expected(x: Exchange): Outcome {
    match x
    case StatX(e) => StatDone(if e.mode == 0 then StatError(NoSuchFile) else StatOk(e))
    case StatFailX(msg) => StatDone(StatError(Remote(msg)))
    case ListX(entries, Done(_)) => ListDone(DirOk(WithoutDots(entries)))
    case ListX(_, Fail(msg)) => ListDone(DirError(Remote(msg)))
    case PushX(Done(_)) => PushDone(None)
    case PushX(Fail(msg)) => PushDone(Some(Remote(msg)))
    case PullX(chunks, Done(_)) => PullDone(Flatten(chunks), None)
    case PullX(chunks, Fail(msg)) => PullDone(Flatten(chunks), Some(Remote(msg)))
  }

  function WithoutDots(es: seq<DirEntry>): seq<DirEntry> {
    if es == [] then [] else (if IsDots(es[0].name) then [] else [es[0]]) + WithoutDots(es[1..])
  }

  datatype Kind = StatKind | ListKind | PushKind | PullKind

  function KindOf(x: Exchange): Kind {
    match x
    case StatX(_) => StatKind
    case StatFailX(_) => StatKind
    case ListX(_, _) => ListKind
    case PushX(_) => PushKind
    case PullX(_, _) => PullKind
  }

  /** What the client code makes of the bytes, and what it leaves. */
  function Serve(k: Kind, s: seq<byte>, end: IoError): (Outcome, seq<byte>) {
    match k
    case StatKind => var (r, rest) := StatReply(s, end); (StatDone(r), rest)
    case ListKind => var (r, rest) := DirReply(s, end, []); (ListDone(r), rest)
    case PushKind => var (r, rest) := FinalReply(s, end); (PushDone(r), rest)
    case PullKind => var p := ReadFile(s, end); (PullDone(p.data, p.err), p.rest)
  }

  lemma StatAligned(e: StatEntry, rest: seq<byte>, end: IoError)
    ensures Serve(KindOf(StatX(e)), Answer(StatX(e)) + rest, end) == (Expected(StatX(e)), rest)
  {
    hide LE32, FromLE32, ReadFull;
    var w := LE32(e.mode) + LE32(e.size) + LE32(e.mtime);
    ReplyReadsBack(STAT, w, rest, end);
    FullReadsBack(w, rest, end);
    assert w[0..4] == LE32(e.mode) && w[4..8] == LE32(e.size) && w[8..12] == LE32(e.mtime);
    WordCodec(e.mode, LE32(0));
    WordCodec(e.size, LE32(0));
    WordCodec(e.mtime, LE32(0));
  }

  lemma StatFailAligned(msg: seq<byte>, rest: seq<byte>, end: IoError)
    requires Sized(msg)
    ensures Serve(KindOf(StatFailX(msg)), Answer(StatFailX(msg)) + rest, end) == (Expected(StatFailX(msg)), rest)
  {
    hide ReadFull, Counted, ReadError;
    ReplyReadsBack(FAIL, Counted(msg), rest, end);
    ErrorReadsBack(msg, rest, end);
  }

  lemma PushAligned(e: Ending, rest: seq<byte>, end: IoError)
    requires EndingOk(e, 4)
    ensures Serve(KindOf(PushX(e)), Answer(PushX(e)) + rest, end) == (Expected(PushX(e)), rest)
  {
    hide ReadFull, Counted, ReadError;
    match e
    case Done(pad) =>
      ReplyReadsBack(OKAY, pad, rest, end);
      FullReadsBack(pad, rest, end);
    case Fail(msg) =>
      ReplyReadsBack(FAIL, Counted(msg), rest, end);
      ErrorReadsBack(msg, rest, end);
  }

  lemma PullAligned(chunks: seq<seq<byte>>, e: Ending, rest: seq<byte>, end: IoError)
    requires AllSized(chunks) && EndingOk(e, 4)
    ensures Serve(KindOf(PullX(chunks, e)), Answer(PullX(chunks, e)) + rest, end) == (Expected(PullX(chunks, e)), rest)
  {
    hide ReadData, DataMessages, Flatten, Counted;
    var tail := EndingBytes(e, DONE) + rest;
    assert Answer(PullX(chunks, e)) + rest == DataMessages(chunks) + tail;
    ChunksConsumed(chunks, tail, end, []);
    assert [] + Flatten(chunks) == Flatten(chunks);
    match e
    case Done(pad) => DoneStep(pad, rest, end, Flatten(chunks));
    case Fail(msg) => FailStep(msg, rest, end, Flatten(chunks));
  }

  lemma EntryStep(e: DirEntry, rest: seq<byte>, end: IoError, files: seq<DirEntry>)
    requires Sized(e.name)
    ensures DirReply(EntryBytes(e) + rest, end, files) == DirReply(rest, end, Listed(files, e))
  {
    hide LE32, FromLE32, ReadFull;
    var w := LE32(e.mode) + LE32(e.size) + LE32(e.mtime) + LE32(ToU32(|e.name|));
    assert EntryBytes(e) + rest == DENT + (w + e.name) + rest;
    ReplyReadsBack(DENT, w + e.name, rest, end);
    assert w + e.name + rest == w + (e.name + rest);
    FullReadsBack(w, e.name + rest, end);
    FullReadsBack(e.name, rest, end);
    assert w[0..4] == LE32(e.mode) && w[4..8] == LE32(e.size);
    assert w[8..12] == LE32(e.mtime) && w[12..16] == LE32(ToU32(|e.name|));
    WordCodec(e.mode, LE32(0));
    WordCodec(e.size, LE32(0));
    WordCodec(e.mtime, LE32(0));
    WordCodec(|e.name|, LE32(0));
  }

  lemma ListedThen(files: seq<DirEntry>, e: DirEntry, more: seq<DirEntry>)
    ensures Listed(files, e) + more == files + ((if IsDots(e.name) then [] else [e]) + more)
  {
  }

  lemma {:induction false} EntriesConsumed(es: seq<DirEntry>, rest: seq<byte>, end: IoError, files: seq<DirEntry>)
    requires forall k :: 0 <= k < |es| ==> Sized(es[k].name)
    ensures DirReply(EntriesBytes(es) + rest, end, files) == DirReply(rest, end, files + WithoutDots(es))
    decreases |es|
  {
    hide DirReply, EntryBytes, IsDots, Listed;
    if es == [] {
      assert EntriesBytes(es) + rest == rest && files + WithoutDots(es) == files;
    } else {
      var more := EntriesBytes(es[1..]) + rest;
      assert EntriesBytes(es) + rest == EntryBytes(es[0]) + more;
      EntryStep(es[0], more, end, files);
      EntriesConsumed(es[1..], rest, end, Listed(files, es[0]));
      ListedThen(files, es[0], WithoutDots(es[1..]));
    }
  }

  lemma DirEnding(e: Ending, rest: seq<byte>, end: IoError, files: seq<DirEntry>)
    requires EndingOk(e, 16)
    ensures DirReply(EndingBytes(e, DONE) + rest, end, files)
         == (if e.Done? then DirOk(files) else DirError(Remote(e.msg)), rest)
  {
    hide ReadFull, Counted, ReadError;
    match e
    case Done(pad) =>
      ReplyReadsBack(DONE, pad, rest, end);
      FullReadsBack(pad, rest, end);
    case Fail(msg) =>
      ReplyReadsBack(FAIL, Counted(msg), rest, end);
      ErrorReadsBack(msg, rest, end);
  }

  lemma ListAligned(es: seq<DirEntry>, e: Ending, rest: seq<byte>, end: IoError)
    requires WellFormed(ListX(es, e))
    ensures Serve(KindOf(ListX(es, e)), Answer(ListX(es, e)) + rest, end) == (Expected(ListX(es, e)), rest)
  {
    hide DirReply, EntriesBytes, WithoutDots, EndingBytes;
    var tail := EndingBytes(e, DONE) + rest;
    assert Answer(ListX(es, e)) + rest == EntriesBytes(es) + tail;
    EntriesConsumed(es, tail, end, []);
    assert [] + WithoutDots(es) == WithoutDots(es);
    DirEnding(e, rest, end, WithoutDots(es));
  }

  lemma Aligned(x: Exchange, rest: seq<byte>, end: IoError)
    requires WellFormed(x)
    ensures Serve(KindOf(x), Answer(x) + rest, end) == (Expected(x), rest)
  {
    hide Serve, Answer, Expected;
    match x
    case StatX(e) => StatAligned(e, rest, end);
    case StatFailX(msg) => StatFailAligned(msg, rest, end);
    case ListX(es, e) => ListAligned(es, e, rest, end);
    case PushX(e) => PushAligned(e, rest, end);
    case PullX(chunks, e) => PullAligned(chunks, e, rest, end);
  }

  function Answers(xs: seq<Exchange>): seq<byte> {
    if xs == [] then [] else Answer(xs[0]) + Answers(xs[1..])
  }

  function Kinds(xs: seq<Exchange>): seq<Kind> {
    if xs == [] then [] else [KindOf(xs[0])] + Kinds(xs[1..])
  }

  function AllExpected(xs: seq<Exchange>): seq<Outcome> {
    if xs == [] then [] else [Expected(xs[0])] + AllExpected(xs[1..])
  }

  /** A whole sequence of requests on one connection. */
  function ServeAll(ks: seq<Kind>, s: seq<byte>, end: IoError): (seq<Outcome>, seq<byte>)
    decreases |ks|
  {
    if ks == [] then ([], s)
    else
      var (o, s1) := Serve(ks[0], s, end);
      var (os, s2) := ServeAll(ks[1..], s1, end);
      ([o] + os, s2)
  }

  /** Every request of every sequence consumes exactly its own answer, failures included. */
  lemma {:induction false} RequestsStayAligned(xs: seq<Exchange>, rest: seq<byte>, end: IoError)
    requires forall k :: 0 <= k < |xs| ==> WellFormed(xs[k])
    ensures ServeAll(Kinds(xs), Answers(xs) + rest, end) == (AllExpected(xs), rest)
    decreases |xs|
  {
    hide Serve, Answer, Expected, WellFormed, KindOf;
    if xs == [] {
      assert Answers(xs) + rest == rest;
    } else {
      var more := Answers(xs[1..]) + rest;
      assert Answers(xs) + rest == Answer(xs[0]) + more;
      Aligned(xs[0], more, end);
      RequestsStayAligned(xs[1..], rest, end);
      assert Kinds(xs)[1..] == Kinds(xs[1..]);
    }
  }

  // -------------------------------------------------------- the argument of a push

  /** Whatever the path, commas included, the argument of a SEND determines the path and the mode. */
  lemma PushArgReadsBack(path: seq<byte>, mode: u32, path': seq<byte>, mode': u32)
    requires PushArg(path, mode) == PushArg(path', mode')
    ensures path == path' && PushMode(mode) == PushMode(mode')
    ensures PushArg(path, mode)[..|path|] == path && PushArg(path, mode)[|path|] == 44
    ensures FromDecimal(PushArg(path, mode)[|path| + 1..]) == PushMode(mode)
  {
    hide PushMode;
    var d, d', arg := Decimal(PushMode(mode)), Decimal(PushMode(mode')), PushArg(path, mode);
    DecimalReadsBack(PushMode(mode));
    DecimalReadsBack(PushMode(mode'));
    assert arg[|path|] == 44 && arg[|path'|] == 44;
    assert forall k :: |path| < k < |arg| ==> arg[k] == d[k - |path| - 1];
    assert forall k :: |path'| < k < |arg| ==> arg[k] == d'[k - |path'| - 1];
    assert |path| == |path'|;
    assert arg[..|path|] == path && arg[..|path'|] == path';
    assert arg[|path| + 1..] == d && arg[|path'| + 1..] == d';
  }

  /** The mode sent keeps every bit of the mode asked for, 0644 standing for none, and adds the mark of a regular file. */
  lemma PushModeMeans(mode: u32)
    ensures var m := if mode == 0 then 0x1a4 else mode;
            && PushMode(mode) / 0x8000 % 2 == 1
            && PushMode(mode) % 0x8000 == m % 0x8000 && PushMode(mode) / 0x10000 == m / 0x10000
  {
  }
}
