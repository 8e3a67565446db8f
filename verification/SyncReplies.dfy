/** Every byte string a sync device may send, and what the client makes of it (adb/sync.go). */
module SyncReplies {
  import opened Bytes
  import opened Conn
  import opened Wrappers
  import opened SyncWire
  import opened SyncLaws

  /** The words of the protocol are their four letters. */
  lemma WordsSpell()
    ensures STAT == Ascii("STAT") && LIST == Ascii("LIST") && SEND == Ascii("SEND") && RECV == Ascii("RECV")
    ensures DENT == Ascii("DENT") && DONE == Ascii("DONE") && DATA == Ascii("DATA") && OKAY == Ascii("OKAY")
    ensures FAIL == Ascii("FAIL")
  {
  }

  // ---------------------------------------------------------------- ways to end a reply

  /** How a reply goes on after its last whole message. */
  datatype Tail =
    | Finished(pad: seq<byte>, rest: seq<byte>)     // the closing word and its padding
    | Failing(msg: seq<byte>, rest: seq<byte>)      // FAIL with a message
    | Strange(reply: seq<byte>, rest: seq<byte>)    // four bytes that mean nothing here
    | Cut(part: seq<byte>)                          // the connection ends inside a message

  /** A length word at the given place announces more bytes than there are, or is itself not there. */
  predicate TooShort(part: seq<byte>, at: nat) {
    |part| < at + 4 || |part| - at - 4 < FromLE32(part[at..at + 4])
  }

  /** A part that begins with FAIL and ends before the message does. */
  predicate CutInFail(part: seq<byte>) {
    |part| >= 4 && part[..4] == FAIL && TooShort(part, 4)
  }

  function TailBytes(t: Tail, closing: seq<byte>): seq<byte> {
    match t
    case Finished(pad, rest) => closing + pad + rest
    case Failing(msg, rest) => FAIL + Counted(msg) + rest
    case Strange(reply, rest) => reply + rest
    case Cut(part) => part
  }

  function TailRest(t: Tail): seq<byte> {
    if t.Cut? then [] else t.rest
  }

  /** An end of file between two reads of the client stays an EOF, anywhere else it becomes ErrUnexpectedEOF. */
  function CutError(between: bool, end: IoError): Error {
    Io(if end.EOF? && !between then UnexpectedEOF else end)
  }

  lemma SplitCounted(s: seq<byte>)
    requires |s| >= 4 && |s| - 4 >= FromLE32(s[..4])
    ensures var n := FromLE32(s[..4]); Sized(s[4..4 + n]) && s == Counted(s[4..4 + n]) + s[4 + n..]
  {
    hide LE32, FromLE32;
    BytesReadBack(s[..4]);
    var n := FromLE32(s[..4]);
    assert s == s[..4] + s[4..4 + n] + s[4 + n..];
  }

  /** A failure message: whole, or cut with the error that belongs to the place of the cut. */
  lemma ErrorTotal(s: seq<byte>, end: IoError)
    ensures |s| < 4 || |s| - 4 < FromLE32(s[..4]) ==> ReadError(s, end) == (CutError(|s| == 0 || |s| == 4, end), [])
    ensures |s| >= 4 && |s| - 4 >= FromLE32(s[..4]) ==>
              var n := FromLE32(s[..4]); ReadError(s, end) == (Remote(s[4..4 + n]), s[4 + n..])
  {
    hide FromLE32;
    if |s| >= 4 && |s| - 4 >= FromLE32(s[..4]) {
      var n := FromLE32(s[..4]);
      assert s[4..][..n] == s[4..4 + n] && s[4..][n..] == s[4 + n..];
    }
  }

  // ------------------------------------------------------------------------------ a push

  predicate PushTailOk(t: Tail) {
    match t
    case Finished(pad, _) => |pad| == 4
    case Failing(msg, _) => Sized(msg)
    case Strange(reply, _) => |reply| == 4 && reply != OKAY && reply != FAIL
    case Cut(part) => |part| < 4 || (part[..4] == OKAY && |part| < 8) || CutInFail(part)
  }

  function PushOutcome(t: Tail, end: IoError): Option<Error> {
    match t
    case Finished(_, _) => None
    case Failing(msg, _) => Some(Remote(msg))
    case Strange(reply, _) => Some(Unexpected(reply))
    case Cut(part) => Some(CutError(|part| == 0 || |part| == 4 || (|part| == 8 && part[..4] == FAIL), end))
  }

  /** The final reply of a push, whatever the device sends: success on OKAY with four bytes and on nothing else. */
  lemma FinalReplyTotal(s: seq<byte>, end: IoError) returns (t: Tail)
    ensures PushTailOk(t) && s == TailBytes(t, OKAY) && FinalReply(s, end) == (PushOutcome(t, end), TailRest(t))
  {
    hide FromLE32, LE32, ReadError, Counted;
    if |s| < 4 {
      t := Cut(s);
    } else {
      var reply, more := s[..4], s[4..];
      assert s == reply + more;
      if reply == OKAY {
        if |more| < 4 {
          t := Cut(s);
        } else {
          t := Finished(more[..4], more[4..]);
          assert s == OKAY + more[..4] + more[4..];
        }
      } else if reply == FAIL {
        t := FailTail(s, end);
      } else {
        t := Strange(reply, more);
      }
    }
  }

  lemma FailTail(s: seq<byte>, end: IoError) returns (t: Tail)
    requires |s| >= 4 && s[..4] == FAIL
    ensures t == Cut(s) || t.Failing?
    ensures t.Failing? ==> Sized(t.msg) && s == FAIL + Counted(t.msg) + t.rest && ReadError(s[4..], end) == (Remote(t.msg), t.rest)
    ensures t.Cut? ==> CutInFail(s) && ReadError(s[4..], end) == (CutError(|s| == 4 || |s| == 8, end), [])
  {
    hide FromLE32, LE32, ReadError, Counted;
    var more := s[4..];
    ErrorTotal(more, end);
    if |more| >= 4 {
      assert more[..4] == s[4..8];
    }
    if |more| < 4 || |more| - 4 < FromLE32(more[..4]) {
      t := Cut(s);
    } else {
      var n := FromLE32(more[..4]);
      SplitCounted(more);
      t := Failing(more[4..4 + n], more[4 + n..]);
      assert s == FAIL + more;
    }
  }

  // ------------------------------------------------------------------------------ a stat

  predicate StatTailOk(t: Tail) {
    match t
    case Finished(pad, _) => |pad| == 12
    case Failing(msg, _) => Sized(msg)
    case Strange(reply, _) => |reply| == 4 && reply != STAT && reply != FAIL
    case Cut(part) => |part| < 4 || (part[..4] == STAT && |part| < 16) || CutInFail(part)
  }

  /** Mode, size and time, in this order; a mode of 0 means that there is no such file. */
  function StatOutcome(t: Tail, end: IoError): StatResult
    requires StatTailOk(t)
  {
    match t
    case Finished(pad, _) =>
      if FromLE32(pad[0..4]) == 0 then StatError(NoSuchFile)
      else StatOk(StatEntry(FromLE32(pad[0..4]), FromLE32(pad[4..8]), FromLE32(pad[8..12])))
    case Failing(msg, _) => StatError(Remote(msg))
    case Strange(reply, _) => StatError(Unexpected(reply))
    case Cut(part) => StatError(CutError(|part| == 0 || |part| == 4 || (|part| == 8 && part[..4] == FAIL), end))
  }

  lemma StatReplyTotal(s: seq<byte>, end: IoError) returns (t: Tail)
    ensures StatTailOk(t) && s == TailBytes(t, STAT) && StatReply(s, end) == (StatOutcome(t, end), TailRest(t))
  {
    hide FromLE32, LE32, ReadError, Counted;
    if |s| < 4 {
      t := Cut(s);
    } else {
      var reply, more := s[..4], s[4..];
      assert s == reply + more;
      if reply == STAT {
        if |more| < 12 {
          t := Cut(s);
        } else {
          t := Finished(more[..12], more[12..]);
          assert s == STAT + more[..12] + more[12..];
        }
      } else if reply == FAIL {
        t := FailTail(s, end);
      } else {
        t := Strange(reply, more);
      }
    }
  }

  // ------------------------------------------------------------------------------ a pull

  predicate PullTailOk(t: Tail) {
    match t
    case Finished(pad, _) => |pad| == 4
    case Failing(msg, _) => Sized(msg)
    case Strange(reply, _) => |reply| == 4 && reply != DATA && reply != DONE && reply != FAIL
    case Cut(part) =>
      || |part| < 4
      || (part[..4] == DATA && TooShort(part, 4))
      || (part[..4] == DONE && |part| < 8)
      || CutInFail(part)
  }

  function PullOutcome(t: Tail, end: IoError): Option<Error> {
    match t
    case Finished(_, _) => None
    case Failing(msg, _) => Some(Remote(msg))
    case Strange(reply, _) => Some(Unexpected(reply))
    case Cut(part) => Some(CutError(|part| == 0 || |part| == 4 || |part| == 8, end))
  }

  lemma PullTail(s: seq<byte>, end: IoError, got: seq<byte>) returns (t: Tail)
    requires |s| < 4 || s[..4] != DATA || TooShort(s, 4)
    ensures PullTailOk(t) && s == TailBytes(t, DONE) && ReadData(s, end, got) == Pull(got, PullOutcome(t, end), TailRest(t))
  {
    hide FromLE32, LE32, ReadError, Counted;
    if |s| < 4 {
      t := Cut(s);
    } else {
      var reply, more := s[..4], s[4..];
      assert s == reply + more;
      if reply == DATA {
        t := Cut(s);
        ShortDataFails(s, end, got);
      } else if reply == DONE {
        if |more| < 4 {
          t := Cut(s);
        } else {
          t := Finished(more[..4], more[4..]);
          assert s == DONE + more[..4] + more[4..];
        }
      } else if reply == FAIL {
        t := FailTail(s, end);
      } else {
        t := Strange(reply, more);
      }
    }
  }

  /** Whatever the device sends, a pull hands over the chunks of the DATA messages and returns what their tail says. */
  lemma {:induction false} PullTotal(s: seq<byte>, end: IoError, got: seq<byte>) returns (chunks: seq<seq<byte>>, t: Tail)
    ensures AllSized(chunks) && PullTailOk(t) && s == DataMessages(chunks) + TailBytes(t, DONE)
    ensures ReadData(s, end, got) == Pull(got + Flatten(chunks), PullOutcome(t, end), TailRest(t))
    decreases |s|
  {
    hide ReadData, FromLE32, TailBytes, PullOutcome, PullTailOk, DataMessage;
    if |s| < 4 || s[..4] != DATA || TooShort(s, 4) {
      chunks := [];
      t := PullTail(s, end, got);
      assert DataMessages(chunks) + TailBytes(t, DONE) == TailBytes(t, DONE) && got + Flatten(chunks) == got;
    } else {
      var n := FromLE32(s[4..8]);
      var data, rest := s[8..8 + n], s[8 + n..];
      SplitData(s);
      DataStep(data, rest, end, got);
      chunks, t := PullTotal(rest, end, got + data);
      var all := [data] + chunks;
      assert all[1..] == chunks;
      assert DataMessages(all) == DataMessage(data) + DataMessages(chunks);
      assert Flatten(all) == data + Flatten(chunks);
      assert got + data + Flatten(chunks) == got + (data + Flatten(chunks));
      assert DataMessage(data) + (DataMessages(chunks) + TailBytes(t, DONE)) == DataMessages(all) + TailBytes(t, DONE);
      chunks := all;
    }
  }

  /** ReadFile returns the same, but for a connection that ends between two reads, which it takes for the end of the file. */
  lemma ReadFileTotal(s: seq<byte>, end: IoError) returns (chunks: seq<seq<byte>>, t: Tail)
    ensures AllSized(chunks) && PullTailOk(t) && s == DataMessages(chunks) + TailBytes(t, DONE)
    ensures ReadFile(s, end).data == Flatten(chunks) && ReadFile(s, end).rest == TailRest(t)
    ensures ReadFile(s, end).err ==
            if t.Cut? && end.EOF? && |t.part| in {0, 4, 8} then None else PullOutcome(t, end)
  {
    hide ReadData, FromLE32, TailBytes, PullTailOk, DataMessages, Flatten;
    chunks, t := PullTotal(s, end, []);
    assert [] + Flatten(chunks) == Flatten(chunks);
  }

  // --------------------------------------------------------------------------- a listing

  predicate DirTailOk(t: Tail) {
    match t
    case Finished(pad, _) => |pad| == 16
    case Failing(msg, _) => Sized(msg)
    case Strange(reply, _) => |reply| == 4 && reply != DENT && reply != DONE && reply != FAIL
    case Cut(part) =>
      || |part| < 4
      || (part[..4] == DENT && TooShort(part, 16))
      || (part[..4] == DONE && |part| < 20)
      || CutInFail(part)
  }

  function DirOutcome(t: Tail, files: seq<DirEntry>, end: IoError): DirResult {
    match t
    case Finished(_, _) => DirOk(files)
    case Failing(msg, _) => DirError(Remote(msg))
    case Strange(reply, _) => DirError(Unexpected(reply))
    case Cut(part) => DirError(CutError(BetweenDirReads(part), end))
  }

  /** The part of a listing after its last whole entry ends between two reads of the client. */
  predicate BetweenDirReads(part: seq<byte>) {
    |part| == 0 || |part| == 4 || (|part| == 20 && part[..4] == DENT) || (|part| == 8 && part[..4] == FAIL)
  }

  predicate AllNamed(es: seq<DirEntry>) {
    forall k :: 0 <= k < |es| ==> Sized(es[k].name)
  }

  lemma ShortEntryFails(s: seq<byte>, end: IoError, files: seq<DirEntry>)
    requires |s| >= 4 && s[..4] == DENT && TooShort(s, 16)
    ensures DirReply(s, end, files) == (DirError(CutError(|s| == 4 || |s| == 20, end)), [])
  {
    hide FromLE32;
    if |s| >= 20 {
      assert s[4..][..16][12..16] == s[16..20] && s[4..][16..] == s[20..];
    }
  }

  lemma SplitEntry(s: seq<byte>) returns (e: DirEntry, rest: seq<byte>)
    requires |s| >= 4 && s[..4] == DENT && !TooShort(s, 16)
    ensures Sized(e.name) && s == EntryBytes(e) + rest
  {
    hide LE32, FromLE32;
    var n := FromLE32(s[16..20]);
    e := DirEntry(s[20..20 + n], FromLE32(s[4..8]), FromLE32(s[8..12]), FromLE32(s[12..16]));
    rest := s[20 + n..];
    BytesReadBack(s[4..8]);
    BytesReadBack(s[8..12]);
    BytesReadBack(s[12..16]);
    BytesReadBack(s[16..20]);
    assert s == s[..4] + (s[4..8] + s[8..12] + s[12..16] + s[16..20]) + s[20..20 + n] + s[20 + n..];
  }

  lemma DirTail(s: seq<byte>, end: IoError, files: seq<DirEntry>) returns (t: Tail)
    requires |s| < 4 || s[..4] != DENT || TooShort(s, 16)
    ensures DirTailOk(t) && s == TailBytes(t, DONE) && DirReply(s, end, files) == (DirOutcome(t, files, end), TailRest(t))
  {
    hide FromLE32, LE32, ReadError, Counted;
    if |s| < 4 {
      t := Cut(s);
    } else {
      var reply, more := s[..4], s[4..];
      assert s == reply + more;
      if reply == DENT {
        t := Cut(s);
        ShortEntryFails(s, end, files);
      } else if reply == DONE {
        if |more| < 16 {
          t := Cut(s);
        } else {
          t := Finished(more[..16], more[16..]);
          assert s == DONE + more[..16] + more[16..];
        }
      } else if reply == FAIL {
        t := FailTail(s, end);
      } else {
        t := Strange(reply, more);
      }
    }
  }

  /** Whatever the device sends, a listing has the entries of the whole DENT messages and returns what their tail says. */
  lemma {:induction false} DirTotal(s: seq<byte>, end: IoError, files: seq<DirEntry>) returns (es: seq<DirEntry>, t: Tail)
    ensures AllNamed(es) && DirTailOk(t) && s == EntriesBytes(es) + TailBytes(t, DONE)
    ensures DirReply(s, end, files) == (DirOutcome(t, files + WithoutDots(es), end), TailRest(t))
    decreases |s|
  {
    hide DirReply, FromLE32, TailBytes, DirOutcome, DirTailOk, EntryBytes, IsDots, Listed;
    if |s| < 4 || s[..4] != DENT || TooShort(s, 16) {
      es := [];
      t := DirTail(s, end, files);
      assert EntriesBytes(es) + TailBytes(t, DONE) == TailBytes(t, DONE) && files + WithoutDots(es) == files;
    } else {
      var e, rest := SplitEntry(s);
      EntryStep(e, rest, end, files);
      EntryIsLong(e);
      es, t := DirTotal(rest, end, Listed(files, e));
      var all := [e] + es;
      assert all[1..] == es;
      ListedThen(files, e, WithoutDots(es));
      assert EntriesBytes(all) == EntryBytes(e) + EntriesBytes(es);
      assert EntryBytes(e) + (EntriesBytes(es) + TailBytes(t, DONE)) == EntriesBytes(all) + TailBytes(t, DONE);
      es := all;
    }
  }

  lemma EntryIsLong(e: DirEntry)
    ensures |EntryBytes(e)| == 20 + |e.name|
  {
  }

  /** A listing is complete only on whole entries, DONE and 16 bytes, and then lists them in order without the dots. */
  lemma DirSound(s: seq<byte>, end: IoError) returns (es: seq<DirEntry>, pad: seq<byte>)
    requires DirReply(s, end, []).0.DirOk?
    ensures AllNamed(es) && |pad| == 16 && s == EntriesBytes(es) + (DONE + pad + DirReply(s, end, []).1)
    ensures DirReply(s, end, []).0 == DirOk(WithoutDots(es))
  {
    hide DirReply, EntriesBytes, WithoutDots;
    var t;
    es, t := DirTotal(s, end, []);
    pad := t.pad;
    assert [] + WithoutDots(es) == WithoutDots(es);
  }

  /** The cuts of a listing that fall between two reads of the client. */
  predicate BetweenDents(es: seq<DirEntry>, e: Ending, k: nat) {
    if es == [] then k == 0 || k == 4 || (e.Fail? && k == 8)
    else if k < 20 + |es[0].name| then k == 0 || k == 4 || k == 20
    else BetweenDents(es[1..], e, k - 20 - |es[0].name|)
  }

  lemma CutEntry(d: DirEntry, k: nat, end: IoError, files: seq<DirEntry>)
    requires Sized(d.name) && k < 20 + |d.name|
    ensures |EntryBytes(d)| == 20 + |d.name|
    ensures DirReply(EntryBytes(d)[..k], end, files) == (DirError(CutError(k == 0 || k == 4 || k == 20, end)), [])
  {
    hide LE32, FromLE32, DirReply;
    var full, s := EntryBytes(d), EntryBytes(d)[..k];
    var w := LE32(ToU32(|d.name|));
    WordCodec(|d.name|, w);
    assert full[..4] == DENT && full[16..20] == w;
    if k < 4 {
      ShortReply(s, end, files);
    } else {
      assert s[..4] == full[..4];
      if k >= 20 {
        assert s[16..20] == full[16..20];
      }
      ShortEntryFails(s, end, files);
    }
  }

  lemma ShortReply(s: seq<byte>, end: IoError, files: seq<DirEntry>)
    requires |s| < 4
    ensures DirReply(s, end, files) == (DirError(CutError(|s| == 0, end)), [])
  {
  }

  lemma CutDirEnding(e: Ending, k: nat, end: IoError, files: seq<DirEntry>)
    requires EndingOk(e, 16) && k < |EndingBytes(e, DONE)|
    ensures DirReply(EndingBytes(e, DONE)[..k], end, files)
         == (DirError(CutError(k == 0 || k == 4 || (e.Fail? && k == 8), end)), [])
  {
    hide ReadError, Counted;
    var full := EndingBytes(e, DONE);
    var s := full[..k];
    if k >= 4 {
      assert s[..4] == full[..4];
      match e
      case Done(pad) => assert full[..4] == DONE;
      case Fail(msg) =>
        assert full[..4] == FAIL && s[4..] == Counted(msg)[..k - 4];
        CutCounted(msg, 0, end);
        CutCounted(msg, k - 4, end);
    }
  }

  /** A proper prefix of a listing is never taken for the whole, whether that ends in DONE or in FAIL, and which error it gives. */
  lemma {:induction false} DirCut(es: seq<DirEntry>, e: Ending, k: nat, end: IoError, files: seq<DirEntry>)
    requires AllNamed(es) && EndingOk(e, 16) && k < |EntriesBytes(es) + EndingBytes(e, DONE)|
    ensures DirReply((EntriesBytes(es) + EndingBytes(e, DONE))[..k], end, files)
         == (DirError(CutError(BetweenDents(es, e, k), end)), [])
    decreases |es|
  {
    hide DirReply, EntryBytes, EndingBytes, IsDots, Listed;
    var last := EndingBytes(e, DONE);
    var all := EntriesBytes(es) + last;
    if es == [] {
      assert all[..k] == last[..k];
      CutDirEnding(e, k, end, files);
    } else {
      var m := EntryBytes(es[0]);
      var more := EntriesBytes(es[1..]) + last;
      assert all == m + more;
      EntryIsLong(es[0]);
      if k < |m| {
        assert all[..k] == m[..k];
        CutEntry(es[0], k, end, files);
      } else {
        assert all[..k] == m + more[..k - |m|];
        EntryStep(es[0], more[..k - |m|], end, files);
        DirCut(es[1..], e, k - |m|, end, Listed(files, es[0]));
      }
    }
  }
}
