/** Several calls on one sync connection: what goes out and what comes back (adb/sync.go). */
module SyncCalls {
  import opened Bytes
  import opened Conn
  import opened SyncWire
  import opened SyncClient
  import opened SyncLaws

  datatype Call =
    | StatCall(path: seq<byte>)
    | ListCall(path: seq<byte>)
    | PushCall(path: seq<byte>, data: seq<byte>, mode: u32, mtime: int)
    | PullCall(path: seq<byte>)

  function CallKind(c: Call): Kind {
    match c
    case StatCall(_) => StatKind
    case ListCall(_) => ListKind
    case PushCall(_, _, _, _) => PushKind
    case PullCall(_) => PullKind
  }

  function CallBytes(c: Call): seq<byte> {
    match c
    case StatCall(path) => Request(STAT, path)
    case ListCall(path) => Request(LIST, path)
    case PushCall(path, data, mode, mtime) => PushRequest(data, path, mode, mtime)
    case PullCall(path) => Request(RECV, path)
  }

  /** The calls, put together in the order they are made. */
  function CallsBytes(calls: seq<Call>): seq<byte> {
    if calls == [] then [] else CallsBytes(calls[..|calls| - 1]) + CallBytes(calls[|calls| - 1])
  }

  function CallKinds(calls: seq<Call>): seq<Kind> {
    if calls == [] then [] else CallKinds(calls[..|calls| - 1]) + [CallKind(calls[|calls| - 1])]
  }

  /** One call; without write errors its whole request goes out and its reply comes back. */
  method Perform(svc: SyncService, c: Call) returns (o: Outcome)
    modifies svc
    ensures old(svc.output) <= svc.output <= old(svc.output) + CallBytes(c)
    ensures old(svc.faults) == [] ==>
              && svc.faults == [] && svc.output == old(svc.output) + CallBytes(c)
              && (o, svc.input) == Serve(CallKind(c), old(svc.input), svc.end)
  {
    hide Request, PushRequest, StatReply, DirReply, FinalReply, ReadFile;
    ghost var all := CallBytes(c);
    ghost var sent;
    match c
    case StatCall(path) =>
      var r;
      r, sent := svc.Stat(path);
      o := StatDone(r);
    case ListCall(path) =>
      var r;
      r, sent := svc.Readdir(path);
      o := ListDone(r);
    case PushCall(path, data, mode, mtime) =>
      var err;
      err, sent := svc.PushContent(data, path, mode, mtime);
      o := PushDone(err);
    case PullCall(path) =>
      var data, err;
      data, err, sent := svc.ReadFileContent(path);
      o := PullDone(data, err);
    assert svc.output == old(svc.output) + all[..sent];
    assert all[..|all|] == all;
  }

  /**
   * Any list of calls on one connection.  Without write errors the bytes sent are the requests in order; and if
   * the device answers every call with a well-formed answer of its kind, a failure or not, then each call returns
   * what its own answer says and the bytes after the last answer are untouched.
   */
  method PerformAll(svc: SyncService, calls: seq<Call>, ghost xs: seq<Exchange>, ghost rest: seq<byte>)
    returns (outcomes: seq<Outcome>)
    modifies svc
    ensures |outcomes| == |calls|
    ensures old(svc.faults) == [] ==>
              && svc.output == old(svc.output) + CallsBytes(calls)
              && (outcomes, svc.input) == ServeAll(CallKinds(calls), old(svc.input), svc.end)
    ensures old(svc.faults) == [] && Kinds(xs) == CallKinds(calls) && (forall k :: 0 <= k < |xs| ==> WellFormed(xs[k]))
            && old(svc.input) == Answers(xs) + rest ==>
              outcomes == AllExpected(xs) && svc.input == rest
  {
    hide CallBytes, CallKind, Serve, Answers, AllExpected, Kinds, WellFormed;
    outcomes := [];
    for i := 0 to |calls|
      invariant |outcomes| == i
      invariant old(svc.faults) == [] ==>
                  && svc.faults == [] && svc.output == old(svc.output) + CallsBytes(calls[..i])
                  && (outcomes, svc.input) == ServeAll(CallKinds(calls[..i]), old(svc.input), svc.end)
    {
      assert calls[..i + 1][..i] == calls[..i];
      ServeOneMore(CallKinds(calls[..i]), CallKind(calls[i]), old(svc.input), svc.end);
      var o := Perform(svc, calls[i]);
      outcomes := outcomes + [o];
    }
    assert calls[..|calls|] == calls;
    if forall k :: 0 <= k < |xs| ==> WellFormed(xs[k]) {
      RequestsStayAligned(xs, rest, svc.end);
    }
  }

  lemma {:induction false} ServeOneMore(ks: seq<Kind>, k: Kind, s: seq<byte>, end: IoError)
    ensures var (os, s1) := ServeAll(ks, s, end);
            var (o, s2) := Serve(k, s1, end);
            ServeAll(ks + [k], s, end) == (os + [o], s2)
    decreases |ks|
  {
    hide Serve;
    if ks == [] {
      var (o, s1) := Serve(k, s, end);
      assert ks + [k] == [k] && [k][1..] == [];
      assert ServeAll([k], s, end) == ([o] + [], s1) && [o] + [] == [] + [o];
    } else {
      var (first, s1) := Serve(ks[0], s, end);
      var (os, s2) := ServeAll(ks[1..], s1, end);
      var (last, s3) := Serve(k, s2, end);
      ServeOneMore(ks[1..], k, s1, end);
      assert (ks + [k])[0] == ks[0] && (ks + [k])[1..] == ks[1..] + [k];
      assert ServeAll(ks + [k], s, end) == ([first] + (os + [last]), s3);
      assert [first] + (os + [last]) == [first] + os + [last];
    }
  }
}
