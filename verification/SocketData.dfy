/**
 * Where the packets of a connection come from: which OPEN, which payload limit and which bytes of the device stand
 * behind what a service puts on the wire (tcpusb/socket.go, tcpusb/service.go).
 */
module SocketData {
  import opened Bytes
  import opened Packets
  import opened Wrappers
  import opened IdTable
  import opened ServiceCore
  import opened SocketRuns
  import C = Connection
  import S = ServiceRuns
  import H = Handshake
  import P = OpenPath

  // -------------------------------------------------------------- origins and limits

  /** The n-th packet handled is the OPEN, with the client's id for the stream. */
  predicate IsOrigin(h: seq<C.Handled>, n: nat, remoteId: u32) {
    0 < n <= |h| && h[n - 1].packet.command == A_OPEN && h[n - 1].packet.arg0 == remoteId && |h[n - 1].packet.data| >= 2
  }

  /** A payload limit that was in force at some time after the first `from` packets. */
  predicate InForce(h: seq<C.Handled>, from: nat, limit: nat) {
    exists n :: from <= n <= |h| && limit == H.LimitOf(h[..n])
  }

  predicate LimitsInForce(x: S.State, h: seq<C.Handled>, from: nat) {
    && (x.forwarder.Reading? ==> InForce(h, from, x.forwarder.limit))
    && (x.forwarder.Sending? ==> InForce(h, from, x.forwarder.limit))
    && forall k :: 0 <= k < |x.v.log| && x.v.log[k].SentWrte? ==> InForce(h, from, x.v.log[k].limit)
  }

  predicate Sourced(s: State) {
    && |s.since| == |s.svc| && |s.remote| == |s.svc|
    && (forall i :: 0 <= i < |s.svc| ==> IsOrigin(s.c.handled, s.since[i], s.remote[i]))
    && (forall i :: 0 <= i < |s.svc| ==> LimitsInForce(s.svc[i], s.c.handled, s.since[i]))
    && (forall i, j :: 0 <= i < j < |s.svc| ==> s.since[i] < s.since[j])
    && (s.c.loop.Drawn? ==> forall i :: 0 <= i < |s.svc| ==> s.since[i] < |s.c.handled|)
  }

  /** The table holds the client's id of each live service. */
  predicate RemotesOk(s: State) {
    forall id :: id in s.slot ==>
      s.slot[id] < |s.remote| && id in s.c.f.table && s.c.f.table[id] == s.remote[s.slot[id]]
  }

  lemma HandshakeFacts(c: C.State)
    requires C.Reachable(c)
    ensures c.f.maxPayload == H.LimitOf(c.handled) && H.LoopTold(c)
  {
    hide C.Run, H.LimitOf, H.LoopTold;
    var steps :| C.Run(C.Init(), steps) == Some(c);
    H.AllTold(steps, c);
  }

  lemma InForceStays(h: seq<C.Handled>, e: C.Handled, from: nat, limit: nat)
    requires InForce(h, from, limit)
    ensures InForce(h + [e], from, limit)
  {
    var n :| from <= n <= |h| && limit == H.LimitOf(h[..n]);
    assert (h + [e])[..n] == h[..n];
  }

  lemma InForceNow(h: seq<C.Handled>, from: nat)
    requires from <= |h|
    ensures InForce(h, from, H.LimitOf(h))
  {
    assert h[..|h|] == h;
  }

  lemma LimitsStay(x: S.State, h: seq<C.Handled>, e: C.Handled, from: nat)
    requires LimitsInForce(x, h, from)
    ensures LimitsInForce(x, h + [e], from)
  {
    hide InForce;
    forall limit: nat | InForce(h, from, limit)
      ensures InForce(h + [e], from, limit)
    {
      InForceStays(h, e, from, limit);
    }
  }

  lemma StepLimits(x: S.State, step: S.Step, y: S.State, h: seq<C.Handled>, from: nat)
    requires LimitsInForce(x, h, from) && S.Next(x, step) == Some(y) && from <= |h|
    requires x.maxPayload == H.LimitOf(h) && x.maxPayload <= MAX_NEGOTIATED
    ensures LimitsInForce(y, h, from)
  {
    hide InForce, S.Next, H.LimitOf;
    P.StepCarries(x, step, y);
    InForceNow(h, from);
  }

  // ------------------------------------------------------------------------ each step

  /** One service has moved, and the history of the connection has not. */
  lemma MovedSourced(s: State, i: nat, step: S.Step, t: State)
    requires Inv(s) && Sourced(s) && i < |s.svc| && |t.svc| == |s.svc| && S.Next(s.svc[i], step) == Some(t.svc[i])
    requires t.svc == s.svc[i := t.svc[i]] && t.since == s.since && t.remote == s.remote
    requires t.c.handled == s.c.handled && t.c.loop == s.c.loop
    ensures Sourced(t)
  {
    hide LimitsInForce, IsOrigin, S.Next, H.LimitOf, TableOk, Routed, Sweeping, HistoryOk, WireOk, AllAccounted, C.Reachable, S.Reachable;
    HandshakeFacts(s.c);
    FlagBeforeSweep(s.c);
    assert IsOrigin(s.c.handled, s.since[i], s.remote[i]);
    OriginBound(s.c.handled, s.since[i], s.remote[i]);
    StepLimits(s.svc[i], step, t.svc[i], s.c.handled, s.since[i]);
  }

  lemma OriginBound(h: seq<C.Handled>, n: nat, remoteId: u32)
    requires IsOrigin(h, n, remoteId)
    ensures 0 < n <= |h|
  {
  }

  lemma ProcessSourced(s: State, env: C.Env, t: State)
    requires Inv(s) && Sourced(s) && LoopStep(s, C.Process(env)) == Some(t)
    ensures Sourced(t)
  {
    hide LimitsInForce, C.HandledBy, TableOk, Routed, Sweeping, HistoryOk, WireOk, AllAccounted, PartsRun;
    var e := C.Handled(s.c.loop.packet, env, s.c.f.ended);
    assert t.c.handled == s.c.handled + [e];
    forall i | 0 <= i < |t.svc|
      ensures LimitsInForce(t.svc[i], t.c.handled, t.since[i])
    {
      LimitsStay(s.svc[i], s.c.handled, e, s.since[i]);
      SameLimits(s.svc[i], t.c.f.maxPayload, t.c.handled, s.since[i]);
    }
  }

  lemma SameLimits(x: S.State, size: nat, h: seq<C.Handled>, from: nat)
    requires LimitsInForce(x, h, from)
    ensures LimitsInForce(x.(maxPayload := size), h, from)
  {
    hide InForce;
  }

  lemma InsertSourced(s: State, t: State)
    requires Inv(s) && Sourced(s) && LoopStep(s, C.Insert) == Some(t)
    ensures Sourced(t)
  {
    hide DrawOf, TableOk, Routed, Sweeping, HistoryOk, WireOk, AllAccounted, C.Reachable, S.Reachable, H.Fatal, LimitsInForce;
    HandshakeFacts(s.c);
    if !t.c.loop.Stopped? {
      NewSourced(s.c.handled, t.svc[|s.svc|]);
    }
  }

  lemma NewSourced(h: seq<C.Handled>, x: S.State)
    requires x.v.log == [] && x.forwarder.NotStarted?
    ensures LimitsInForce(x, h, |h|)
  {
    hide InForce;
  }

  lemma LoopSourced(s: State, step: C.Step, t: State)
    requires Inv(s) && Sourced(s) && LoopStep(s, step) == Some(t)
    ensures Sourced(t)
  {
    hide LimitsInForce, IsOrigin, DrawOf, PartsRun, TableOk, Routed, Sweeping, HistoryOk, WireOk, AllAccounted, C.Processed, C.Inserted;
    match step
    case Process(env) => ProcessSourced(s, env, t);
    case Insert => InsertSourced(s, t);
    case _ =>
  }

  lemma StepSourced(s: State, step: Step, t: State)
    requires Inv(s) && Sourced(s) && Next(s, step) == Some(t)
    ensures Sourced(t)
  {
    hide Inv, Sourced, LoopStep, DeliverStep, ServiceStep, S.Next;
    match step
    case Loop(st) => LoopSourced(s, st, t);
    case Deliver(ok) =>
      DeliverShape(s, ok, t);
      MovedSourced(s, s.target, Entering(s.c.loop.packet, ok), t);
    case Visit(id) => VisitSourced(s, t);
    case Service(i, own) =>
      ServiceShape(s, i, own, t);
      MovedSourced(s, i, own, t);
  }

  lemma VisitSourced(s: State, t: State)
    requires Sourced(s) && t == s.(left := t.left, current := t.current)
    ensures Sourced(t)
  {
    hide LimitsInForce, IsOrigin;
  }

  lemma LoopRemotes(s: State, step: C.Step, t: State)
    requires Inv(s) && RemotesOk(s) && LoopStep(s, step) == Some(t)
    ensures RemotesOk(t)
  {
    hide DrawOf, PartsRun, Routed, Sweeping, HistoryOk, WireOk, AllAccounted, C.HandledBy;
    if step.Process? && s.c.loop.packet.command != A_OPEN {
      C.HandledEffect(s.c.f, s.c.loop.packet, step.env);
    }
  }

  lemma RemovalRemotes(s: State, i: nat, t: State)
    requires RemotesOk(s) && Next(s, Service(i, S.Remove)) == Some(t)
    ensures RemotesOk(t)
  {
  }

  lemma StepRemotes(s: State, step: Step, t: State)
    requires Inv(s) && RemotesOk(s) && Next(s, step) == Some(t)
    ensures RemotesOk(t)
  {
    hide Inv, LoopStep, DeliverStep, ServiceStep, S.Next;
    match step
    case Loop(st) => LoopRemotes(s, st, t);
    case Deliver(ok) => DeliverShape(s, ok, t);
    case Visit(id) =>
    case Service(i, own) =>
      ServiceShape(s, i, own, t);
      if own.Remove? {
        RemovalRemotes(s, i, t);
      }
  }

  lemma {:induction false} RunSourced(s: State, steps: seq<Step>, t: State)
    requires Inv(s) && Sourced(s) && RemotesOk(s) && Run(s, steps) == Some(t)
    ensures Inv(t) && Sourced(t) && RemotesOk(t)
    decreases |steps|
  {
    hide Inv, Sourced, RemotesOk, Next;
    if steps == [] {
    } else {
      var m := Next(s, steps[0]).value;
      StepKeeps(s, steps[0], m);
      StepSourced(s, steps[0], m);
      StepRemotes(s, steps[0], m);
      RunSourced(m, steps[1..], t);
    }
  }

  lemma AllSourced(steps: seq<Step>, s: State)
    requires Run(Init(), steps) == Some(s)
    ensures Inv(s) && Sourced(s) && RemotesOk(s)
  {
    hide Run, Inv;
    EmptyRun(Init());
    Invariant([], Init());
    RunSourced(Init(), steps, s);
  }

  // ----------------------------------------------------------------------- the wire

  /** The out belongs to service i: its ids, and for a WRTE a length that the client allowed. */
  predicate BelongsTo(s: State, out: C.Out, i: nat)
    requires i < |s.svc| && i < |s.since|
  {
    var n, id := s.since[i], s.svc[i].v.localId;
    && IsOrigin(s.c.handled, n, out.arg1)
    && (if out.command == A_CLSE then out.arg0 == 0 || out.arg0 == id else out.arg0 == id)
    && (if out.command == A_WRTE then out.data != [] && InLimits(s.c.handled, n, |out.data|) else out.data == [])
  }

  predicate InLimits(h: seq<C.Handled>, from: nat, size: nat) {
    exists n :: from <= n <= |h| && size <= H.LimitOf(h[..n])
  }

  lemma {:induction false} FindOut(h: seq<Entry>, k: nat) returns (a: nat)
    requires k < |Outs(h)|
    ensures a < |h| && h[a].out == Some(Outs(h)[k])
  {
    var front := h[..|h| - 1];
    if k < |Outs(front)| {
      a := FindOut(front, k);
    } else {
      a := |h| - 1;
    }
  }

  lemma {:induction false} FindServiceOut(written: seq<C.Out>, k: nat) returns (a: nat)
    requires k < |written| && C.IsServiceCommand(written[k].command)
    ensures a < |ServiceOuts(written)| && ServiceOuts(written)[a] == written[k]
  {
    var front := written[..|written| - 1];
    if k == |front| {
      a := |ServiceOuts(front)|;
    } else {
      a := FindServiceOut(front, k);
    }
  }

  lemma {:induction false} EventIsLogged(h: seq<Entry>, a: nat) returns (k: nat)
    requires a < |h|
    ensures k < |Only(h, h[a].service)| && Only(h, h[a].service)[k] == h[a].event
  {
    OnlyAt(h, h[a].service, a);
    k := Before(h, h[a].service, a);
  }

  lemma EntryBelongs(steps: seq<Step>, s: State, a: nat)
    requires Run(Init(), steps) == Some(s) && a < |s.history| && s.history[a].out.Some?
    ensures |s.since| == |s.svc| && s.history[a].service < |s.svc|
    ensures BelongsTo(s, s.history[a].out.value, s.history[a].service)
  {
    hide Run, Only, S.LifeInv, S.WaitInv, S.FlowInv, S.HasOpenOkay, S.QuietAfterClose, S.OneOpenOkay, S.HasClose;
    hide H.LimitOf, C.Reachable, S.Reachable, Routed, Sweeping, WireOk, AllAccounted, S.Payloads, Flatten, RemotesOk;
    AllSourced(steps, s);
    var e := s.history[a];
    LogIs(steps, s, e.service);
    var k := EventIsLogged(s.history, a);
    var x := s.svc[e.service];
    assert x.v.log[k] == e.event;
    if e.event.SentWrte? {
      var n :| s.since[e.service] <= n <= |s.c.handled| && x.v.log[k].limit == H.LimitOf(s.c.handled[..n]);
    }
  }

  /**
   * Every OKAY, WRTE and CLSE on the wire belongs to a service of the connection: its second word is the first word of
   * the OPEN that created the service, its first word is the service's id, or 0 in a CLSE, only a WRTE carries data, and
   * no more of it than the client had allowed at some time since that OPEN.
   */
  lemma WireBelongs(steps: seq<Step>, s: State, k: nat) returns (i: nat)
    requires Run(Init(), steps) == Some(s) && k < |s.c.f.written| && C.IsServiceCommand(s.c.f.written[k].command)
    ensures i < |s.svc| && |s.since| == |s.svc| && BelongsTo(s, s.c.f.written[k], i)
  {
    hide Run, BelongsTo, ServiceOuts, Outs;
    WireIsHistory(steps, s);
    var a := FindServiceOut(s.c.f.written, k);
    assert ServiceOuts(s.c.f.written)[a] == Outs(s.history)[a];
    var b := FindOut(s.history, a);
    EntryBelongs(steps, s, b);
    i := s.history[b].service;
  }

  /** A payload limit is 4096 or what some CNXN asked for. */
  lemma {:induction false} LimitIsAsked(h: seq<C.Handled>)
    ensures H.LimitOf(h) == 4096 ||
            exists k :: 0 <= k < |h| && h[k].packet.command == A_CNXN && H.LimitOf(h) == Min(h[k].packet.arg1, 65535)
  {
    if h == [] {
    } else {
      LimitIsAsked(h[..|h| - 1]);
    }
  }

  lemma {:induction false} LimitOfOne(h: seq<C.Handled>, c: nat)
    requires c < |h| && h[c].packet.command == A_CNXN
    requires forall k :: 0 <= k < |h| && k != c ==> h[k].packet.command != A_CNXN
    ensures H.LimitOf(h) == Min(h[c].packet.arg1, 65535)
  {
    if c == |h| - 1 {
    } else {
      LimitOfOne(h[..|h| - 1], c);
    }
  }

  /** No WRTE is longer than 4096 bytes or than what some CNXN of this client asked for, 65535 at most. */
  lemma WritesWithinLimit(steps: seq<Step>, s: State, k: nat)
    requires Run(Init(), steps) == Some(s) && k < |s.c.f.written| && s.c.f.written[k].command == A_WRTE
    ensures var size := |s.c.f.written[k].data|;
            size <= 4096 || exists c :: 0 <= c < |s.c.handled| && s.c.handled[c].packet.command == A_CNXN
                                        && size <= Min(s.c.handled[c].packet.arg1, 65535)
  {
    hide Run, H.LimitOf, IsOrigin;
    var i := WireBelongs(steps, s, k);
    var n :| s.since[i] <= n <= |s.c.handled| && |s.c.f.written[k].data| <= H.LimitOf(s.c.handled[..n]);
    LimitIsAsked(s.c.handled[..n]);
    assert forall c :: 0 <= c < n ==> s.c.handled[c] == s.c.handled[..n][c];
  }

  /** With one CNXN, before the first OPEN, its limit binds every WRTE. */
  lemma OneLimitBinds(steps: seq<Step>, s: State, c: nat, k: nat)
    requires Run(Init(), steps) == Some(s) && k < |s.c.f.written| && s.c.f.written[k].command == A_WRTE
    requires c < |s.c.handled| && s.c.handled[c].packet.command == A_CNXN
    requires forall j :: 0 <= j < |s.c.handled| && j != c ==> s.c.handled[j].packet.command != A_CNXN
    requires forall j :: 0 <= j < c ==> s.c.handled[j].packet.command != A_OPEN
    ensures |s.c.f.written[k].data| <= Min(s.c.handled[c].packet.arg1, 65535)
  {
    hide Run, H.LimitOf;
    var i := WireBelongs(steps, s, k);
    var n :| s.since[i] <= n <= |s.c.handled| && |s.c.f.written[k].data| <= H.LimitOf(s.c.handled[..n]);
    assert c < s.since[i] - 1;
    LimitOfOne(s.c.handled[..n], c);
  }

  // --------------------------------------------------------- the bytes of the device

  /** The data of all WRTE packets with the given first word, put together. */
  function DataFrom(written: seq<C.Out>, id: u32): seq<byte> {
    if written == [] then []
    else
      var last := written[|written| - 1];
      DataFrom(written[..|written| - 1], id) + if last.command == A_WRTE && last.arg0 == id then last.data else []
  }

  lemma DataGrows(written: seq<C.Out>, out: C.Out, id: u32)
    ensures DataFrom(written + [out], id) == DataFrom(written, id) + if out.command == A_WRTE && out.arg0 == id then out.data else []
  {
    assert (written + [out])[..|written|] == written;
  }

  lemma {:induction false} DataOfServices(written: seq<C.Out>, id: u32)
    ensures DataFrom(ServiceOuts(written), id) == DataFrom(written, id)
  {
    if written == [] {
    } else {
      var front, last := written[..|written| - 1], written[|written| - 1];
      assert written == front + [last];
      DataOfServices(front, id);
      WireGrows(front, last);
      DataGrows(front, last, id);
      if C.IsServiceCommand(last.command) {
        DataGrows(ServiceOuts(front), last, id);
      } else {
        assert ServiceOuts(front) + [] == ServiceOuts(front);
      }
    }
  }

  lemma {:induction false} DataOfPrefix(a: seq<C.Out>, b: seq<C.Out>, id: u32)
    requires a <= b
    ensures DataFrom(a, id) <= DataFrom(b, id)
    decreases |b|
  {
    if a == b {
    } else {
      assert a <= b[..|b| - 1];
      DataOfPrefix(a, b[..|b| - 1], id);
    }
  }

  /** With different ids for different services, the data under an id is the data of its service. */
  lemma {:induction false} DataOfHistory(h: seq<Entry>, ids: seq<u32>, remotes: seq<u32>, i: nat)
    requires i < |ids| && |remotes| == |ids| && (forall j :: 0 <= j < |ids| && j != i ==> ids[j] != ids[i])
    requires forall k :: 0 <= k < |h| ==>
               h[k].service < |ids| && h[k].out == OutOf(ids[h[k].service], remotes[h[k].service], h[k].event)
    ensures DataFrom(Outs(h), ids[i]) == S.Payloads(Only(h, i))
  {
    if h == [] {
    } else {
      var front, last := h[..|h| - 1], h[|h| - 1];
      assert h == front + [last];
      DataOfHistory(front, ids, remotes, i);
      HistoryGrows(front, last);
      S.PayloadGrows(Only(front, i), last.event);
      if last.out.Some? {
        DataGrows(Outs(front), last.out.value, ids[i]);
      } else {
        assert Outs(front) + [] == Outs(front);
      }
      if last.service != i {
        assert Only(front, i) + [] == Only(front, i);
      }
    }
  }

  function LocalIds(svc: seq<S.State>): seq<u32> {
    seq(|svc|, j requires 0 <= j < |svc| => svc[j].v.localId)
  }

  /**
   * Below 2^32 - 1 draws, what a client reads from the WRTE packets of a stream is, in order, what was read from the
   * device of that stream: all that the service has sent until the socket ends, and a prefix of it afterwards.
   */
  lemma WireIsDeviceData(steps: seq<Step>, s: State, i: nat)
    requires Run(Init(), steps) == Some(s) && i < |s.svc| && s.c.f.idDraws < UINT32_MAX
    ensures DataFrom(s.c.f.written, s.svc[i].v.localId) <= s.svc[i].device
    ensures DataFrom(s.c.f.written, s.svc[i].v.localId) <= S.Payloads(s.svc[i].v.log)
    ensures !s.c.f.ended ==> DataFrom(s.c.f.written, s.svc[i].v.localId) == S.Payloads(s.svc[i].v.log)
  {
    hide Run, Only, OutOf, Outs, ServiceOuts, DataFrom, S.Payloads, Flatten;
    hide PartsRun, Routed, Sweeping, AllAccounted, S.LifeInv, S.WaitInv, S.LogInv, S.FlowInv;
    Invariant(steps, s);
    LogIs(steps, s, i);
    var ids, id := LocalIds(s.svc), s.svc[i].v.localId;
    forall j | 0 <= j < |ids| && j != i
      ensures ids[j] != ids[i]
    {
      if ids[j] == ids[i] {
        SameIdFarApart(steps, s, if i < j then i else j, if i < j then j else i);
      }
    }
    DataOfHistory(s.history, ids, s.remote, i);
    DataOfServices(s.c.f.written, id);
    DataOfPrefix(ServiceOuts(s.c.f.written), Outs(s.history), id);
  }
}
