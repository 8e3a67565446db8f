/** What a client sends to a stream and what the device of that stream is given (tcpusb/socket.go, tcpusb/service.go). */
module SocketClient {
  import opened Bytes
  import opened Packets
  import opened Wrappers
  import opened IdTable
  import opened ServiceCore
  import opened SocketRuns
  import C = Connection
  import S = ServiceRuns
  import D = SocketData

  /** What was passed on to the device. */
  function GivenTo(log: seq<Event>): seq<byte> {
    if log == [] then []
    else
      var last := log[|log| - 1];
      GivenTo(log[..|log| - 1]) + if last.GotWrte? then last.data else []
  }

  /** The data of the WRTE packets for an id among the packets handled, the first `from` left out. */
  function SentTo(h: seq<C.Handled>, from: nat, id: u32): seq<byte> {
    if |h| <= from then []
    else
      var p := h[|h| - 1].packet;
      SentTo(h[..|h| - 1], from, id) + if p.command == A_WRTE && p.arg1 == id then p.data else []
  }

  /** The data of the WRTE that the packet loop has looked up service i for and not yet handed to it. */
  function InHand(s: State, i: nat): seq<byte> {
    if s.c.loop.InService? && s.target == i && s.verdict.None? && s.c.loop.packet.command == A_WRTE
    then s.c.loop.packet.data else []
  }

  /** Service i lives, the packet loop runs without an error, and it finds the service or has found it. */
  predicate Served(s: State, i: nat)
    requires i < |s.svc|
  {
    && !s.svc[i].v.ended && !s.c.loop.Stopped? && s.verdict != Some(false)
    && (InTable(s, i) || (s.c.loop.InService? && s.target == i && s.verdict.None?))
  }

  predicate Passed(s: State, i: nat)
    requires i < |s.svc| && i < |s.since|
  {
    var given, sent := GivenTo(s.svc[i].v.log), SentTo(s.c.handled, s.since[i], s.svc[i].v.localId);
    && given <= sent
    && (Served(s, i) ==> given + InHand(s, i) == sent)
  }

  predicate AllPassed(s: State) {
    |s.since| == |s.svc| && forall i :: 0 <= i < |s.svc| ==> Passed(s, i)
  }

  lemma GivenGrows(log: seq<Event>, e: Event)
    ensures GivenTo(log + [e]) == GivenTo(log) + if e.GotWrte? then e.data else []
  {
    assert (log + [e])[..|log|] == log;
  }

  lemma SentGrows(h: seq<C.Handled>, e: C.Handled, from: nat, id: u32)
    requires from <= |h|
    ensures SentTo(h + [e], from, id) ==
            SentTo(h, from, id) + if e.packet.command == A_WRTE && e.packet.arg1 == id then e.packet.data else []
  {
    assert (h + [e])[..|h|] == h;
  }

  /** No other step of a service passes anything on. */
  lemma OnlyWritesGive(x: S.State, step: S.Step, y: S.State)
    requires S.Next(x, step) == Some(y) && !step.HandleWrite?
    ensures GivenTo(y.v.log) == GivenTo(x.v.log)
  {
    hide S.Next, GivenTo;
    S.StepFrame(x, step, y);
    if y.v.log != x.v.log {
      var e := y.v.log[|y.v.log| - 1];
      assert y.v.log == x.v.log + [e];
      GivenGrows(x.v.log, e);
    }
  }

  /** A WRTE that is no error is passed on, unless the service has ended. */
  lemma WriteGives(x: S.State, data: seq<byte>, deviceOk: bool, y: S.State)
    requires S.Next(x, S.HandleWrite(data, deviceOk)) == Some(y)
    ensures y.v.ended == x.v.ended
    ensures GivenTo(y.v.log) == GivenTo(x.v.log) || (!x.v.ended && GivenTo(y.v.log) == GivenTo(x.v.log) + data)
    ensures !x.v.ended && Accepts(x.v, S.HandleWrite(data, deviceOk)) ==> GivenTo(y.v.log) == GivenTo(x.v.log) + data
  {
    hide GivenTo;
    GivenGrows(x.v.log, GotWrte(data));
  }

  lemma EnteringEnds(x: S.State, p: Packet, deviceOk: bool, y: S.State)
    requires S.Next(x, Entering(p, deviceOk)) == Some(y)
    ensures y.v.ended == x.v.ended && y.v.localId == x.v.localId
  {
  }

  lemma DeliverPasses(s: State, deviceOk: bool, t: State)
    requires Inv(s) && AllPassed(s) && Next(s, Deliver(deviceOk)) == Some(t)
    ensures AllPassed(t)
  {
    hide Inv, Next, S.Next, GivenTo, SentTo;
    DeliverShape(s, deviceOk, t);
    var k, p := s.target, s.c.loop.packet;
    var step := Entering(p, deviceOk);
    DeliverVerdict(s, deviceOk, t);
    InServiceIsServed(s);
    EnteringEnds(s.svc[k], p, deviceOk, t.svc[k]);
    if p.command == A_WRTE {
      WriteGives(s.svc[k], p.data, deviceOk, t.svc[k]);
    } else {
      OnlyWritesGive(s.svc[k], step, t.svc[k]);
    }
    assert Passed(s, k);
    forall i | 0 <= i < |t.svc|
      ensures Passed(t, i)
    {
      assert Passed(s, i);
    }
  }

  lemma DeliverVerdict(s: State, deviceOk: bool, t: State)
    requires Next(s, Deliver(deviceOk)) == Some(t)
    ensures s.target < |s.svc| && t.verdict == Some(Accepts(s.svc[s.target].v, Entering(s.c.loop.packet, deviceOk)))
  {
    hide S.Next, Moved, Accepts, Entering;
  }

  lemma InServiceIsServed(s: State)
    requires Inv(s)
    ensures s.c.loop.InService? ==> s.target < |s.svc| && C.IsServicePacket(s.c.loop.packet)
    ensures s.verdict.Some? ==> s.c.loop.InService?
  {
    hide PartsRun, TableOk, Sweeping, HistoryOk, WireOk, AllAccounted;
  }

  lemma ServicePasses(s: State, j: nat, own: S.Step, t: State)
    requires AllPassed(s) && Next(s, Service(j, own)) == Some(t)
    ensures AllPassed(t)
  {
    hide Next, S.Next, GivenTo, SentTo;
    ServiceShape(s, j, own, t);
    S.StepFrame(s.svc[j], own, t.svc[j]);
    OnlyWritesGive(s.svc[j], own, t.svc[j]);
    TableShrinks(s, j, own, t);
    forall i | 0 <= i < |t.svc|
      ensures Passed(t, i)
    {
      assert Passed(s, i);
    }
  }

  lemma TableShrinks(s: State, j: nat, own: S.Step, t: State)
    requires Next(s, Service(j, own)) == Some(t)
    ensures forall id :: id in t.slot ==> id in s.slot && t.slot[id] == s.slot[id]
  {
    hide S.Next, OutOf, BackInSweep, OwnStep;
  }

  // ------------------------------------------------------------------ the packet loop

  lemma ProcessPasses(s: State, env: C.Env, t: State)
    requires Inv(s) && D.Sourced(s) && AllPassed(s) && LoopStep(s, C.Process(env)) == Some(t)
    ensures AllPassed(t)
  {
    hide GivenTo, SentTo, C.HandledBy, PartsRun, Sweeping, HistoryOk, WireOk, AllAccounted, ServiceOuts, D.LimitsInForce;
    var p := s.c.loop.packet;
    var e := C.Handled(p, env, s.c.f.ended);
    assert t.c.handled == s.c.handled + [e];
    forall i | 0 <= i < |t.svc|
      ensures Passed(t, i)
    {
      assert Passed(s, i);
      assert D.IsOrigin(s.c.handled, s.since[i], s.remote[i]);
      SentGrows(s.c.handled, e, s.since[i], s.svc[i].v.localId);
      RoutedOrGone(s, env, t, i);
    }
  }

  /** The packet that has just been handled is in the hands of service i, or not for it, or the service is not served. */
  lemma RoutedOrGone(s: State, env: C.Env, t: State, i: nat)
    requires Inv(s) && LoopStep(s, C.Process(env)) == Some(t) && i < |s.svc|
    ensures |t.svc| == |s.svc| && t.svc[i].v == s.svc[i].v && t.since == s.since && InHand(s, i) == []
    ensures Served(t, i) ==> Served(s, i)
    ensures var p := s.c.loop.packet;
            Served(t, i) && p.command == A_WRTE && p.arg1 == s.svc[i].v.localId ==> InHand(t, i) == p.data
    ensures var p := s.c.loop.packet;
            Served(t, i) && !(p.command == A_WRTE && p.arg1 == s.svc[i].v.localId) ==> InHand(t, i) == []
  {
    hide C.HandledBy, PartsRun, Sweeping, HistoryOk, WireOk, AllAccounted, ServiceOuts;
    var p := s.c.loop.packet;
    if p.command != A_OPEN {
      C.HandledEffect(s.c.f, p, env);
      UnauthorizedStops(s.c.f, p, env);
    }
    assert p.arg1 in s.slot <==> p.arg1 in s.c.f.table.Keys by { assert s.slot.Keys == s.c.f.table.Keys; }
  }

  lemma UnauthorizedStops(f: C.Fields, p: Packet, env: C.Env)
    ensures C.IsServicePacket(p) && !f.authorized ==> C.HandledBy(f, p, env).1 == C.Unauthorized
  {
  }

  lemma InsertPasses(s: State, t: State)
    requires Inv(s) && AllPassed(s) && LoopStep(s, C.Insert) == Some(t)
    ensures AllPassed(t)
  {
    hide DrawOf, GivenTo, SentTo, PartsRun, Sweeping, HistoryOk, WireOk, AllAccounted;
    NothingSent(s.c.handled, DrawOf(UINT32_MAX, s.c.f.idDraws));
    forall i | 0 <= i < |t.svc|
      ensures Passed(t, i)
    {
      if i < |s.svc| {
        assert Passed(s, i);
      }
    }
  }

  lemma NothingSent(h: seq<C.Handled>, id: u32)
    ensures SentTo(h, |h|, id) == [] && GivenTo([]) == []
  {
  }

  lemma LoopPasses(s: State, step: C.Step, t: State)
    requires Inv(s) && D.Sourced(s) && AllPassed(s) && LoopStep(s, step) == Some(t)
    ensures AllPassed(t)
  {
    hide DrawOf, GivenTo, SentTo, PartsRun, TableOk, Sweeping, HistoryOk, WireOk, AllAccounted, C.Processed, C.Inserted, D.Sourced;
    if step.Process? {
      ProcessPasses(s, step.env, t);
    } else if step.Insert? {
      InsertPasses(s, t);
    } else {
      forall i | 0 <= i < |t.svc|
        ensures Passed(t, i)
      {
        assert Passed(s, i);
      }
    }
  }

  lemma VisitPasses(s: State, id: u32, t: State)
    requires AllPassed(s) && VisitStep(s, id) == Some(t)
    ensures AllPassed(t)
  {
    hide GivenTo, SentTo;
    forall i | 0 <= i < |t.svc|
      ensures Passed(t, i)
    {
      assert Passed(s, i);
    }
  }

  lemma StepPasses(s: State, step: Step, t: State)
    requires Inv(s) && D.Sourced(s) && AllPassed(s) && Next(s, step) == Some(t)
    ensures AllPassed(t)
  {
    hide Inv, D.Sourced, AllPassed, LoopStep, DeliverStep, ServiceStep;
    match step
    case Loop(st) => LoopPasses(s, st, t);
    case Deliver(ok) => DeliverPasses(s, ok, t);
    case Visit(id) => VisitPasses(s, id, t);
    case Service(i, own) => ServicePasses(s, i, own, t);
  }

  lemma {:induction false} RunPasses(s: State, steps: seq<Step>, t: State)
    requires Inv(s) && D.Sourced(s) && AllPassed(s) && Run(s, steps) == Some(t)
    ensures AllPassed(t)
    decreases |steps|
  {
    hide Inv, D.Sourced, AllPassed, Next;
    if steps == [] {
    } else {
      var m := Next(s, steps[0]).value;
      StepKeeps(s, steps[0], m);
      D.StepSourced(s, steps[0], m);
      StepPasses(s, steps[0], m);
      RunPasses(m, steps[1..], t);
    }
  }

  /**
   * What the device of a stream is given is, in order and without a gap, a prefix of what the client has sent to that
   * stream since it was opened; and all of it but the packet in hand, as long as the stream lives, is in the table, and
   * the packet loop runs.
   */
  lemma DeviceGetsClientData(steps: seq<Step>, s: State, i: nat)
    requires Run(Init(), steps) == Some(s) && i < |s.svc|
    ensures |s.since| == |s.svc|
    ensures GivenTo(s.svc[i].v.log) <= SentTo(s.c.handled, s.since[i], s.svc[i].v.localId)
    ensures !s.svc[i].v.ended && InTable(s, i) && !s.c.loop.Stopped? && s.verdict != Some(false) ==>
              GivenTo(s.svc[i].v.log) + InHand(s, i) == SentTo(s.c.handled, s.since[i], s.svc[i].v.localId)
  {
    hide Run, Inv, GivenTo, SentTo;
    EmptyRun(Init());
    Invariant([], Init());
    D.AllSourced([], Init());
    RunPasses(Init(), steps, s);
    assert Passed(s, i);
  }
}
