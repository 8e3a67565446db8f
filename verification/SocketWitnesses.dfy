/** Runs of a whole connection that end badly (tcpusb/socket.go, tcpusb/service.go). */
module SocketWitnesses {
  import opened Bytes
  import opened Packets
  import opened Wrappers
  import opened IdTable
  import opened ServiceCore
  import opened SocketRuns
  import opened SocketEnds
  import C = Connection
  import S = ServiceRuns

  /** An authorized connection without services. */
  predicate Fresh(s: State) {
    && s.c.loop.Reading? && s.c.f.authorized && !s.c.f.ended && s.c.sweep.NotDue? && s.verdict.None? && s.current.None?
    && s.svc == [] && s.remote == [] && s.drawn == [] && s.slot == map[] && s.c.f.table == map[]
    && s.c.f.idDraws == 0 && s.c.f.maxPayload == 4096
  }

  lemma Authorized(signature: Packet, key: Packet, env: C.Env) returns (steps: seq<Step>, s: State)
    requires C.IsSignature(C.Handled(signature, env, false)) && C.IsAcceptedKey(C.Handled(key, env, false)) && env.writeOk
    ensures Run(Init(), steps) == Some(s) && Fresh(s)
  {
    hide Run;
    steps, s := [], Init();
    EmptyRun(s);
    steps, s := Extend(steps, s, Loop(C.Admit(signature)));
    steps, s := Extend(steps, s, Loop(C.Process(env)));
    steps, s := Extend(steps, s, Loop(C.Admit(key)));
    steps, s := Extend(steps, s, Loop(C.Process(env)));
  }

  /** A connection with one service, still being dialled, and a packet loop that waits for packets. */
  lemma OneService(signature: Packet, key: Packet, open: Packet, env: C.Env) returns (steps: seq<Step>, s: State)
    requires C.IsSignature(C.Handled(signature, env, false)) && C.IsAcceptedKey(C.Handled(key, env, false)) && env.writeOk
    requires open.command == A_OPEN && |open.data| >= 2
    ensures Run(Init(), steps) == Some(s) && Waiting(s, false) && s.svc[0] == S.Init(2)
  {
    hide Run;
    steps, s := Authorized(signature, key, env);
    steps, s := Extend(steps, s, Loop(C.Admit(open)));
    steps, s := Extend(steps, s, Loop(C.Process(env)));
    steps, s := Extend(steps, s, Loop(C.Insert));
  }

  predicate Waiting(s: State, late: bool) {
    && s.c.loop.Reading? && s.c.f.authorized && s.verdict.None?
    && s.c.f.ended == late && s.c.sweep == (if late then C.Done else C.NotDue)
    && |s.svc| == 1 && |s.remote| == 1 && 2 in s.slot && s.slot[2] == 0 && 2 in s.c.f.table
  }

  lemma Advance(steps: seq<Step>, s: State, late: bool, own: S.Step) returns (more: seq<Step>, t: State)
    requires Run(Init(), steps) == Some(s) && Waiting(s, late)
    requires S.Next(s.svc[0], own).Some? && OwnStep(s, 0, own) && !own.Remove?
    ensures Run(Init(), more) == Some(t) && Waiting(t, late) && |t.svc| == 1 && S.Next(s.svc[0], own) == Some(t.svc[0])
  {
    hide Run, S.Next, Next;
    assert Next(s, Service(0, own)).Some? by { CanMove(s, 0, own); }
    more, t := Extend(steps, s, Service(0, own));
    ServiceShape(s, 0, own, t);
  }

  lemma ServiceDials(steps: seq<Step>, s: State, late: bool) returns (more: seq<Step>, t: State)
    requires Run(Init(), steps) == Some(s) && Waiting(s, late) && s.svc[0] == S.Init(2)
    ensures Run(Init(), more) == Some(t) && Waiting(t, late)
    ensures t.svc[0] == s.svc[0].(opener := S.SendingOkay, obtained := 1, v := s.svc[0].v.(transport := true))
  {
    hide Run, Waiting;
    assert |s.svc| == 1 by { OneAlone(s, late); }
    more, t := Advance(steps, s, late, S.Dial(true));
    more, t := Advance(more, t, late, S.Install);
    more, t := Advance(more, t, late, S.SendName(true));
    more, t := Advance(more, t, late, S.ReadReply(S.ReplyOkay));
  }

  lemma ServiceOpens(steps: seq<Step>, s: State, late: bool) returns (more: seq<Step>, t: State)
    requires Run(Init(), steps) == Some(s) && Waiting(s, late) && s.svc[0].opener.SendingOkay?
    ensures Run(Init(), more) == Some(t) && Waiting(t, late)
    ensures t.svc[0] == s.svc[0].(opener := S.Opener.Waiting, forwarder := S.Top,
                                  v := s.svc[0].v.(isOpen := true, log := s.svc[0].v.log + [SentOpenOkay]))
  {
    hide Run, Waiting;
    assert |s.svc| == 1 by { OneAlone(s, late); }
    more, t := Advance(steps, s, late, S.HandOkay);
    more, t := Advance(more, t, late, S.SetOpened);
    more, t := Advance(more, t, late, S.Spawn);
  }

  lemma ForwarderLeaves(steps: seq<Step>, s: State, late: bool) returns (more: seq<Step>, t: State)
    requires Run(Init(), steps) == Some(s) && Waiting(s, late) && s.svc[0].forwarder.Top? && s.svc[0].mu.Free?
    requires s.svc[0].v.transport && !s.svc[0].v.ended && !s.svc[0].v.needAck && s.svc[0].maxPayload > 0
    ensures Run(Init(), more) == Some(t) && Waiting(t, late) && t.svc[0] == s.svc[0].(forwarder := S.Exiting)
  {
    hide Run, Waiting;
    assert |s.svc| == 1 by { OneAlone(s, late); }
    more, t := Advance(steps, s, late, S.ForwardTop);
    more, t := Advance(more, t, late, S.DeviceFail([]));
  }

  lemma ForwarderEnds(steps: seq<Step>, s: State, late: bool) returns (more: seq<Step>, t: State)
    requires Run(Init(), steps) == Some(s) && Waiting(s, late) && s.svc[0].forwarder.Exiting? && s.svc[0].mu.Free?
    requires s.svc[0].v.isOpen && !s.svc[0].v.ended && s.svc[0].handler.Idle?
    ensures Run(Init(), more) == Some(t) && Waiting(t, late) && t.svc[0].handler.Idle? && t.svc[0].v.ended && !t.svc[0].v.transport
    ensures t.svc[0].v.log == s.svc[0].v.log + [SentClse(s.svc[0].v.localId)]
  {
    hide Run, Waiting, S.Next;
    assert |s.svc| == 1 by { OneAlone(s, late); }
    ForwarderEndSteps(s.svc[0]);
    more, t := Advance(steps, s, late, S.EndBegin(S.ForwarderG));
    ForwarderEndSteps(t.svc[0]);
    more, t := Advance(more, t, late, S.EndHand);
    ForwarderEndSteps(t.svc[0]);
    more, t := Advance(more, t, late, S.EndClearField);
    ForwarderEndSteps(t.svc[0]);
    more, t := Advance(more, t, late, S.EndFinish);
  }

  lemma ForwarderEndSteps(x: S.State)
    ensures x.mu.Free? && x.forwarder.Exiting? && !x.v.ended ==>
              S.Next(x, S.EndBegin(S.ForwarderG)) == Some(x.(mu := S.Closing(S.ForwarderG, CloseId(x.v)), v := EndCloseTransport(x.v)))
    ensures x.mu.Closing? ==> S.Next(x, S.EndHand) == Some(x.(mu := S.Closed(x.mu.owner), v := EndSendClose(x.v, x.mu.id)))
    ensures x.mu.Closed? ==> S.Next(x, S.EndClearField) == Some(x.(mu := S.Cleared(x.mu.owner), v := EndClear(x.v)))
    ensures x.mu == S.Cleared(S.ForwarderG) ==>
              S.Next(x, S.EndFinish) == Some(x.(mu := S.Free, forwarder := S.Signalling, v := EndCommit(x.v)))
  {
  }

  lemma OneAlone(s: State, late: bool)
    requires Waiting(s, late)
    ensures |s.svc| == 1
  {
  }

  /** The service opens, and then the device closes the stream: the service has ended but is still in the table. */
  lemma DeviceCloses(signature: Packet, key: Packet, open: Packet, env: C.Env) returns (steps: seq<Step>, s: State)
    requires C.IsSignature(C.Handled(signature, env, false)) && C.IsAcceptedKey(C.Handled(key, env, false)) && env.writeOk
    requires open.command == A_OPEN && |open.data| >= 2
    ensures Run(Init(), steps) == Some(s) && Waiting(s, false)
    ensures s.svc[0].v.ended && !s.svc[0].v.transport && s.svc[0].handler.Idle? && s.svc[0].v.log == [SentOpenOkay, SentClse(2)]
  {
    hide Run, Waiting;
    steps, s := OneService(signature, key, open, env);
    steps, s := ServiceDials(steps, s, false);
    steps, s := ServiceOpens(steps, s, false);
    steps, s := ForwarderLeaves(steps, s, false);
    steps, s := ForwarderEnds(steps, s, false);
  }

  /** A packet that its service refuses, and does not react to, stops the packet loop. */
  lemma RefusedPacketStops(steps: seq<Step>, s: State, p: Packet, deviceOk: bool, env: C.Env) returns (more: seq<Step>, t: State)
    requires Run(Init(), steps) == Some(s) && Waiting(s, false) && C.IsServicePacket(p) && p.arg1 == 2
    requires s.svc[0].maxPayload == s.c.f.maxPayload && s.svc[0].handler.Idle?
    requires S.Next(s.svc[0], Entering(p, deviceOk)) == Some(s.svc[0]) && !Accepts(s.svc[0].v, Entering(p, deviceOk))
    ensures Run(Init(), more) == Some(t) && t.c.loop.Stopped? && t.svc == s.svc
  {
    hide Run, S.Next, Entering, Accepts;
    more, t := Extend(steps, s, Loop(C.Admit(p)));
    more, t := Extend(more, t, Loop(C.Process(env)));
    assert t.svc == s.svc;
    more, t := Extend(more, t, Deliver(deviceOk));
    more, t := Extend(more, t, Loop(C.Return(false)));
  }

  lemma SameLimit(steps: seq<Step>, s: State)
    requires Run(Init(), steps) == Some(s)
    ensures forall i :: 0 <= i < |s.svc| ==> s.svc[i].maxPayload == s.c.f.maxPayload
  {
    hide Run, C.Reachable, S.Reachable, Only;
    EachPartRuns(steps, s);
  }

  /** A client that answers the CLSE of such a service with a CLSE of its own stops the packet loop of its connection. */
  lemma CloseAnswerStops(signature: Packet, key: Packet, open: Packet, close: Packet, env: C.Env)
    returns (steps: seq<Step>, s: State)
    requires C.IsSignature(C.Handled(signature, env, false)) && C.IsAcceptedKey(C.Handled(key, env, false)) && env.writeOk
    requires open.command == A_OPEN && |open.data| >= 2 && close.command == A_CLSE && close.arg1 == 2
    ensures Run(Init(), steps) == Some(s) && s.c.loop.Stopped? && |s.svc| == 1
    ensures s.svc[0].v.log == [SentOpenOkay, SentClse(2)]
  {
    hide Run, Waiting;
    steps, s := DeviceCloses(signature, key, open, env);
    assert |s.svc| == 1 by { OneAlone(s, false); }
    SameLimit(steps, s);
    ClosedRefuses(s.svc[0], close);
    steps, s := RefusedPacketStops(steps, s, close, true, env);
  }

  lemma ClosedRefuses(x: S.State, close: Packet)
    requires close.command == A_CLSE && !x.v.transport && x.handler.Idle?
    ensures S.Next(x, Entering(close, true)) == Some(x) && !Accepts(x.v, Entering(close, true))
  {
  }

  /** A packet for a service that is still being dialled stops the packet loop, whatever its kind. */
  lemma EarlyPacketStops(signature: Packet, key: Packet, open: Packet, early: Packet, deviceOk: bool, env: C.Env)
    returns (steps: seq<Step>, s: State)
    requires C.IsSignature(C.Handled(signature, env, false)) && C.IsAcceptedKey(C.Handled(key, env, false)) && env.writeOk
    requires open.command == A_OPEN && |open.data| >= 2 && C.IsServicePacket(early) && early.arg1 == 2
    ensures Run(Init(), steps) == Some(s) && s.c.loop.Stopped? && s.svc == [S.Init(2)]
  {
    hide Run, Waiting;
    steps, s := OneService(signature, key, open, env);
    assert |s.svc| == 1 by { OneAlone(s, false); }
    SameLimit(steps, s);
    NewRefuses(early, deviceOk);
    steps, s := RefusedPacketStops(steps, s, early, deviceOk, env);
  }

  lemma NewRefuses(p: Packet, deviceOk: bool)
    requires C.IsServicePacket(p)
    ensures S.Next(S.Init(2), Entering(p, deviceOk)) == Some(S.Init(2)) && !Accepts(S.Init(2).v, Entering(p, deviceOk))
  {
  }

  /** A connection that was ended, and whose only service was inserted after the sweep. */
  lemma OneLateService(signature: Packet, key: Packet, open: Packet, env: C.Env) returns (steps: seq<Step>, s: State)
    requires C.IsSignature(C.Handled(signature, env, false)) && C.IsAcceptedKey(C.Handled(key, env, false)) && env.writeOk
    requires open.command == A_OPEN && |open.data| >= 2
    ensures Run(Init(), steps) == Some(s) && Waiting(s, true) && s.svc[0] == S.Init(2)
  {
    hide Run;
    steps, s := Authorized(signature, key, env);
    steps, s := Extend(steps, s, Loop(C.Admit(open)));
    steps, s := Extend(steps, s, Loop(C.EndSocket));
    steps, s := Extend(steps, s, Loop(C.SweepBegin));
    steps, s := Extend(steps, s, Loop(C.SweepEnd));
    steps, s := Extend(steps, s, Loop(C.Process(env)));
    steps, s := Extend(steps, s, Loop(C.Insert));
  }

  lemma ForwarderSends(steps: seq<Step>, s: State, late: bool, chunk: seq<byte>) returns (more: seq<Step>, t: State)
    requires Run(Init(), steps) == Some(s) && Waiting(s, late) && s.svc[0].forwarder.Top? && s.svc[0].mu.Free?
    requires s.svc[0].v.transport && !s.svc[0].v.ended && !s.svc[0].v.needAck && 0 < |chunk| <= s.svc[0].maxPayload <= 65535
    ensures Run(Init(), more) == Some(t) && Waiting(t, late)
    ensures t.svc[0].forwarder.Top? && t.svc[0].v.needAck && !t.svc[0].v.ended && t.svc[0].mu.Free?
    ensures t.svc[0].handler == s.svc[0].handler
  {
    hide Run, Waiting;
    assert |s.svc| == 1 by { OneAlone(s, late); }
    more, t := Advance(steps, s, late, S.ForwardTop);
    more, t := Advance(more, t, late, S.DeviceRead(chunk));
    more, t := Advance(more, t, late, S.ForwardSend);
  }

  /** A service that was inserted late opens, sends one packet that is refused, and is then stuck. */
  lemma LeakHappens(signature: Packet, key: Packet, open: Packet, env: C.Env, b: byte) returns (steps: seq<Step>, s: State)
    requires C.IsSignature(C.Handled(signature, env, false)) && C.IsAcceptedKey(C.Handled(key, env, false)) && env.writeOk
    requires open.command == A_OPEN && |open.data| >= 2
    ensures Run(Init(), steps) == Some(s) && |s.svc| == 1 && Stuck(s, 0)
  {
    hide Run, Waiting;
    steps, s := OneLateService(signature, key, open, env);
    assert |s.svc| == 1 by { OneAlone(s, true); }
    steps, s := ServiceDials(steps, s, true);
    steps, s := ServiceOpens(steps, s, true);
    steps, s := ForwarderSends(steps, s, true, [b]);
    OneAlone(s, true);
    WaitingIsStuck(s);
  }

  lemma WaitingIsStuck(s: State)
    requires Waiting(s, true) && S.Awaits(s.svc[0])
    ensures |s.svc| == 1 && Stuck(s, 0)
  {
  }
}
