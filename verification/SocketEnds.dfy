/** Whether the services of a connection come to an end (tcpusb/socket.go, tcpusb/service_map.go, tcpusb/service.go). */
module SocketEnds {
  import opened Bytes
  import opened Packets
  import opened Wrappers
  import opened IdTable
  import opened ServiceCore
  import opened SocketRuns
  import C = Connection
  import S = ServiceRuns

  // ---------------------------------------------------------------- being listed

  predicate Leaving(o: S.Opener) {
    o.Ending? || o.Finished?
  }

  /** Until the sweep is over, every service whose opener has not left is in the table under its own id. */
  predicate Listed(s: State) {
    && (!s.c.sweep.Done? ==> forall i :: 0 <= i < |s.svc| ==> Leaving(s.svc[i].opener) || InTable(s, i))
    && (s.c.sweep.Holding? ==> s.left <= s.slot.Keys)
  }

  lemma LeavingStays(x: S.State, step: S.Step, y: S.State)
    requires S.Next(x, step) == Some(y) && Leaving(x.opener)
    ensures Leaving(y.opener)
  {
  }

  lemma MovedKeepsList(s: State, i: nat, step: S.Step, t: State)
    requires Listed(s) && i < |s.svc| && |t.svc| == |s.svc| && S.Next(s.svc[i], step) == Some(t.svc[i])
    requires t.svc == s.svc[i := t.svc[i]] && t.c.sweep == s.c.sweep && t.left == s.left && t.slot == s.slot
    ensures Listed(t)
  {
    hide S.Next, S.Logged;
    S.StepFrame(s.svc[i], step, t.svc[i]);
    if Leaving(s.svc[i].opener) {
      LeavingStays(s.svc[i], step, t.svc[i]);
    }
  }

  /** The opener of a listed service takes out its own entry and no other. */
  lemma RemovalKeepsList(s: State, i: nat, t: State)
    requires Listed(s) && i < |s.svc| && |t.svc| == |s.svc| && !Leaving(s.svc[i].opener) && Leaving(t.svc[i].opener)
    requires t.svc == s.svc[i := t.svc[i]] && t.c.sweep == s.c.sweep && !s.c.sweep.Holding?
    requires t.svc[i].v.localId == s.svc[i].v.localId && t.slot == s.slot - {s.svc[i].v.localId}
    ensures Listed(t)
  {
  }

  lemma ServiceKeepsList(s: State, i: nat, own: S.Step, t: State)
    requires Listed(s) && Next(s, Service(i, own)) == Some(t)
    ensures Listed(t)
  {
    hide Listed, S.Next, Next;
    ServiceShape(s, i, own, t);
    if own.Remove? {
      S.StepFrame(s.svc[i], own, t.svc[i]);
      RemoveIs(s, i, t);
      RemovalKeepsList(s, i, t);
    } else {
      MovedKeepsList(s, i, own, t);
    }
  }

  lemma RemoveIs(s: State, i: nat, t: State)
    requires Next(s, Service(i, S.Remove)) == Some(t)
    ensures i < |s.svc| && |t.svc| == |s.svc| && !s.c.sweep.Holding?
    ensures s.svc[i].opener.Removing? && t.svc[i].opener.Ending? && t.slot == s.slot - {s.svc[i].v.localId}
  {
  }

  lemma LoopKeepsList(s: State, step: C.Step, t: State)
    requires Listed(s) && TableOk(s) && PartsRun(s) && LoopStep(s, step) == Some(t)
    ensures Listed(t)
  {
    hide DrawOf, C.HandledBy, C.Reachable, S.Reachable;
    FlagBeforeSweep(s.c);
    match step
    case Insert => InsertKeepsList(s, t);
    case Process(env) => ProcessKeepsList(s, env, t);
    case _ =>
  }

  lemma InsertKeepsList(s: State, t: State)
    requires Listed(s) && TableOk(s) && LoopStep(s, C.Insert) == Some(t)
    ensures Listed(t)
  {
    hide DrawOf;
    var id := DrawOf(UINT32_MAX, s.c.f.idDraws);
    if id !in s.c.f.table {
      assert id !in s.slot.Keys;
      forall i | 0 <= i < |t.svc| && !t.c.sweep.Done?
        ensures Leaving(t.svc[i].opener) || InTable(t, i)
      {
        if i < |s.svc| && InTable(s, i) {
          assert t.svc[i] == s.svc[i];
        }
      }
    }
  }

  lemma ProcessKeepsList(s: State, env: C.Env, t: State)
    requires Listed(s) && LoopStep(s, C.Process(env)) == Some(t)
    ensures Listed(t)
  {
    hide C.HandledBy, C.Processed, ServiceOuts;
    LoopWrites(s.c, env, t.c);
    forall i | 0 <= i < |t.svc| && !t.c.sweep.Done?
      ensures Leaving(t.svc[i].opener) || InTable(t, i)
    {
      assert Leaving(s.svc[i].opener) || InTable(s, i);
    }
  }

  lemma StepKeepsList(s: State, step: Step, t: State)
    requires Listed(s) && TableOk(s) && PartsRun(s) && Next(s, step) == Some(t)
    ensures Listed(t)
  {
    hide Listed, TableOk, PartsRun, LoopStep, DeliverStep, ServiceStep, S.Next;
    match step
    case Loop(st) => LoopKeepsList(s, st, t);
    case Deliver(ok) =>
      DeliverShape(s, ok, t);
      MovedKeepsList(s, s.target, Entering(s.c.loop.packet, ok), t);
    case Visit(id) => VisitKeepsList(s, id, t);
    case Service(i, own) => ServiceKeepsList(s, i, own, t);
  }

  lemma VisitKeepsList(s: State, id: u32, t: State)
    requires Listed(s) && VisitStep(s, id) == Some(t)
    ensures Listed(t)
  {
  }

  ghost predicate Good(s: State) {
    Inv(s) && Listed(s)
  }

  lemma GoodStep(s: State, step: Step, t: State)
    requires Good(s) && Next(s, step) == Some(t)
    ensures Good(t)
  {
    hide Listed, Next, PartsRun, TableOk, Routed, Sweeping, HistoryOk, WireOk, AllAccounted;
    StepKeeps(s, step, t);
    StepKeepsList(s, step, t);
  }

  lemma {:induction false} GoodRun(s: State, steps: seq<Step>, t: State)
    requires Good(s) && Run(s, steps) == Some(t)
    ensures Good(t)
    decreases |steps|
  {
    hide Good, Next;
    if steps == [] {
    } else {
      GoodStep(s, steps[0], Next(s, steps[0]).value);
      GoodRun(Next(s, steps[0]).value, steps[1..], t);
    }
  }

  lemma Reached(steps: seq<Step>, s: State)
    requires Run(Init(), steps) == Some(s)
    ensures Good(s)
  {
    hide Run, Inv;
    EmptyRun(Init());
    Invariant([], Init());
    GoodRun(Init(), steps, s);
  }

  lemma ServiceInv(s: State, i: nat)
    requires Good(s) && i < |s.svc|
    ensures S.Inv(s.svc[i]) && |s.remote| == |s.svc|
  {
    hide S.Run, C.Reachable, Listed, Sweeping, Routed, HistoryOk, WireOk, AllAccounted;
    assert S.Reachable(s.svc[i].v.localId, s.svc[i]);
    var own :| S.Run(S.Init(s.svc[i].v.localId), own) == Some(s.svc[i]);
    S.Invariant(s.svc[i].v.localId, own, s.svc[i]);
  }

  lemma OneStep(s: State, step: Step, m: State, more: seq<Step>, t: State)
    requires Next(s, step) == Some(m) && Run(m, more) == Some(t)
    ensures Run(s, [step] + more) == Some(t)
  {
    hide Next;
    assert ([step] + more)[1..] == more;
  }

  // ------------------------------------------------------------ finishing the sweep

  /** What the sweep, or whoever keeps it waiting, does next to the service it has come to. */
  function SweepMove(x: S.State): S.Step {
    match x.mu
    case Closing(_, _) => S.EndHand
    case Closed(_) => S.EndClearField
    case Cleared(_) => S.EndFinish
    case Answering => S.AnswerWrite
    case Free => S.EndBegin(S.SocketG)
  }

  function SweepDistance(x: S.State): nat {
    match x.mu
    case Answering => 6
    case Free => if x.v.ended then 1 else 5
    case Closing(_, _) => 4
    case Closed(_) => 3
    case Cleared(_) => 2
  }

  lemma SweepMoves(x: S.State)
    requires S.LifeInv(x)
    ensures S.Next(x, SweepMove(x)).Some?
    ensures BackInSweep(x, SweepMove(x)) || SweepDistance(S.Next(x, SweepMove(x)).value) < SweepDistance(x)
  {
  }

  ghost function SweepLeft(s: State): nat {
    20 * |s.left| + if s.current.Some? && s.current.value < |s.svc| then 10 + SweepDistance(s.svc[s.current.value]) else 0
  }

  /** Every service has ended or is being left by its opener. */
  predicate AllOver(s: State) {
    forall i :: 0 <= i < |s.svc| ==> s.svc[i].v.ended || Leaving(s.svc[i].opener)
  }

  lemma SweepsOn(s: State) returns (step: Step, t: State)
    requires Good(s) && s.c.sweep.Holding? && (s.current.Some? || s.left != {})
    ensures Next(s, step) == Some(t) && t.c.sweep.Holding? && |t.svc| == |s.svc| && SweepLeft(t) < SweepLeft(s)
  {
    if s.current.Some? {
      step, t := SweepsOne(s);
    } else {
      var id :| id in s.left;
      step := Visit(id);
      t := VisitOne(s, id);
    }
  }

  lemma SweepsOne(s: State) returns (step: Step, t: State)
    requires Good(s) && s.c.sweep.Holding? && s.current.Some?
    ensures Next(s, step) == Some(t) && t.c.sweep.Holding? && |t.svc| == |s.svc| && SweepLeft(t) < SweepLeft(s)
  {
    hide Next, S.Next, SweepDistance, SweepMove, BackInSweep, S.LogInv, S.FlowInv, S.DataInv, S.WaitInv, S.LifeInv;
    assert s.current.value < |s.svc| by { CurrentIs(s); }
    var k := s.current.value;
    ServiceInv(s, k);
    var own := SweepMove(s.svc[k]);
    SweepMoves(s.svc[k]);
    assert OwnStep(s, k, own) && !own.Remove? by { SweepMovesAreOwn(s, k); }
    CanMove(s, k, own);
    step, t := Service(k, own), Next(s, Service(k, own)).value;
    ServiceShape(s, k, own, t);
  }

  lemma CurrentIs(s: State)
    requires Good(s) && s.current.Some?
    ensures s.current.value < |s.svc|
  {
    hide PartsRun, TableOk, Routed, HistoryOk, WireOk, AllAccounted, Listed;
  }

  lemma SweepMovesAreOwn(s: State, k: nat)
    requires s.current == Some(k) && k < |s.svc|
    ensures OwnStep(s, k, SweepMove(s.svc[k])) && !SweepMove(s.svc[k]).Remove?
  {
  }

  lemma VisitOne(s: State, id: u32) returns (t: State)
    requires Good(s) && s.c.sweep.Holding? && s.current.None? && id in s.left
    ensures Next(s, Visit(id)) == Some(t) && t.c.sweep.Holding? && t.svc == s.svc && SweepLeft(t) < SweepLeft(s)
  {
    hide PartsRun, TableOk, Routed, Sweeping, HistoryOk, WireOk, AllAccounted;
    assert id in s.slot.Keys;
    t := Next(s, Visit(id)).value;
    assert |t.left| == |s.left| - 1;
  }

  lemma {:induction false} SweepFinishes(s: State) returns (more: seq<Step>, t: State)
    requires Good(s) && s.c.sweep.Holding?
    ensures Run(s, more) == Some(t) && Good(t) && t.c.sweep.Done? && |t.svc| == |s.svc| && AllOver(t)
    decreases SweepLeft(s)
  {
    hide Good, Next, SweepLeft, AllOver;
    if s.current.None? && s.left == {} {
      t := LastOfSweep(s);
      GoodStep(s, Loop(C.SweepEnd), t);
      EmptyRun(t);
      OneStep(s, Loop(C.SweepEnd), t, [], t);
      more := [Loop(C.SweepEnd)] + [];
    } else {
      var step, m := SweepsOn(s);
      GoodStep(s, step, m);
      more, t := SweepFinishes(m);
      OneStep(s, step, m, more, t);
      more := [step] + more;
    }
  }

  lemma LastOfSweep(s: State) returns (t: State)
    requires Good(s) && s.c.sweep.Holding? && s.current.None? && s.left == {}
    ensures Next(s, Loop(C.SweepEnd)) == Some(t) && t.c.sweep.Done? && t.svc == s.svc && AllOver(t)
  {
    hide PartsRun, TableOk, Routed, HistoryOk, WireOk, AllAccounted;
    t := Next(s, Loop(C.SweepEnd)).value;
  }

  /** Whoever ends the socket can bring the sweep to its end, and then every service is over. */
  lemma SocketCanEnd(s: State) returns (more: seq<Step>, t: State)
    requires Good(s) && !s.c.sweep.Done?
    ensures Run(s, more) == Some(t) && Good(t) && t.c.sweep.Done? && |t.svc| == |s.svc| && AllOver(t)
  {
    hide Good, AllOver;
    var a, m := SweepStarts(s);
    GoodRun(s, a, m);
    var b;
    b, t := SweepFinishes(m);
    Joined(s, a, m, b, t);
    more := a + b;
  }

  lemma SweepStarts(s: State) returns (more: seq<Step>, t: State)
    requires Good(s) && !s.c.sweep.Done?
    ensures Run(s, more) == Some(t) && t.c.sweep.Holding? && |t.svc| == |s.svc|
  {
    hide Run, Listed, TableOk, Routed, Sweeping, HistoryOk, WireOk, AllAccounted, C.Reachable, S.Reachable;
    FlagBeforeSweep(s.c);
    more, t := [], s;
    EmptyRun(s);
    if t.c.sweep.NotDue? {
      more, t := ExtendFrom(s, more, t, Loop(C.EndSocket));
    }
    if t.c.sweep.Due? {
      more, t := ExtendFrom(s, more, t, Loop(C.SweepBegin));
    }
  }

  lemma ExtendFrom(s: State, steps: seq<Step>, m: State, step: Step) returns (more: seq<Step>, t: State)
    requires Run(s, steps) == Some(m) && Next(m, step).Some?
    ensures Run(s, more) == Some(t) && Next(m, step) == Some(t)
  {
    hide Run, Next;
    more, t := steps + [step], Next(m, step).value;
    Then(s, steps, m, step);
  }

  // ----------------------------------------------------------- after the sweep

  /** After the sweep a service can take every step of its own. */
  lemma {:induction false} Lifted(s: State, i: nat, own: seq<S.Step>, x: S.State) returns (more: seq<Step>, t: State)
    requires Good(s) && s.c.sweep.Done? && i < |s.svc| && S.AllAlone(own) && S.Run(s.svc[i], own) == Some(x)
    ensures Run(s, more) == Some(t) && i < |t.svc| && t.svc[i] == x
    decreases |own|
  {
    hide Good, Next, S.Next, Run, S.Alone;
    if own == [] {
      more, t := [], s;
      EmptyRun(s);
    } else {
      var m := LiftedStep(s, i, own[0]);
      GoodStep(s, Service(i, own[0]), m);
      more, t := Lifted(m, i, own[1..], x);
      OneStep(s, Service(i, own[0]), m, more, t);
      more := [Service(i, own[0])] + more;
    }
  }

  lemma LiftedStep(s: State, i: nat, own: S.Step) returns (t: State)
    requires Good(s) && s.c.sweep.Done? && i < |s.svc| && S.Alone(own) && S.Next(s.svc[i], own).Some?
    ensures Next(s, Service(i, own)) == Some(t) && i < |t.svc| && S.Next(s.svc[i], own) == Some(t.svc[i]) && t.c.sweep.Done?
    ensures |t.svc| == |s.svc| && t.c.loop == s.c.loop && t.verdict == s.verdict && t.target == s.target
  {
    hide Good, Next, S.Next;
    ServiceInv(s, i);
    CanMove(s, i, own);
    t := Next(s, Service(i, own)).value;
    ServiceShape(s, i, own, t);
  }

  ghost predicate Finishes(s: State, i: nat, more: seq<Step>) {
    && Run(s, more).Some?
    && var t := Run(s, more).value;
    i < |t.svc| && t.svc[i].opener.Finished? && t.svc[i].v.transportCloses == t.svc[i].obtained
  }

  lemma FinishesByItself(s: State, i: nat) returns (more: seq<Step>)
    requires Good(s) && s.c.sweep.Done? && i < |s.svc| && !S.Awaits(s.svc[i])
    ensures Finishes(s, i, more)
  {
    hide Good, Run, S.Run, S.Next, S.Awaits, S.WaitInv, S.LogInv, S.FlowInv, S.DataInv;
    ServiceInv(s, i);
    var own, x := S.CanFinish(s.svc[i]);
    var t;
    more, t := Lifted(s, i, own, x);
  }

  lemma OverAwaitsNothing(s: State, i: nat)
    requires Good(s) && i < |s.svc| && AllOver(s)
    ensures !S.Awaits(s.svc[i])
  {
    hide Good, S.LogInv, S.FlowInv, S.DataInv;
    ServiceInv(s, i);
  }

  lemma FinishesThroughSweep(s: State, i: nat) returns (more: seq<Step>)
    requires Good(s) && !s.c.sweep.Done? && i < |s.svc|
    ensures Finishes(s, i, more)
  {
    hide Good, Run, AllOver;
    var a, m := SocketCanEnd(s);
    OverAwaitsNothing(m, i);
    var b := FinishesByItself(m, i);
    Joined(s, a, m, b, Run(m, b).value);
    more := a + b;
  }

  // ------------------------------------------------------------------ being stuck

  /** A packet for the service that lets it go on: a CLSE, or an OKAY if its forwarder may read anything at all. */
  predicate Helps(x: S.State, p: Packet) {
    p.command == A_CLSE || (p.command == A_OKAY && x.maxPayload > 0)
  }

  /** The packet loop has such a packet in hand, or a CNXN that lifts a payload limit of 0. */
  predicate HelpComing(s: State, i: nat)
    requires i < |s.svc|
  {
    match s.c.loop
    case InService(p) => s.verdict.None? && s.target == i && Helps(s.svc[i], p)
    case Admitted(p) =>
      || (C.IsServicePacket(p) && p.arg1 in s.slot && s.slot[p.arg1] == i && Helps(s.svc[i], p))
      || (p.command == A_CNXN && p.arg1 > 0 && !S.AwaitsOkay(s.svc[i]))
    case _ => false
  }

  /** The socket has swept its table, the service awaits something from outside, and nothing of the kind is coming. */
  predicate Stuck(s: State, i: nat) {
    i < |s.svc| && s.c.sweep.Done? && S.Awaits(s.svc[i]) && !HelpComing(s, i)
  }

  /** With the packet in the service and the mutex free, a CLSE or an OKAY takes effect. */
  lemma DeliveryHelps(s: State, i: nat) returns (t: State)
    requires Good(s) && s.c.sweep.Done? && i < |s.svc| && S.Awaits(s.svc[i]) && !s.svc[i].forwarder.Sending?
    requires s.c.loop.InService? && s.verdict.None? && s.target == i && Helps(s.svc[i], s.c.loop.packet)
    ensures Next(s, Deliver(true)) == Some(t) && i < |t.svc| && t.c.sweep.Done? && !S.Awaits(t.svc[i])
  {
    hide Good, Next, S.LogInv, S.FlowInv, S.DataInv;
    ServiceInv(s, i);
    assert s.svc[i].handler.Idle? by { IdleWithout(s, i); }
    S.AwaitsMeans(s.svc[i]);
    CanDeliver(s, true);
    t := Next(s, Deliver(true)).value;
    DeliverShape(s, true, t);
  }

  lemma IdleWithout(s: State, i: nat)
    requires Good(s) && i < |s.svc| && s.verdict.None?
    ensures s.svc[i].handler.Idle?
  {
    hide PartsRun, TableOk, Sweeping, HistoryOk, WireOk, AllAccounted, Listed;
  }

  lemma CanDeliver(s: State, deviceOk: bool)
    requires s.c.loop.InService? && s.verdict.None? && s.target < |s.svc| && |s.remote| == |s.svc|
    requires S.Next(s.svc[s.target], Entering(s.c.loop.packet, deviceOk)).Some?
    ensures Next(s, Deliver(deviceOk)).Some?
  {
    hide S.Next, Moved;
  }

  lemma HelpedInService(s: State, i: nat) returns (more: seq<Step>)
    requires Good(s) && s.c.sweep.Done? && i < |s.svc| && S.Awaits(s.svc[i])
    requires s.c.loop.InService? && s.verdict.None? && s.target == i && Helps(s.svc[i], s.c.loop.packet)
    ensures Finishes(s, i, more)
  {
    hide Good, Next, Run, S.Awaits, S.Next;
    if s.svc[i].forwarder.Sending? {
      SendingCanSend(s, i);
      var m := LiftedStep(s, i, S.ForwardSend);
      GoodStep(s, Service(i, S.ForwardSend), m);
      SentAndAwaits(s.svc[i], m.svc[i]);
      var later := HelpedByDelivery(m, i);
      OneStep(s, Service(i, S.ForwardSend), m, later, Run(m, later).value);
      more := [Service(i, S.ForwardSend)] + later;
    } else {
      more := HelpedByDelivery(s, i);
    }
  }

  lemma HelpedByDelivery(s: State, i: nat) returns (more: seq<Step>)
    requires Good(s) && s.c.sweep.Done? && i < |s.svc| && S.Awaits(s.svc[i]) && !s.svc[i].forwarder.Sending?
    requires s.c.loop.InService? && s.verdict.None? && s.target == i && Helps(s.svc[i], s.c.loop.packet)
    ensures Finishes(s, i, more)
  {
    hide Good, Next, Run, S.Awaits;
    var t := DeliveryHelps(s, i);
    GoodStep(s, Deliver(true), t);
    var later := FinishesByItself(t, i);
    OneStep(s, Deliver(true), t, later, Run(t, later).value);
    more := [Deliver(true)] + later;
  }

  lemma SendingCanSend(s: State, i: nat)
    requires Good(s) && i < |s.svc| && s.verdict.None? && S.Awaits(s.svc[i]) && s.svc[i].forwarder.Sending?
    ensures S.Next(s.svc[i], S.ForwardSend).Some? && S.Alone(S.ForwardSend)
  {
    hide Good, S.LogInv, S.FlowInv, S.DataInv;
    ServiceInv(s, i);
    IdleWithout(s, i);
  }

  lemma SentAndAwaits(x: S.State, y: S.State)
    requires S.Awaits(x) && S.Next(x, S.ForwardSend) == Some(y)
    ensures S.Awaits(y) && !y.forwarder.Sending? && y.maxPayload == x.maxPayload
  {
  }

  lemma HelpedInHand(s: State, i: nat, env: C.Env) returns (more: seq<Step>)
    requires Good(s) && s.c.sweep.Done? && i < |s.svc| && S.Awaits(s.svc[i]) && s.c.loop.Admitted? && HelpComing(s, i)
    ensures Finishes(s, i, more)
  {
    hide Good, Next, Run, S.Awaits, S.AwaitsOkay;
    var step := Loop(C.Process(env));
    var m := ProcessHelps(s, i, env);
    GoodStep(s, step, m);
    var later;
    if S.Awaits(m.svc[i]) {
      later := HelpedInService(m, i);
    } else {
      later := FinishesByItself(m, i);
    }
    OneStep(s, step, m, later, Run(m, later).value);
    more := [step] + later;
  }

  lemma ProcessHelps(s: State, i: nat, env: C.Env) returns (t: State)
    requires Good(s) && s.c.sweep.Done? && i < |s.svc| && S.Awaits(s.svc[i]) && s.c.loop.Admitted? && HelpComing(s, i)
    ensures Next(s, Loop(C.Process(env))) == Some(t) && i < |t.svc| && t.c.sweep.Done?
    ensures !S.Awaits(t.svc[i])
         || (t.c.loop.InService? && t.verdict.None? && t.target == i && Helps(t.svc[i], t.c.loop.packet))
  {
    hide Routed, Sweeping, HistoryOk, WireOk, AllAccounted, Listed, C.Reachable, S.Reachable, C.HandledBy, ServiceOuts;
    var p := s.c.loop.packet;
    if p.command == A_CNXN {
      t := Next(s, Loop(C.Process(env))).value;
      LoopWrites(s.c, env, t.c);
      C.HandledEffect(s.c.f, p, env);
    } else {
      assert p.arg1 in s.c.f.table.Keys;
      AuthorizedToServe(s.c, p.arg1);
      t := Next(s, Loop(C.Process(env))).value;
    }
  }

  lemma AuthorizedToServe(c: C.State, id: u32)
    requires C.Reachable(c) && id in c.f.table
    ensures c.f.authorized
  {
    hide C.Reachable, C.SawSignature, C.SawAuthentication, C.OnlyHandshake, C.IdInv;
    ConnectionInv(c);
  }

  // --------------------------------------------------------------- stuck for good

  lemma ServiceStepStuck(s: State, i: nat, j: nat, own: S.Step, t: State)
    requires Good(s) && Stuck(s, i) && Next(s, Service(j, own)) == Some(t)
    ensures Stuck(t, i)
  {
    hide Good, Next, S.Next, S.Awaits, S.AwaitsOkay, S.LogInv, S.FlowInv, S.DataInv, S.LifeInv, S.WaitInv;
    ServiceShape(s, j, own, t);
    SlotShrinks(s, j, own, t);
    if j == i {
      ServiceInv(s, i);
      assert S.Alone(own) by { OwnIsAlone(s, i, own); }
      S.AwaitsKept(s.svc[i], own, t.svc[i]);
      MaxPayloadKept(s.svc[i], own, t.svc[i]);
    }
  }

  lemma SlotShrinks(s: State, j: nat, own: S.Step, t: State)
    requires Next(s, Service(j, own)) == Some(t)
    ensures forall id :: id in t.slot ==> id in s.slot && t.slot[id] == s.slot[id]
  {
    hide S.Next, OutOf, BackInSweep, OwnStep;
  }

  lemma OwnIsAlone(s: State, i: nat, own: S.Step)
    requires Good(s) && s.c.sweep.Done? && OwnStep(s, i, own)
    ensures S.Alone(own)
  {
    hide PartsRun, TableOk, Routed, HistoryOk, WireOk, AllAccounted, Listed;
  }

  lemma MaxPayloadKept(x: S.State, own: S.Step, y: S.State)
    requires S.Next(x, own) == Some(y) && !own.Negotiate?
    ensures y.maxPayload == x.maxPayload
  {
    hide S.Next, S.Logged;
    S.StepFrame(x, own, y);
  }

  lemma DeliverStuck(s: State, i: nat, deviceOk: bool, t: State)
    requires Good(s) && Stuck(s, i) && Next(s, Deliver(deviceOk)) == Some(t)
    ensures Stuck(t, i)
  {
    hide Good, Next, S.Next, S.Awaits, S.AwaitsOkay, S.LogInv, S.FlowInv, S.DataInv, S.LifeInv, S.WaitInv;
    DeliverShape(s, deviceOk, t);
    if s.target == i {
      ServiceInv(s, i);
      assert C.IsServicePacket(s.c.loop.packet) by { ServicePacketInService(s); }
      S.AwaitsKept(s.svc[i], Entering(s.c.loop.packet, deviceOk), t.svc[i]);
    }
  }

  lemma ServicePacketInService(s: State)
    requires Good(s) && s.c.loop.InService?
    ensures C.IsServicePacket(s.c.loop.packet)
  {
    hide PartsRun, TableOk, Sweeping, HistoryOk, WireOk, AllAccounted, Listed;
  }

  lemma ProcessStuck(s: State, i: nat, env: C.Env, t: State)
    requires Good(s) && Stuck(s, i) && LoopStep(s, C.Process(env)) == Some(t)
    ensures Stuck(t, i)
  {
    hide Routed, Sweeping, HistoryOk, WireOk, AllAccounted, Listed, C.Reachable, S.Reachable, C.HandledBy, ServiceOuts;
    LoopWrites(s.c, env, t.c);
    if s.c.loop.packet.command != A_OPEN {
      C.HandledEffect(s.c.f, s.c.loop.packet, env);
    }
  }

  lemma LoopStuck(s: State, i: nat, step: C.Step, t: State)
    requires Good(s) && Stuck(s, i) && LoopStep(s, step) == Some(t) && !step.Process?
    ensures Stuck(t, i)
  {
    hide TableOk, Routed, Sweeping, HistoryOk, WireOk, AllAccounted, Listed, C.Reachable, S.Reachable, S.Awaits, S.AwaitsOkay, DrawOf;
    FlagBeforeSweep(s.c);
  }

  lemma StepStuck(s: State, i: nat, step: Step, t: State)
    requires Good(s) && Stuck(s, i) && Next(s, step) == Some(t)
    ensures Stuck(t, i)
  {
    hide Good, Stuck, LoopStep, DeliverStep, ServiceStep;
    match step
    case Loop(st) =>
      if st.Process? {
        ProcessStuck(s, i, st.env, t);
      } else {
        LoopStuck(s, i, st, t);
      }
    case Deliver(ok) => DeliverStuck(s, i, ok, t);
    case Visit(id) => NoVisit(s, i, id);
    case Service(j, own) => ServiceStepStuck(s, i, j, own, t);
  }

  lemma NoVisit(s: State, i: nat, id: u32)
    requires Stuck(s, i)
    ensures VisitStep(s, id).None?
  {
  }

  lemma {:induction false} StuckForever(s: State, i: nat, more: seq<Step>, t: State)
    requires Good(s) && Stuck(s, i) && Run(s, more) == Some(t)
    ensures Good(t) && Stuck(t, i)
    decreases |more|
  {
    hide Good, Stuck, Next;
    if more == [] {
    } else {
      var m := Next(s, more[0]).value;
      GoodStep(s, more[0], m);
      StepStuck(s, i, more[0], m);
      StuckForever(m, i, more[1..], t);
    }
  }

  // ----------------------------------------------------------------- what it means

  /** A stuck service is leaked: in every continuation it has not ended and its transport is open. */
  lemma StuckMeansLeaked(steps: seq<Step>, s: State, i: nat, more: seq<Step>, t: State)
    requires Run(Init(), steps) == Some(s) && Stuck(s, i) && Run(s, more) == Some(t)
    ensures i < |t.svc| && !t.svc[i].v.ended && !t.svc[i].opener.Finished?
    ensures t.svc[i].obtained == 1 && t.svc[i].v.transportCloses == 0
  {
    hide Run, Good, S.LogInv, S.FlowInv, S.DataInv, HelpComing;
    Reached(steps, s);
    StuckForever(s, i, more, t);
    ServiceInv(t, i);
    S.AwaitsMeans(t.svc[i]);
  }

  /**
   * Some continuation finishes the opener of a service with its transport closed exactly when the service is not stuck:
   * not after the sweep of the socket with its forwarder waiting for an OKAY, or about to, or barred from reading by a
   * payload limit of 0, and no packet in hand that changes it.
   */
  lemma FinishesUnlessStuck(steps: seq<Step>, s: State, i: nat)
    requires Run(Init(), steps) == Some(s) && i < |s.svc|
    ensures (exists more :: Finishes(s, i, more)) <==> !Stuck(s, i)
  {
    hide Run, Good, S.Awaits, HelpComing;
    Reached(steps, s);
    if Stuck(s, i) {
      forall more | Run(s, more).Some?
        ensures !Finishes(s, i, more)
      {
        StuckMeansLeaked(steps, s, i, more, Run(s, more).value);
      }
    } else if !s.c.sweep.Done? {
      var more := FinishesThroughSweep(s, i);
    } else if !S.Awaits(s.svc[i]) {
      var more := FinishesByItself(s, i);
    } else {
      var more := FinishesWithHelp(s, i);
    }
  }

  lemma FinishesWithHelp(s: State, i: nat) returns (more: seq<Step>)
    requires Good(s) && s.c.sweep.Done? && i < |s.svc| && S.Awaits(s.svc[i]) && HelpComing(s, i)
    ensures Finishes(s, i, more)
  {
    hide Good, S.Awaits, Finishes;
    if s.c.loop.Admitted? {
      more := HelpedInHand(s, i, C.PLAIN_ENV);
    } else {
      more := HelpedInService(s, i);
    }
  }

  /** Until the sweep is over, a service that has not ended is in the table or its opener is leaving: none is stuck. */
  lemma ListedUntilSwept(steps: seq<Step>, s: State, i: nat)
    requires Run(Init(), steps) == Some(s) && i < |s.svc| && !s.c.sweep.Done?
    ensures s.svc[i].v.ended || s.svc[i].opener.Ending? || InTable(s, i)
    ensures !Stuck(s, i)
  {
    hide Run, Inv, S.LogInv, S.FlowInv, S.DataInv, S.WaitInv;
    Reached(steps, s);
    ServiceInv(s, i);
  }

  /** The socket comes to a service, or calls its End. */
  predicate IsSocketEnd(step: Step) {
    step.Visit? || (step.Service? && step.own == S.EndBegin(S.SocketG)) || step == Loop(C.SweepBegin) || step == Loop(C.SweepEnd)
  }

  lemma SweptStep(s: State, step: Step, t: State)
    requires Good(s) && s.c.sweep.Done? && Next(s, step) == Some(t)
    ensures !IsSocketEnd(step) && t.c.sweep.Done?
  {
    hide Good, LoopStep, DeliverStep, ServiceStep;
    match step
    case Loop(st) => SweptLoop(s, st, t);
    case Deliver(ok) => DeliverShape(s, ok, t);
    case Visit(id) =>
    case Service(i, own) =>
      ServiceShape(s, i, own, t);
      OwnIsAlone(s, i, own);
  }

  lemma SweptLoop(s: State, step: C.Step, t: State)
    requires Good(s) && s.c.sweep.Done? && LoopStep(s, step) == Some(t)
    ensures step != C.SweepBegin && step != C.SweepEnd && t.c.sweep.Done?
  {
    hide Listed, TableOk, Routed, Sweeping, HistoryOk, WireOk, AllAccounted, C.Reachable, S.Reachable, DrawOf, C.HandledBy;
    FlagBeforeSweep(s.c);
  }

  lemma {:induction false} SweptRun(s: State, more: seq<Step>, t: State)
    requires Good(s) && s.c.sweep.Done? && Run(s, more) == Some(t)
    ensures t.c.sweep.Done? && forall k :: 0 <= k < |more| ==> !IsSocketEnd(more[k])
    decreases |more|
  {
    hide Good, Next, IsSocketEnd;
    if more == [] {
    } else {
      var m := Next(s, more[0]).value;
      GoodStep(s, more[0], m);
      SweptStep(s, more[0], m);
      SweptRun(m, more[1..], t);
    }
  }

  /** Once the sweep is over, no continuation has the socket end a service: a late one is left to its own goroutines. */
  lemma NoEndAfterSweep(steps: seq<Step>, s: State, more: seq<Step>, t: State)
    requires Run(Init(), steps) == Some(s) && s.c.sweep.Done? && Run(s, more) == Some(t)
    ensures forall k :: 0 <= k < |more| ==> !IsSocketEnd(more[k])
  {
    hide Good, Run, IsSocketEnd;
    Reached(steps, s);
    SweptRun(s, more, t);
  }
}
