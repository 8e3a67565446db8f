/**
 * A whole connection: the packet loop of the socket, the sweep of its end, and the goroutines of every service it
 * ever created, all interleaved (tcpusb/socket.go, tcpusb/service_map.go, tcpusb/service.go).
 */
module SocketRuns {
  import opened Bytes
  import opened Packets
  import opened Wrappers
  import opened IdTable
  import opened ServiceCore
  import C = Connection
  import S = ServiceRuns

  /** An event of one service in the history of the connection, with the packet it hands to Socket.Write. */
  datatype Entry = Entry(service: nat, event: Event, out: Option<C.Out>)

  datatype State = State(
    c: C.State,
    svc: seq<S.State>,         // every service ever created
    remote: seq<u32>,          // the client's ids for them
    drawn: seq<nat>,           // the number of the draw that gave each its id
    since: seq<nat>,           // how many packets were handled when it was inserted, its OPEN the last of them
    slot: map<u32, nat>,       // the table: the service behind each live id
    target: nat,               // the service the packet loop is in
    verdict: Option<bool>,     // whether that service took the packet without an error
    left: set<u32>,            // the ids ServiceMap.End has not come to
    current: Option<nat>,      // the service it is ending
    history: seq<Entry>)

  datatype Step =
    | Loop(step: C.Step)                // the packet loop, and Socket.End
    | Deliver(deviceOk: bool)           // Service.Handle, up to its first release of the service's mutex
    | Visit(id: u32)                    // ServiceMap.End comes to an entry
    | Service(i: nat, own: S.Step)      // a goroutine of a service, or End called on it

  function Init(): State {
    State(C.Init(), [], [], [], [], map[], 0, None, {}, None, [])
  }

  // ----------------------------------------------------------------- the steps

  function OutOf(localId: u32, remoteId: u32, e: Event): Option<C.Out> {
    match e
    case SentOpenOkay => Some(C.Out(A_OKAY, localId, remoteId, []))
    case SentWriteOkay => Some(C.Out(A_OKAY, localId, remoteId, []))
    case SentWrte(payload, _) => Some(C.Out(A_WRTE, localId, remoteId, payload))
    case SentClse(id) => Some(C.Out(A_CLSE, id, remoteId, []))
    case _ => None
  }

  /** Service i has moved on to x; what it handed over goes through Socket.Write. */
  function Moved(s: State, i: nat, x: S.State): State
    requires i < |s.svc| && i < |s.remote|
  {
    if x.v.log == s.svc[i].v.log || x.v.log == [] then s.(svc := s.svc[i := x])
    else
      var e := x.v.log[|x.v.log| - 1];
      var out := OutOf(x.v.localId, s.remote[i], e);
      s.(svc := s.svc[i := x], history := s.history + [Entry(i, e, out)],
         c := if out.Some? then C.Sent(s.c, out.value) else s.c)
  }

  /** Socket.MaxPayload as the services see it. */
  function Negotiated(svc: seq<S.State>, size: nat): seq<S.State> {
    seq(|svc|, i requires 0 <= i < |svc| => svc[i].(maxPayload := size))
  }

  function LoopStep(s: State, step: C.Step): Option<State> {
    match C.Next(s.c, step)
    case None => None
    case Some(c) =>
      match step
      case Admit(_) => Some(s.(c := c))
      case EndSocket => Some(s.(c := c))
      case Process(_) =>
        var p := s.c.loop.packet;
        Some(s.(c := c, svc := Negotiated(s.svc, c.f.maxPayload), verdict := None,
                target := if c.loop.InService? && p.arg1 in s.slot then s.slot[p.arg1] else s.target))
      case Insert =>
        var id := DrawOf(UINT32_MAX, s.c.f.idDraws);
        if c.loop.Stopped? then Some(s.(c := c))
        else
          Some(s.(c := c, svc := s.svc + [S.Init(id).(maxPayload := c.f.maxPayload)],
                  remote := s.remote + [s.c.loop.remoteId], drawn := s.drawn + [s.c.f.idDraws],
                  since := s.since + [|s.c.handled|], slot := s.slot[id := |s.svc|]))
      case Return(ok) =>
        if s.verdict == Some(ok) && s.target < |s.svc| && s.svc[s.target].handler.Idle?
        then Some(s.(c := c, verdict := None)) else None
      case SweepBegin => Some(s.(c := c, left := s.slot.Keys))
      case SweepEnd => if s.left == {} && s.current.None? then Some(s.(c := c, slot := map[])) else None
      case _ => None   // Remove and ServiceSends are steps of the services
  }

  /** How the packet enters its service. */
  function Entering(p: Packet, deviceOk: bool): S.Step {
    if p.command == A_OKAY then S.HandleOkay
    else if p.command == A_WRTE then S.HandleWrite(p.data, deviceOk)
    else S.HandleClose
  }

  /** Service.Handle returns no error. */
  predicate Accepts(v: Vars, step: S.Step) {
    match step
    case HandleOkay => HandledOkay(v).1.NoError?
    case HandleWrite(data, ok) => PassedOn(v, data, ok).1.NoError?
    case _ => v.transport
  }

  function DeliverStep(s: State, deviceOk: bool): Option<State> {
    if !s.c.loop.InService? || s.verdict.Some? || s.target >= |s.svc| || s.target >= |s.remote| then None
    else
      var x, step := s.svc[s.target], Entering(s.c.loop.packet, deviceOk);
      match S.Next(x, step)
      case None => None
      case Some(y) => Some(Moved(s, s.target, y).(verdict := Some(Accepts(x.v, step))))
  }

  function VisitStep(s: State, id: u32): Option<State> {
    if s.c.sweep.Holding? && s.current.None? && id in s.left && id in s.slot
    then Some(s.(left := s.left - {id}, current := Some(s.slot[id]))) else None
  }

  /** The steps service i may take by itself. */
  predicate OwnStep(s: State, i: nat, step: S.Step) {
    match step
    case HandleOkay | HandleWrite(_, _) | HandleClose | Negotiate(_) => false
    case EndBegin(owner) => owner.SocketG? ==> s.current == Some(i)
    case Remove => !s.c.sweep.Holding?
    case _ => true
  }

  /** Service.End returns to ServiceMap.End. */
  predicate BackInSweep(x: S.State, step: S.Step) {
    (step == S.EndBegin(S.SocketG) && x.v.ended) || (step.EndFinish? && x.mu.Cleared? && x.mu.owner.SocketG?)
  }

  function ServiceStep(s: State, i: nat, step: S.Step): Option<State> {
    if i >= |s.svc| || i >= |s.remote| || !OwnStep(s, i, step) then None
    else
      match S.Next(s.svc[i], step)
      case None => None
      case Some(y) =>
        var t := Moved(s, i, y);
        if step.Remove? then Some(t.(c := C.Removed(t.c, y.v.localId), slot := t.slot - {y.v.localId}))
        else if BackInSweep(s.svc[i], step) then Some(t.(current := None))
        else Some(t)
  }

  function Next(s: State, step: Step): Option<State> {
    match step
    case Loop(st) => LoopStep(s, st)
    case Deliver(ok) => DeliverStep(s, ok)
    case Visit(id) => VisitStep(s, id)
    case Service(i, st) => ServiceStep(s, i, st)
  }

  function Run(s: State, steps: seq<Step>): Option<State>
    decreases |steps|
  {
    if steps == [] then Some(s)
    else
      match Next(s, steps[0])
      case None => None
      case Some(t) => Run(t, steps[1..])
  }

  // ----------------------------------------------------------------- invariants

  /** What one service did, in order. */
  function Only(h: seq<Entry>, i: nat): seq<Event> {
    if h == [] then []
    else
      var last := h[|h| - 1];
      Only(h[..|h| - 1], i) + if last.service == i then [last.event] else []
  }

  /** The packets of a history. */
  function Outs(h: seq<Entry>): seq<C.Out> {
    if h == [] then []
    else
      var last := h[|h| - 1];
      Outs(h[..|h| - 1]) + if last.out.Some? then [last.out.value] else []
  }

  /** The packets on the wire that services send. */
  function ServiceOuts(written: seq<C.Out>): seq<C.Out> {
    if written == [] then []
    else
      var last := written[|written| - 1];
      ServiceOuts(written[..|written| - 1]) + if C.IsServiceCommand(last.command) then [last] else []
  }

  /** Seen alone, each service runs as a service and the connection as a connection. */
  ghost predicate PartsRun(s: State) {
    && C.Reachable(s.c)
    && (forall i :: 0 <= i < |s.svc| ==> S.Reachable(s.svc[i].v.localId, s.svc[i]))
    && (forall i :: 0 <= i < |s.svc| ==> s.svc[i].maxPayload == s.c.f.maxPayload)
    && (s.svc != [] ==> s.c.created)
  }

  predicate TableOk(s: State) {
    && |s.remote| == |s.svc|
    && s.slot.Keys == s.c.f.table.Keys
    && (forall id :: id in s.slot ==> s.slot[id] < |s.svc| && s.svc[s.slot[id]].v.localId == id)
  }

  predicate Routed(s: State) {
    && (s.c.loop.InService? ==>
        s.target < |s.svc| && s.svc[s.target].v.localId == s.c.loop.packet.arg1 && C.IsServicePacket(s.c.loop.packet))
    && (s.verdict.Some? ==> s.c.loop.InService?)
    && (forall i :: 0 <= i < |s.svc| && !s.svc[i].handler.Idle? ==> s.verdict.Some? && i == s.target)
  }

  predicate Sweeping(s: State) {
    && (s.current.Some? ==> s.c.sweep.Holding? && s.current.value < |s.svc|)
    && (forall i :: 0 <= i < |s.svc| && S.InEnd(s.svc[i].mu) && s.svc[i].mu.owner.SocketG? ==> s.current == Some(i))
    && (s.c.sweep.Holding? ==> forall id :: id in s.slot && id !in s.left ==>
          s.current == Some(s.slot[id]) || (s.slot[id] < |s.svc| && s.svc[s.slot[id]].v.ended))
  }

  predicate HistoryOk(s: State) {
    && |s.remote| == |s.svc|
    && (forall i :: 0 <= i < |s.svc| ==> Only(s.history, i) == s.svc[i].v.log)
    && (forall k :: 0 <= k < |s.history| ==>
          var h := s.history[k];
          h.service < |s.svc| && h.out == OutOf(s.svc[h.service].v.localId, s.remote[h.service], h.event))
  }

  predicate WireOk(s: State) {
    && ServiceOuts(s.c.f.written) <= Outs(s.history)
    && (!s.c.f.ended ==> ServiceOuts(s.c.f.written) == Outs(s.history))
  }

  /** Service i is in the table under its own id. */
  predicate InTable(s: State, i: nat)
    requires i < |s.svc|
  {
    s.svc[i].v.localId in s.slot && s.slot[s.svc[i].v.localId] == i
  }

  /** Where service i stands: ended, left by its opener, in the table, or under an id that another service has too. */
  predicate Accounted(s: State, i: nat)
    requires i < |s.svc|
  {
    var id := s.svc[i].v.localId;
    || s.svc[i].v.ended
    || s.svc[i].opener.Ending?
    || (id in s.slot && s.slot[id] == i)
    || exists j :: 0 <= j < |s.svc| && j != i && s.svc[j].v.localId == id
  }

  predicate AllAccounted(s: State) {
    forall i :: 0 <= i < |s.svc| ==> Accounted(s, i)
  }

  ghost predicate Inv(s: State) {
    PartsRun(s) && TableOk(s) && Routed(s) && Sweeping(s) && HistoryOk(s) && WireOk(s) && AllAccounted(s)
  }

  // ------------------------------------------------- proofs: one service moves

  lemma ConnectionInv(c: C.State)
    requires C.Reachable(c)
    ensures C.AuthInv(c) && C.IdInv(c)
  {
    hide C.Run;
    var steps :| C.Run(C.Init(), steps) == Some(c);
    C.RunKeeps(C.Init(), steps, c);
  }

  lemma FlagBeforeSweep(c: C.State)
    requires C.Reachable(c)
    ensures c.f.ended <==> !c.sweep.NotDue?
    ensures c.f.maxPayload <= MAX_NEGOTIATED
  {
    hide C.Reachable;
    ConnectionInv(c);
  }

  lemma HistoryGrows(h: seq<Entry>, e: Entry)
    ensures forall i: nat :: Only(h + [e], i) == Only(h, i) + if e.service == i then [e.event] else []
    ensures Outs(h + [e]) == Outs(h) + if e.out.Some? then [e.out.value] else []
  {
    assert (h + [e])[..|h|] == h;
  }

  lemma WireGrows(written: seq<C.Out>, out: C.Out)
    ensures ServiceOuts(written + [out]) == ServiceOuts(written) + if C.IsServiceCommand(out.command) then [out] else []
  {
    assert (written + [out])[..|written|] == written;
  }

  lemma SentReachable(c: C.State, out: C.Out)
    requires C.Reachable(c) && c.created && C.IsServiceCommand(out.command)
    ensures C.Reachable(C.Sent(c, out))
  {
    C.ReachableStep(c, C.ServiceSends(out), C.Sent(c, out));
  }

  lemma MovedKeepsParts(s: State, i: nat, step: S.Step, x: S.State)
    requires PartsRun(s) && |s.remote| == |s.svc| && i < |s.svc|
    requires S.Next(s.svc[i], step) == Some(x) && !step.Negotiate?
    ensures PartsRun(Moved(s, i, x))
  {
    hide S.Next, S.Reachable, C.Reachable, S.Logged;
    S.StepFrame(s.svc[i], step, x);
    S.ReachableStep(x.v.localId, s.svc[i], step, x);
    if x.v.log != [] {
      var out := OutOf(x.v.localId, s.remote[i], x.v.log[|x.v.log| - 1]);
      if out.Some? {
        SentReachable(s.c, out.value);
      }
    }
  }

  lemma MovedKeepsTable(s: State, i: nat, step: S.Step, x: S.State)
    requires TableOk(s) && i < |s.svc| && S.Framed(s.svc[i], step, x)
    ensures TableOk(Moved(s, i, x))
  {
    hide S.Logged;
  }

  lemma MovedKeepsHistory(s: State, i: nat, step: S.Step, x: S.State)
    requires HistoryOk(s) && i < |s.svc| && S.Framed(s.svc[i], step, x)
    ensures HistoryOk(Moved(s, i, x))
  {
    hide Only, OutOf;
    if x.v.log != s.svc[i].v.log {
      var e := x.v.log[|x.v.log| - 1];
      assert x.v.log == s.svc[i].v.log + [e];
      HistoryGrows(s.history, Entry(i, e, OutOf(x.v.localId, s.remote[i], e)));
    }
  }

  lemma MovedKeepsWire(s: State, i: nat, x: S.State)
    requires WireOk(s) && |s.remote| == |s.svc| && i < |s.svc|
    ensures WireOk(Moved(s, i, x))
  {
    hide ServiceOuts, Outs;
    if x.v.log != s.svc[i].v.log && x.v.log != [] {
      var e := x.v.log[|x.v.log| - 1];
      var out := OutOf(x.v.localId, s.remote[i], e);
      HistoryGrows(s.history, Entry(i, e, out));
      if out.Some? {
        WireGrows(s.c.f.written, out.value);
      }
    }
  }

  lemma MovedKeepsAccounts(s: State, i: nat, step: S.Step, x: S.State)
    requires AllAccounted(s) && |s.remote| == |s.svc| && i < |s.svc| && S.Framed(s.svc[i], step, x)
    ensures AllAccounted(Moved(s, i, x))
  {
    hide S.Logged, OutOf;
    var t := Moved(s, i, x);
    assert forall k :: 0 <= k < |s.svc| ==> t.svc[k].v.localId == s.svc[k].v.localId;
    forall k | 0 <= k < |t.svc|
      ensures Accounted(t, k)
    {
      assert Accounted(s, k);
    }
  }

  lemma MovedKeepsSweep(s: State, i: nat, step: S.Step, x: S.State)
    requires Sweeping(s) && |s.remote| == |s.svc| && i < |s.svc| && S.Framed(s.svc[i], step, x)
    requires step == S.EndBegin(S.SocketG) ==> s.current == Some(i)
    ensures Sweeping(Moved(s, i, x))
  {
    hide S.Logged, OutOf;
  }

  // ------------------------------------------------------- proofs: each step

  lemma DeliverKeeps(s: State, deviceOk: bool, t: State)
    requires Inv(s) && DeliverStep(s, deviceOk) == Some(t)
    ensures Inv(t)
  {
    hide S.Next, S.Framed, PartsRun, TableOk, Sweeping, HistoryOk, WireOk, AllAccounted, Accounted, Only, OutOf, Accepts;
    var i, step := s.target, Entering(s.c.loop.packet, deviceOk);
    var x := S.Next(s.svc[i], step).value;
    var m := Moved(s, i, x);
    S.StepFrame(s.svc[i], step, x);
    assert |s.remote| == |s.svc| by { TableFacts(s); }
    MovedKeepsParts(s, i, step, x);
    MovedKeepsTable(s, i, step, x);
    MovedKeepsHistory(s, i, step, x);
    MovedKeepsWire(s, i, x);
    MovedKeepsAccounts(s, i, step, x);
    MovedKeepsSweep(s, i, step, x);
    VerdictMatters(m, t);
    assert x.v.localId == s.svc[i].v.localId by { FrameFacts(s.svc[i], step, x); }
    assert Routed(t);
  }

  lemma TableFacts(s: State)
    requires TableOk(s)
    ensures |s.remote| == |s.svc|
  {
  }

  lemma FrameFacts(x: S.State, step: S.Step, y: S.State)
    requires S.Framed(x, step, y)
    ensures y.v.localId == x.v.localId
    ensures x.handler.Idle? && !S.IsPacket(step) ==> y.handler.Idle?
    ensures x.v.ended ==> y.v.ended
    ensures step == S.EndFinish ==> y.v.ended
  {
    hide S.Logged;
  }

  /** The verdict and the target are outside all other invariants. */
  lemma VerdictMatters(m: State, t: State)
    requires t == m.(verdict := t.verdict, target := t.target)
    requires PartsRun(m) && TableOk(m) && Sweeping(m) && HistoryOk(m) && WireOk(m) && AllAccounted(m)
    ensures PartsRun(t) && TableOk(t) && Sweeping(t) && HistoryOk(t) && WireOk(t) && AllAccounted(t)
  {
    hide Only, OutOf, Outs, ServiceOuts, S.Reachable, C.Reachable;
    forall i | 0 <= i < |t.svc|
      ensures Accounted(t, i)
    {
      assert Accounted(m, i);
    }
  }

  lemma VisitKeeps(s: State, id: u32, t: State)
    requires Inv(s) && VisitStep(s, id) == Some(t)
    ensures Inv(t)
  {
    hide Only, OutOf, Outs, ServiceOuts, S.Reachable, C.Reachable;
    forall i | 0 <= i < |t.svc|
      ensures Accounted(t, i)
    {
      assert Accounted(s, i);
    }
  }

  lemma MovedByItself(s: State, i: nat, step: S.Step, x: S.State)
    requires Inv(s) && i < |s.svc| && i < |s.remote| && OwnStep(s, i, step) && S.Next(s.svc[i], step) == Some(x)
    ensures Inv(Moved(s, i, x))
  {
    hide S.Next, S.Framed, PartsRun, TableOk, Routed, Sweeping, HistoryOk, WireOk, AllAccounted, Accounted, Only, OutOf;
    S.StepFrame(s.svc[i], step, x);
    assert |s.remote| == |s.svc| by { TableFacts(s); }
    MovedKeepsParts(s, i, step, x);
    MovedKeepsTable(s, i, step, x);
    MovedKeepsHistory(s, i, step, x);
    MovedKeepsWire(s, i, x);
    MovedKeepsAccounts(s, i, step, x);
    MovedKeepsSweep(s, i, step, x);
    MovedKeepsRouting(s, i, step, x);
  }

  lemma MovedKeepsRouting(s: State, i: nat, step: S.Step, x: S.State)
    requires Routed(s) && |s.remote| == |s.svc| && i < |s.svc| && S.Framed(s.svc[i], step, x) && OwnStep(s, i, step)
    ensures Routed(Moved(s, i, x))
  {
    hide S.Framed, OutOf;
    FrameFacts(s.svc[i], step, x);
  }

  /** An opener takes its id out of the table: its own entry, or that of another service with the same id. */
  lemma RemovalKeeps(m: State, i: nat, t: State)
    requires Inv(m) && i < |m.svc| && m.svc[i].opener.Ending? && !m.c.sweep.Holding?
    requires var id := m.svc[i].v.localId; t == m.(c := C.Removed(m.c, id), slot := m.slot - {id})
    ensures Inv(t)
  {
    hide Only, OutOf, Outs, ServiceOuts, S.Reachable, C.Reachable;
    hide AllAccounted, Accounted, HistoryOk;
    C.ReachableStep(m.c, C.Remove(m.svc[i].v.localId), t.c);
    assert t.slot.Keys == t.c.f.table.Keys;
    RemovalAccounted(m, i, t);
    OnlyHistoryMatters(m, t);
  }

  lemma RemovalAccounted(m: State, i: nat, t: State)
    requires AllAccounted(m) && i < |m.svc| && m.svc[i].opener.Ending?
    requires t.svc == m.svc && t.slot == m.slot - {m.svc[i].v.localId}
    ensures AllAccounted(t)
  {
    forall k | 0 <= k < |t.svc|
      ensures Accounted(t, k)
    {
      assert Accounted(m, k);
    }
  }

  lemma OnlyHistoryMatters(m: State, t: State)
    requires HistoryOk(m) && t.svc == m.svc && t.remote == m.remote && t.history == m.history
    ensures HistoryOk(t)
  {
    hide Only, OutOf;
  }

  lemma BackInSweepKeeps(m: State, i: nat, t: State)
    requires Inv(m) && i < |m.svc| && m.current == Some(i) && m.svc[i].v.ended && m.svc[i].mu.Free?
    requires t == m.(current := None)
    ensures Inv(t)
  {
    hide Only, OutOf, Outs, ServiceOuts, S.Reachable, C.Reachable;
    forall k | 0 <= k < |t.svc|
      ensures Accounted(t, k)
    {
      assert Accounted(m, k);
    }
  }

  lemma ServiceFacts(x: S.State, step: S.Step, y: S.State)
    requires S.Next(x, step) == Some(y)
    ensures step.Remove? ==> y.opener.Ending?
    ensures BackInSweep(x, step) ==> y.v.ended && y.mu.Free?
    ensures step.EndFinish? ==> S.InEnd(x.mu)
  {
  }

  lemma ServiceKeeps(s: State, i: nat, step: S.Step, t: State)
    requires Inv(s) && ServiceStep(s, i, step) == Some(t)
    ensures Inv(t)
  {
    hide S.Next, S.Framed, PartsRun, TableOk, Routed, HistoryOk, WireOk, AllAccounted, Accounted, Only, OutOf, C.Removed;
    var x := S.Next(s.svc[i], step).value;
    var m := Moved(s, i, x);
    MovedByItself(s, i, step, x);
    ServiceFacts(s.svc[i], step, x);
    if step.Remove? {
      RemovalKeeps(m, i, t);
    } else if BackInSweep(s.svc[i], step) {
      BackInSweepKeeps(m, i, t);
    }
  }

  /** The packet loop itself writes no packet of a service. */
  lemma HandlersWrite(f: C.Fields, p: Packet, env: C.Env)
    requires p.command != A_OPEN
    ensures ServiceOuts(C.HandledBy(f, p, env).0.written) == ServiceOuts(f.written)
  {
    hide DrawOf, ServiceOuts;
    if p.command == A_SYNC {
      WireGrows(f.written, C.Out(A_SYNC, 1, DrawOf(UINT32_MAX, f.syncDraws + 1), []));
    } else if p.command == A_CNXN {
      WireGrows(f.written, C.Out(A_AUTH, C.AUTH_TOKEN, 0, env.token));
    } else if p.command == A_AUTH {
      WireGrows(f.written, C.Out(A_AUTH, C.AUTH_TOKEN, 0, f.token));
      WireGrows(f.written, C.Out(A_CNXN, C.SWAPPED_VERSION, f.maxPayload, env.deviceId));
    }
  }

  lemma LoopWrites(s: C.State, env: C.Env, t: C.State)
    requires C.Next(s, C.Process(env)) == Some(t)
    ensures ServiceOuts(t.f.written) == ServiceOuts(s.f.written)
    ensures t.f.ended == s.f.ended && t.f.table == s.f.table && t.sweep == s.sweep && t.created == s.created
    ensures t.loop.InService? ==> t.loop.packet == s.loop.packet && C.IsServicePacket(t.loop.packet) && t.loop.packet.arg1 in s.f.table
  {
    hide C.HandledBy, ServiceOuts;
    if s.loop.packet.command != A_OPEN {
      C.HandledEffect(s.f, s.loop.packet, env);
      HandlersWrite(s.f, s.loop.packet, env);
    }
  }

  /** The services of a connection learn of a new payload limit while none of them is handling a packet. */
  lemma NegotiationKeepsParts(s: State, c: C.State, t: State)
    requires PartsRun(s) && C.Reachable(c) && c.created == s.c.created
    requires forall i :: 0 <= i < |s.svc| ==> s.svc[i].handler.Idle?
    requires t == s.(c := c, svc := Negotiated(s.svc, c.f.maxPayload), target := t.target, verdict := t.verdict)
    ensures PartsRun(t)
  {
    hide S.Reachable, C.Reachable;
    FlagBeforeSweep(c);
    var m := c.f.maxPayload;
    forall i | 0 <= i < |t.svc|
      ensures S.Reachable(t.svc[i].v.localId, t.svc[i])
    {
      S.ReachableStep(s.svc[i].v.localId, s.svc[i], S.Negotiate(m), t.svc[i]);
    }
  }

  /** Payload limits are outside the other invariants. */
  lemma NegotiationKeepsRest(s: State, c: C.State, t: State)
    requires TableOk(s) && Sweeping(s) && HistoryOk(s) && WireOk(s) && AllAccounted(s)
    requires ServiceOuts(c.f.written) == ServiceOuts(s.c.f.written)
    requires c.f.ended == s.c.f.ended && c.f.table == s.c.f.table && c.sweep == s.c.sweep
    requires t == s.(c := c, svc := Negotiated(s.svc, c.f.maxPayload), target := t.target, verdict := t.verdict)
    ensures TableOk(t) && Sweeping(t) && HistoryOk(t) && WireOk(t) && AllAccounted(t)
  {
    hide Only, OutOf, Outs, ServiceOuts;
    forall i | 0 <= i < |t.svc|
      ensures Accounted(t, i)
    {
      assert Accounted(s, i);
      if j :| 0 <= j < |s.svc| && j != i && s.svc[j].v.localId == s.svc[i].v.localId {
        assert t.svc[j].v.localId == t.svc[i].v.localId;
      }
    }
  }

  lemma ProcessKeeps(s: State, env: C.Env, t: State)
    requires Inv(s) && LoopStep(s, C.Process(env)) == Some(t)
    ensures Inv(t)
  {
    hide C.Processed, PartsRun, Sweeping, HistoryOk, WireOk, AllAccounted, ServiceOuts;
    LoopWrites(s.c, env, t.c);
    assert C.Reachable(t.c) by { StepReachable(s, C.Process(env), t.c); }
    NegotiationKeepsParts(s, t.c, t);
    NegotiationKeepsRest(s, t.c, t);
  }

  lemma StepReachable(s: State, step: C.Step, c: C.State)
    requires PartsRun(s) && C.Next(s.c, step) == Some(c)
    ensures C.Reachable(c)
  {
    hide C.Next, C.Reachable;
    C.ReachableStep(s.c, step, c);
  }

  lemma OneMoreService(s: State, x: S.State, remoteId: u32, c: C.State, t: State)
    requires Inv(s) && C.Reachable(c) && c.created && !s.c.loop.InService? && !c.loop.InService?
    requires c.f.written == s.c.f.written && c.f.ended == s.c.f.ended && c.f.maxPayload == s.c.f.maxPayload
    requires c.sweep == s.c.sweep && !s.c.sweep.Holding?
    requires S.Reachable(x.v.localId, x) && x.maxPayload == c.f.maxPayload && x.handler.Idle? && x.mu.Free? && x.v.log == []
    requires x.v.localId !in s.slot && c.f.table.Keys == s.c.f.table.Keys + {x.v.localId}
    requires t == s.(c := c, svc := s.svc + [x], remote := s.remote + [remoteId], drawn := t.drawn, since := t.since,
                     slot := s.slot[x.v.localId := |s.svc|])
    ensures Inv(t)
  {
    hide Only, OutOf, Outs, ServiceOuts, S.Reachable, C.Reachable;
    hide AllAccounted, Accounted, HistoryOk, PartsRun, TableOk;
    OneMoreRuns(s, x, c, t);
    OneMoreEntry(s, x, remoteId, t);
    OneMoreAccounted(s, x, t);
    OneMoreHistory(s, x, remoteId, t);
  }

  lemma OneMoreRuns(s: State, x: S.State, c: C.State, t: State)
    requires PartsRun(s) && C.Reachable(c) && c.created && c.f.maxPayload == s.c.f.maxPayload
    requires S.Reachable(x.v.localId, x) && x.maxPayload == c.f.maxPayload && t.c == c && t.svc == s.svc + [x]
    ensures PartsRun(t)
  {
    hide S.Reachable, C.Reachable;
  }

  lemma OneMoreEntry(s: State, x: S.State, remoteId: u32, t: State)
    requires TableOk(s) && x.v.localId !in s.slot && t.c.f.table.Keys == s.c.f.table.Keys + {x.v.localId}
    requires t.svc == s.svc + [x] && t.remote == s.remote + [remoteId] && t.slot == s.slot[x.v.localId := |s.svc|]
    ensures TableOk(t)
  {
    assert t.slot.Keys == s.slot.Keys + {x.v.localId};
  }

  lemma OneMoreHistory(s: State, x: S.State, remoteId: u32, t: State)
    requires HistoryOk(s) && x.v.log == []
    requires t.svc == s.svc + [x] && t.remote == s.remote + [remoteId] && t.history == s.history
    ensures HistoryOk(t)
  {
    hide Only, OutOf;
    NothingYet(s.history, |s.svc|);
  }

  lemma OneMoreAccounted(s: State, x: S.State, t: State)
    requires AllAccounted(s) && x.v.localId !in s.slot
    requires t.svc == s.svc + [x] && t.slot == s.slot[x.v.localId := |s.svc|]
    ensures AllAccounted(t)
  {
    forall i | 0 <= i < |t.svc|
      ensures Accounted(t, i)
    {
      if i < |s.svc| {
        assert Accounted(s, i);
        if j :| 0 <= j < |s.svc| && j != i && s.svc[j].v.localId == s.svc[i].v.localId {
          assert t.svc[j].v.localId == t.svc[i].v.localId;
        }
      }
    }
  }

  lemma {:induction false} NothingYet(h: seq<Entry>, i: nat)
    requires forall k :: 0 <= k < |h| ==> h[k].service < i
    ensures Only(h, i) == []
  {
    if h == [] {
    } else {
      NothingYet(h[..|h| - 1], i);
    }
  }

  lemma InsertKeeps(s: State, t: State)
    requires Inv(s) && LoopStep(s, C.Insert) == Some(t)
    ensures Inv(t)
  {
    hide DrawOf, PartsRun, Sweeping, HistoryOk, WireOk, AllAccounted, C.Reachable, S.Reachable;
    StepReachable(s, C.Insert, t.c);
    if t.c.loop.Stopped? {
      StoppedKeeps(s, t);
    } else {
      var id := DrawOf(UINT32_MAX, s.c.f.idDraws);
      FlagBeforeSweep(t.c);
      S.ReachableStart(id, t.c.f.maxPayload);
      OneMoreService(s, S.Init(id).(maxPayload := t.c.f.maxPayload), s.c.loop.remoteId, t.c, t);
    }
  }

  /** Steps of the packet loop and of Socket.End that leave services, table and wire alone. */
  lemma StoppedKeeps(s: State, t: State)
    requires Inv(s) && C.Reachable(t.c) && t == s.(c := t.c, verdict := t.verdict)
    requires t.c.f.table == s.c.f.table && t.c.f.written == s.c.f.written && t.c.f.maxPayload == s.c.f.maxPayload
    requires t.c.created == s.c.created && (s.c.f.ended ==> t.c.f.ended)
    requires t.c.sweep.Holding? <==> s.c.sweep.Holding?
    requires !t.c.loop.InService? && t.verdict.None?
    requires forall i :: 0 <= i < |s.svc| ==> s.svc[i].handler.Idle?
    ensures Inv(t)
  {
    hide Only, OutOf, Outs, ServiceOuts, S.Reachable, C.Reachable;
    forall i | 0 <= i < |t.svc|
      ensures Accounted(t, i)
    {
      assert Accounted(s, i);
    }
  }

  lemma EndSocketKeeps(s: State, t: State)
    requires Inv(s) && LoopStep(s, C.EndSocket) == Some(t)
    ensures Inv(t)
  {
    hide Only, OutOf, Outs, ServiceOuts, S.Reachable, C.Reachable;
    StepReachable(s, C.EndSocket, t.c);
    FlagBeforeSweep(s.c);
    forall i | 0 <= i < |t.svc|
      ensures Accounted(t, i)
    {
      assert Accounted(s, i);
    }
  }

  lemma SweepBeginKeeps(s: State, t: State)
    requires Inv(s) && LoopStep(s, C.SweepBegin) == Some(t)
    ensures Inv(t)
  {
    hide Only, OutOf, Outs, ServiceOuts, S.Reachable, C.Reachable;
    StepReachable(s, C.SweepBegin, t.c);
    forall i | 0 <= i < |t.svc|
      ensures Accounted(t, i)
    {
      assert Accounted(s, i);
    }
  }

  lemma SweepEndKeeps(s: State, t: State)
    requires Inv(s) && LoopStep(s, C.SweepEnd) == Some(t)
    ensures Inv(t)
  {
    hide Only, OutOf, Outs, ServiceOuts, S.Reachable, C.Reachable;
    StepReachable(s, C.SweepEnd, t.c);
    forall i | 0 <= i < |t.svc|
      ensures Accounted(t, i)
    {
      assert Accounted(s, i);
    }
  }

  lemma LoopKeeps(s: State, step: C.Step, t: State)
    requires Inv(s) && LoopStep(s, step) == Some(t)
    ensures Inv(t)
  {
    hide PartsRun, TableOk, Sweeping, HistoryOk, WireOk, AllAccounted, DrawOf, C.Processed, C.Inserted;
    match step
    case Process(env) => ProcessKeeps(s, env, t);
    case Insert => InsertKeeps(s, t);
    case EndSocket => EndSocketKeeps(s, t);
    case SweepBegin => SweepBeginKeeps(s, t);
    case SweepEnd => SweepEndKeeps(s, t);
    case _ =>
      StepReachable(s, step, t.c);
      StoppedKeeps(s, t);
  }

  lemma StepKeeps(s: State, step: Step, t: State)
    requires Inv(s) && Next(s, step) == Some(t)
    ensures Inv(t)
  {
    hide Inv, LoopStep, DeliverStep, VisitStep, ServiceStep;
    match step
    case Loop(st) => LoopKeeps(s, st, t);
    case Deliver(ok) => DeliverKeeps(s, ok, t);
    case Visit(id) => VisitKeeps(s, id, t);
    case Service(i, st) => ServiceKeeps(s, i, st, t);
  }

  lemma {:induction false} RunKeeps(s: State, steps: seq<Step>, t: State)
    requires Inv(s) && Run(s, steps) == Some(t)
    ensures Inv(t)
    decreases |steps|
  {
    hide Inv, Next;
    if steps == [] {
    } else {
      StepKeeps(s, steps[0], Next(s, steps[0]).value);
      RunKeeps(Next(s, steps[0]).value, steps[1..], t);
    }
  }

  lemma Invariant(steps: seq<Step>, s: State)
    requires Run(Init(), steps) == Some(s)
    ensures Inv(s)
  {
    hide Run, C.Reachable;
    C.ReachableStart();
    RunKeeps(Init(), steps, s);
  }

  // ------------------------------------------- from one service to the history

  /** How much of service i there is before position a. */
  function Before(h: seq<Entry>, i: nat, a: nat): nat
    requires a <= |h|
  {
    |Only(h[..a], i)|
  }

  lemma {:induction false} OnlyAt(h: seq<Entry>, i: nat, a: nat)
    requires a < |h| && h[a].service == i
    ensures Before(h, i, a) < |Only(h, i)| && Only(h, i)[Before(h, i, a)] == h[a].event
  {
    var front := h[..|h| - 1];
    if a == |front| {
    } else {
      OnlyAt(front, i, a);
      assert front[..a] == h[..a];
    }
  }

  lemma {:induction false} BeforeMonotone(h: seq<Entry>, i: nat, a: nat, b: nat)
    requires a <= b <= |h|
    ensures Before(h, i, a) <= Before(h, i, b)
    ensures a < b && h[a].service == i ==> Before(h, i, a) < Before(h, i, b)
    decreases b
  {
    if a == b {
    } else {
      assert h[..b][..b - 1] == h[..b - 1];
      BeforeMonotone(h, i, a, b - 1);
    }
  }

  /** Every event of a service stands somewhere in the history. */
  lemma {:induction false} FindEvent(h: seq<Entry>, i: nat, k: nat) returns (a: nat)
    requires k < |Only(h, i)|
    ensures a < |h| && h[a].service == i && h[a].event == Only(h, i)[k] && Before(h, i, a) == k
  {
    var front := h[..|h| - 1];
    if k < |Only(front, i)| {
      a := FindEvent(front, i, k);
      assert front[..a] == h[..a];
    } else {
      a := |h| - 1;
    }
  }

  // -------------------------------------------------------------- what it means

  /** Whatever the services of a connection do together, each of them alone, and the connection alone, runs as proved. */
  lemma EachPartRuns(steps: seq<Step>, s: State)
    requires Run(Init(), steps) == Some(s)
    ensures C.Reachable(s.c)
    ensures forall i :: 0 <= i < |s.svc| ==> S.Reachable(s.svc[i].v.localId, s.svc[i])
    ensures forall i :: 0 <= i < |s.svc| ==> Only(s.history, i) == s.svc[i].v.log
    ensures forall i :: 0 <= i < |s.svc| ==> s.svc[i].maxPayload == s.c.f.maxPayload
  {
    hide Run, C.Reachable, S.Reachable, Only;
    Invariant(steps, s);
  }

  lemma LogIs(steps: seq<Step>, s: State, i: nat)
    requires Run(Init(), steps) == Some(s) && i < |s.svc|
    ensures S.Inv(s.svc[i]) && Only(s.history, i) == s.svc[i].v.log
  {
    hide Run, S.Run, C.Reachable, Only;
    EachPartRuns(steps, s);
    var own :| S.Run(S.Init(s.svc[i].v.localId), own) == Some(s.svc[i]);
    S.Invariant(s.svc[i].v.localId, own, s.svc[i]);
  }

  lemma HistoryNames(steps: seq<Step>, s: State, a: nat)
    requires Run(Init(), steps) == Some(s) && a < |s.history|
    ensures s.history[a].service < |s.svc|
  {
    hide Run, C.Reachable, S.Reachable, Only, OutOf;
    Invariant(steps, s);
  }

  /** In the history of the whole connection, an OKAY for a service was handled between any two of its WRTE packets. */
  lemma SharedStopAndWait(steps: seq<Step>, s: State, a: nat, b: nat) returns (k: nat)
    requires Run(Init(), steps) == Some(s) && a < b < |s.history| && s.history[a].service == s.history[b].service
    requires s.history[a].event.SentWrte? && s.history[b].event.SentWrte?
    ensures a < k < b && s.history[k].service == s.history[a].service && s.history[k].event.GotOkay?
  {
    hide Run, Only, S.LifeInv, S.LogInv, S.DataInv, S.Paired, S.AllAcked;
    var h, i := s.history, s.history[a].service;
    HistoryNames(steps, s, a);
    LogIs(steps, s, i);
    OnlyAt(h, i, a);
    OnlyAt(h, i, b);
    BeforeMonotone(h, i, a, b);
    var m :| Before(h, i, a) < m < Before(h, i, b) && Only(h, i)[m].GotOkay?;
    k := FindEvent(h, i, m);
    if k <= a {
      BeforeMonotone(h, i, k, a);
    }
    if b <= k {
      BeforeMonotone(h, i, b, k);
    }
  }

  /** After the CLSE of a service only the OKAY of its open can follow in its name, and no second CLSE. */
  lemma SharedClose(steps: seq<Step>, s: State, a: nat, b: nat)
    requires Run(Init(), steps) == Some(s) && a < b < |s.history| && s.history[a].service == s.history[b].service
    requires s.history[a].event.SentClse?
    ensures s.history[b].event.SentOpenOkay?
  {
    hide Run, Only, S.LifeInv, S.FlowInv, S.DataInv, S.OneOpenOkay, S.CloseIdsEarned, S.HasClose, S.HasOpenOkay;
    var h, i := s.history, s.history[a].service;
    HistoryNames(steps, s, a);
    LogIs(steps, s, i);
    OnlyAt(h, i, a);
    OnlyAt(h, i, b);
    BeforeMonotone(h, i, a, b);
  }

  /**
   * Until the socket ends, the service packets on the wire are exactly those of the history, in order, each with the
   * two ids of its own service; what is on the wire stays a prefix of them.
   */
  lemma WireIsHistory(steps: seq<Step>, s: State)
    requires Run(Init(), steps) == Some(s)
    ensures ServiceOuts(s.c.f.written) <= Outs(s.history)
    ensures !s.c.f.ended ==> ServiceOuts(s.c.f.written) == Outs(s.history)
    ensures |s.remote| == |s.svc|
    ensures forall k :: 0 <= k < |s.history| ==>
              var h := s.history[k];
              h.service < |s.svc| && Carries(h.out, s.svc[h.service].v.localId, s.remote[h.service], h.event)
  {
    hide Run, C.Reachable, S.Reachable, Only;
    Invariant(steps, s);
  }

  /** The packet for an event: the ids of the stream, its own first, and for a WRTE the payload. */
  predicate Carries(out: Option<C.Out>, localId: u32, remoteId: u32, e: Event) {
    && (out.None? <==> e.GotOkay? || e.GotWrte?)
    && (out.Some? ==>
        && out.value.arg1 == remoteId
        && out.value.arg0 == (if e.SentClse? then e.id else localId)
        && out.value.data == (if e.SentWrte? then e.payload else [])
        && out.value.command == (if e.SentWrte? then A_WRTE else if e.SentClse? then A_CLSE else A_OKAY))
  }

  /** A packet takes effect on the service whose id it carries and on no other. */
  lemma PacketsReachTheirService(steps: seq<Step>, s: State, deviceOk: bool, t: State)
    requires Run(Init(), steps) == Some(s) && Next(s, Deliver(deviceOk)) == Some(t)
    ensures s.target < |s.svc| && |t.svc| == |s.svc| && s.svc[s.target].v.localId == s.c.loop.packet.arg1
    ensures forall i :: 0 <= i < |s.svc| && i != s.target ==> t.svc[i] == s.svc[i]
    ensures S.Next(s.svc[s.target], Entering(s.c.loop.packet, deviceOk)) == Some(t.svc[s.target])
  {
    hide Run, S.Next, C.Reachable, S.Reachable, Only, OutOf, Accepts;
    Invariant(steps, s);
  }

  lemma ServiceShape(s: State, i: nat, own: S.Step, t: State)
    requires Next(s, Service(i, own)) == Some(t)
    ensures i < |s.svc| && OwnStep(s, i, own) && |t.svc| == |s.svc| && S.Next(s.svc[i], own) == Some(t.svc[i])
    ensures t.svc == s.svc[i := t.svc[i]] && t.remote == s.remote && t.verdict == s.verdict && t.target == s.target
    ensures t.c.loop == s.c.loop && t.c.sweep == s.c.sweep && t.c.f.authorized == s.c.f.authorized && t.c.f.ended == s.c.f.ended
    ensures t.left == s.left && t.current == if !own.Remove? && BackInSweep(s.svc[i], own) then None else s.current
    ensures !own.Remove? ==> t.slot == s.slot && t.c.f.table == s.c.f.table
    ensures t.c.handled == s.c.handled && t.since == s.since
  {
    hide S.Next, OwnStep, BackInSweep, Moved;
    MovedShape(s, i, S.Next(s.svc[i], own).value);
  }

  lemma DeliverShape(s: State, deviceOk: bool, t: State)
    requires Next(s, Deliver(deviceOk)) == Some(t)
    ensures s.target < |s.svc| && |t.svc| == |s.svc| && s.c.loop.InService? && s.verdict.None?
    ensures S.Next(s.svc[s.target], Entering(s.c.loop.packet, deviceOk)) == Some(t.svc[s.target])
    ensures t.svc == s.svc[s.target := t.svc[s.target]] && t.target == s.target && t.verdict.Some?
    ensures t.slot == s.slot && t.left == s.left && t.current == s.current
    ensures t.c.sweep == s.c.sweep && t.c.loop == s.c.loop && t.c.handled == s.c.handled && t.c.f.table == s.c.f.table
    ensures t.since == s.since && t.remote == s.remote
  {
    hide S.Next, Moved, Accepts, Entering;
    MovedShape(s, s.target, S.Next(s.svc[s.target], Entering(s.c.loop.packet, deviceOk)).value);
  }

  lemma MovedShape(s: State, i: nat, x: S.State)
    requires i < |s.svc| && i < |s.remote|
    ensures var t := Moved(s, i, x);
            && t.svc == s.svc[i := x]
            && t == s.(svc := t.svc, history := t.history, c := s.c.(f := s.c.f.(written := t.c.f.written)))
  {
    hide OutOf;
  }

  /** The service has logged a packet of the client that it had not logged before. */
  predicate Received(x: S.State, y: S.State) {
    x.v.log != y.v.log && y.v.log != [] && (y.v.log[|y.v.log| - 1].GotOkay? || y.v.log[|y.v.log| - 1].GotWrte?)
  }

  /** The packet is the one that the event says was received. */
  predicate IsReceived(p: Packet, e: Event) {
    (e.GotOkay? && p.command == A_OKAY) || (e.GotWrte? && p.command == A_WRTE && p.data == e.data)
  }

  /**
   * Whatever the step, a service logs a packet as received, or has its handler become busy, only because that packet,
   * with its id, is in the hands of the packet loop.
   */
  lemma OnlyPacketsAreReceived(steps: seq<Step>, s: State, step: Step, t: State, i: nat)
    requires Run(Init(), steps) == Some(s) && Next(s, step) == Some(t) && i < |s.svc|
    ensures i < |t.svc|
    ensures Received(s.svc[i], t.svc[i]) || (s.svc[i].handler.Idle? && !t.svc[i].handler.Idle?) ==>
              step.Deliver? && i == s.target && s.c.loop.InService? && s.c.loop.packet.arg1 == s.svc[i].v.localId
    ensures Received(s.svc[i], t.svc[i]) ==> IsReceived(s.c.loop.packet, t.svc[i].v.log[|t.svc[i].v.log| - 1])
  {
    hide Run, LoopStep, VisitStep, DeliverStep, ServiceStep, S.Next, Received;
    match step
    case Loop(st) => LoopReceivesNothing(s, st, t, i);
    case Visit(id) => VisitReceivesNothing(s, id, t, i);
    case Service(j, own) => OwnStepReceivesNothing(s, j, own, t, i);
    case Deliver(ok) =>
      PacketsReachTheirService(steps, s, ok, t);
      DeliveredIsReceived(s, ok, t, i);
  }

  lemma LoopReceivesNothing(s: State, step: C.Step, t: State, i: nat)
    requires LoopStep(s, step) == Some(t) && i < |s.svc|
    ensures i < |t.svc| && !Received(s.svc[i], t.svc[i]) && t.svc[i].handler == s.svc[i].handler
  {
    hide C.Next, DrawOf;
  }

  lemma VisitReceivesNothing(s: State, id: u32, t: State, i: nat)
    requires VisitStep(s, id) == Some(t) && i < |s.svc|
    ensures i < |t.svc| && !Received(s.svc[i], t.svc[i]) && t.svc[i].handler == s.svc[i].handler
  {
  }

  lemma OwnStepReceivesNothing(s: State, j: nat, own: S.Step, t: State, i: nat)
    requires Next(s, Service(j, own)) == Some(t) && i < |s.svc|
    ensures i < |t.svc| && !Received(s.svc[i], t.svc[i]) && (s.svc[i].handler.Idle? ==> t.svc[i].handler.Idle?)
  {
    hide Next, S.Next;
    ServiceShape(s, j, own, t);
    S.StepFrame(s.svc[j], own, t.svc[j]);
  }

  lemma DeliveredIsReceived(s: State, deviceOk: bool, t: State, i: nat)
    requires Next(s, Deliver(deviceOk)) == Some(t) && i < |s.svc| && |t.svc| == |s.svc| && s.target < |s.svc|
    requires i != s.target ==> t.svc[i] == s.svc[i]
    requires S.Next(s.svc[s.target], Entering(s.c.loop.packet, deviceOk)) == Some(t.svc[s.target])
    ensures i != s.target ==> !Received(s.svc[i], t.svc[i])
    ensures s.c.loop.InService?
    ensures Received(s.svc[i], t.svc[i]) ==> IsReceived(s.c.loop.packet, t.svc[i].v.log[|t.svc[i].v.log| - 1])
  {
    hide S.Next, Moved, Accepts;
    S.StepFrame(s.svc[s.target], Entering(s.c.loop.packet, deviceOk), t.svc[s.target]);
  }

  /** When ServiceMap.End empties the table, every service in it has ended. */
  lemma SweepEndsAll(steps: seq<Step>, s: State, t: State)
    requires Run(Init(), steps) == Some(s) && Next(s, Loop(C.SweepEnd)) == Some(t)
    ensures forall id :: id in s.slot ==> s.slot[id] < |s.svc| && s.svc[s.slot[id]].v.ended
    ensures t.slot == map[] && t.svc == s.svc
  {
    hide Run, C.Reachable, S.Reachable, Only, OutOf, Accepts;
    Invariant(steps, s);
  }

  /** Services have their ids from different draws, in the order of their creation. */
  predicate Numbered(s: State) {
    && |s.drawn| == |s.svc|
    && (forall i :: 0 <= i < |s.svc| ==> s.svc[i].v.localId == DrawOf(UINT32_MAX, s.drawn[i]))
    && (forall i :: 0 <= i < |s.svc| ==> s.drawn[i] <= s.c.f.idDraws && (s.c.loop.Drawn? ==> s.drawn[i] < s.c.f.idDraws))
    && (forall i, j :: 0 <= i < j < |s.svc| ==> s.drawn[i] < s.drawn[j])
  }

  lemma DrawsMove(s: C.State, step: C.Step, t: C.State)
    requires C.Next(s, step) == Some(t)
    ensures s.f.idDraws <= t.f.idDraws
    ensures t.loop.Drawn? ==> (s.loop.Drawn? && t.f.idDraws == s.f.idDraws) || t.f.idDraws == s.f.idDraws + 1
  {
    hide C.HandledBy, DrawOf;
    if step.Process? && s.loop.packet.command != A_OPEN {
      C.HandledEffect(s.f, s.loop.packet, step.env);
    }
  }

  lemma LoopKeepsNumbers(s: State, step: C.Step, t: State)
    requires Numbered(s) && LoopStep(s, step) == Some(t)
    ensures Numbered(t)
  {
    hide C.Next, DrawOf;
    DrawsMove(s.c, step, t.c);
    if step.Insert? {
      InsertEndsDraw(s.c, t.c);
    }
  }

  lemma InsertEndsDraw(s: C.State, t: C.State)
    requires C.Next(s, C.Insert) == Some(t)
    ensures s.loop.Drawn? && !t.loop.Drawn? && t.f.idDraws == s.f.idDraws
  {
    hide DrawOf;
  }

  lemma MovedKeepsNumbers(s: State, i: nat, step: S.Step, x: S.State, t: State)
    requires Numbered(s) && i < |s.svc| && S.Framed(s.svc[i], step, x)
    requires t.svc == s.svc[i := x] && t.drawn == s.drawn && t.c.f.idDraws == s.c.f.idDraws && t.c.loop == s.c.loop
    ensures Numbered(t)
  {
    hide S.Logged, DrawOf;
  }

  lemma StepKeepsNumbers(s: State, step: Step, t: State)
    requires Numbered(s) && Next(s, step) == Some(t)
    ensures Numbered(t)
  {
    hide Numbered, LoopStep, S.Next, S.Framed, Moved, OwnStep, BackInSweep, Accepts, Entering;
    match step
    case Loop(st) => LoopKeepsNumbers(s, st, t);
    case Deliver(ok) =>
      var entering := Entering(s.c.loop.packet, ok);
      var x := S.Next(s.svc[s.target], entering).value;
      S.StepFrame(s.svc[s.target], entering, x);
      MovedShape(s, s.target, x);
      MovedKeepsNumbers(s, s.target, entering, x, t);
    case Visit(_) => VisitKeepsNumbers(s, t);
    case Service(i, own) =>
      var x := S.Next(s.svc[i], own).value;
      S.StepFrame(s.svc[i], own, x);
      MovedShape(s, i, x);
      MovedKeepsNumbers(s, i, own, x, t);
  }

  lemma VisitKeepsNumbers(s: State, t: State)
    requires Numbered(s) && t == s.(left := t.left, current := t.current)
    ensures Numbered(t)
  {
  }

  lemma {:induction false} RunKeepsNumbers(s: State, steps: seq<Step>, t: State)
    requires Numbered(s) && Run(s, steps) == Some(t)
    ensures Numbered(t)
    decreases |steps|
  {
    hide Numbered, Next;
    if steps == [] {
    } else {
      StepKeepsNumbers(s, steps[0], Next(s, steps[0]).value);
      RunKeepsNumbers(Next(s, steps[0]).value, steps[1..], t);
    }
  }

  /** Two services of one connection have the same id only if at least 2^32 - 1 draws lie between them. */
  lemma SameIdFarApart(steps: seq<Step>, s: State, i: nat, j: nat)
    requires Run(Init(), steps) == Some(s) && i < j < |s.svc| && s.svc[i].v.localId == s.svc[j].v.localId
    ensures s.c.f.idDraws >= UINT32_MAX
    ensures |s.drawn| == |s.svc| && s.drawn[j] - s.drawn[i] >= UINT32_MAX
  {
    hide Run, DrawOf;
    RunKeepsNumbers(Init(), steps, s);
    DrawsDistinct(UINT32_MAX, s.drawn[i], s.drawn[j]);
  }

  /**
   * A service that has not ended is in the table, or its opener has just taken it out and ends it next, or, after at
   * least 2^32 - 1 OPENs, it shares its id with another service of the connection.
   */
  lemma LiveServicesListed(steps: seq<Step>, s: State, i: nat)
    requires Run(Init(), steps) == Some(s) && i < |s.svc| && !s.svc[i].v.ended
    ensures var id := s.svc[i].v.localId;
            || (id in s.slot && s.slot[id] == i)
            || s.svc[i].opener.Ending?
            || (s.c.f.idDraws >= UINT32_MAX && exists j :: 0 <= j < |s.svc| && j != i && s.svc[j].v.localId == id)
  {
    hide Run, C.Reachable, S.Reachable, Only, OutOf, Accepts;
    Invariant(steps, s);
    assert Accounted(s, i);
    if j :| 0 <= j < |s.svc| && j != i && s.svc[j].v.localId == s.svc[i].v.localId {
      SameIdFarApart(steps, s, if i < j then i else j, if i < j then j else i);
    }
  }

  /** No transport was ever stored in the service. */
  predicate NeverConnected(x: S.State) {
    x.obtained == 0 || S.BeforeInstall(x.opener)
  }

  /**
   * What is an error, and so stops the packet loop of the whole connection: an OKAY or a WRTE exactly when the service
   * has no transport yet and has not ended, a WRTE also when the device refuses its data; a CLSE exactly when the
   * service has no transport yet or End has cleared it.
   */
  lemma PacketErrors(steps: seq<Step>, s: State, deviceOk: bool, t: State)
    requires Run(Init(), steps) == Some(s) && Next(s, Deliver(deviceOk)) == Some(t)
    ensures s.target < |s.svc| && t.verdict.Some?
    ensures var p, x, error := s.c.loop.packet, s.svc[s.target], !t.verdict.value;
            && (p.command == A_OKAY ==> (error <==> !x.v.ended && NeverConnected(x)))
            && (p.command == A_WRTE ==>
                (error <==> !x.v.ended && (NeverConnected(x) || (p.data != [] && !deviceOk))))
            && (p.command == A_CLSE ==> (error <==> x.v.ended || x.mu.Cleared? || NeverConnected(x)))
  {
    hide Run, S.Next, Only, OutOf, S.WaitInv, S.LogInv, S.FlowInv, S.DataInv;
    LogIs(steps, s, s.target);
    if s.c.loop.packet.command == A_OKAY || s.c.loop.packet.command == A_WRTE {
      LockedToHandle(s.svc[s.target], Entering(s.c.loop.packet, deviceOk));
    }
  }

  lemma LockedToHandle(x: S.State, step: S.Step)
    requires S.Next(x, step).Some? && (step.HandleOkay? || step.HandleWrite?)
    ensures x.mu.Free?
  {
  }

  // ------------------------------------------------------------ putting runs together

  lemma EmptyRun(s: State)
    ensures Run(s, []) == Some(s)
  {
  }

  lemma {:induction false} Then(s: State, steps: seq<Step>, t: State, step: Step)
    requires Run(s, steps) == Some(t)
    ensures Run(s, steps + [step]) == Next(t, step)
    decreases |steps|
  {
    hide Next;
    if steps == [] {
      assert [step][1..] == [];
    } else {
      Then(Next(s, steps[0]).value, steps[1..], t, step);
      assert (steps + [step])[1..] == steps[1..] + [step];
    }
  }

  lemma Extend(steps: seq<Step>, s: State, step: Step) returns (more: seq<Step>, t: State)
    requires Run(Init(), steps) == Some(s) && Next(s, step).Some?
    ensures Run(Init(), more) == Some(t) && Next(s, step) == Some(t)
  {
    hide Run, Next;
    more, t := steps + [step], Next(s, step).value;
    Then(Init(), steps, s, step);
  }

  lemma CanMove(s: State, i: nat, own: S.Step)
    requires i < |s.svc| && |s.remote| == |s.svc| && OwnStep(s, i, own) && S.Next(s.svc[i], own).Some?
    ensures Next(s, Service(i, own)).Some?
  {
    hide S.Next, OutOf, C.Removed;
  }

  lemma {:induction false} Joined(s: State, steps: seq<Step>, m: State, more: seq<Step>, t: State)
    requires Run(s, steps) == Some(m) && Run(m, more) == Some(t)
    ensures Run(s, steps + more) == Some(t)
    decreases |steps|
  {
    hide Next;
    if steps == [] {
      assert steps + more == more;
    } else {
      Joined(Next(s, steps[0]).value, steps[1..], m, more, t);
      assert (steps + more)[1..] == steps[1..] + more;
    }
  }
}
