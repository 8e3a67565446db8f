/** What a client that parses the bytes of the connection gets (tcpusb/socket.go, tcpusb/packet.go). */
module SocketWire {
  import opened Bytes
  import opened Packets
  import opened PacketStream
  import opened Wrappers
  import opened IdTable
  import opened ServiceCore
  import C = Connection
  import S = ServiceRuns
  import R = SocketRuns

  function MessageOf(out: C.Out): Message {
    Message(out.command, out.arg0, out.arg1, out.data)
  }

  function Messages(written: seq<C.Out>): seq<Message> {
    seq(|written|, k requires 0 <= k < |written| => MessageOf(written[k]))
  }

  /** Only the device id in a CNXN is not bounded by the program itself. */
  predicate Short(out: C.Out) {
    |out.data| <= 65535 || out.command == A_CNXN
  }

  predicate AllShort(c: C.State) {
    && |c.f.token| <= 20
    && forall k :: 0 <= k < |c.f.written| ==> Short(c.f.written[k])
  }

  lemma HandlersWriteShort(f: C.Fields, p: Packet, env: C.Env)
    requires |f.token| <= 20 && (forall k :: 0 <= k < |f.written| ==> Short(f.written[k])) && p.command != A_OPEN
    ensures var g := C.HandledBy(f, p, env).0;
            |g.token| <= 20 && forall k :: 0 <= k < |g.written| ==> Short(g.written[k])
  {
    hide DrawOf;
  }

  lemma LoopWritesShort(s: R.State, step: C.Step, t: R.State)
    requires AllShort(s.c) && R.LoopStep(s, step) == Some(t)
    ensures AllShort(t.c)
  {
    hide DrawOf, C.HandledBy, Short;
    if step.Process? && s.c.loop.packet.command != A_OPEN {
      HandlersWriteShort(s.c.f, s.c.loop.packet, step.env);
    }
  }

  /** What a service hands over last is in its log, and so within the limit of a payload. */
  lemma LoggedIsShort(x: S.State, remoteId: u32)
    requires S.DataInv(x) && x.v.log != []
    ensures var out := R.OutOf(x.v.localId, remoteId, x.v.log[|x.v.log| - 1]); out.Some? ==> Short(out.value)
  {
    hide S.Payloads, Flatten;
  }

  lemma ServicesWriteShort(s: R.State, i: nat, step: S.Step, x: S.State)
    requires AllShort(s.c) && R.PartsRun(s) && |s.remote| == |s.svc| && i < |s.svc| && S.Next(s.svc[i], step) == Some(x)
    ensures AllShort(R.Moved(s, i, x).c)
  {
    hide Short, R.OutOf, S.Next, S.Run, C.Reachable, S.LifeInv, S.WaitInv, S.LogInv, S.FlowInv, S.DataInv;
    var own :| S.Run(S.Init(s.svc[i].v.localId), own) == Some(s.svc[i]);
    S.Invariant(s.svc[i].v.localId, own, s.svc[i]);
    S.StepKeeps(s.svc[i], step, x);
    if x.v.log != [] {
      LoggedIsShort(x, s.remote[i]);
    }
  }

  lemma StepWritesShort(s: R.State, step: R.Step, t: R.State)
    requires AllShort(s.c) && R.Inv(s) && R.Next(s, step) == Some(t)
    ensures AllShort(t.c)
  {
    hide Short, R.PartsRun, R.Routed, R.Sweeping, R.HistoryOk, R.WireOk, R.AllAccounted, R.LoopStep, R.Moved, R.OutOf;
    hide S.Next, R.Accepts, R.Entering, R.OwnStep, R.BackInSweep;
    match step
    case Loop(st) => LoopWritesShort(s, st, t);
    case Deliver(ok) =>
      var entering := R.Entering(s.c.loop.packet, ok);
      ServicesWriteShort(s, s.target, entering, S.Next(s.svc[s.target], entering).value);
    case Visit(_) =>
    case Service(i, own) => ServicesWriteShort(s, i, own, S.Next(s.svc[i], own).value);
  }

  lemma {:induction false} RunWritesShort(s: R.State, steps: seq<R.Step>, t: R.State)
    requires AllShort(s.c) && R.Inv(s) && R.Run(s, steps) == Some(t)
    ensures AllShort(t.c)
    decreases |steps|
  {
    hide AllShort, R.Inv, R.Next;
    if steps == [] {
    } else {
      var m := R.Next(s, steps[0]).value;
      R.StepKeeps(s, steps[0], m);
      StepWritesShort(s, steps[0], m);
      RunWritesShort(m, steps[1..], t);
    }
  }

  /**
   * All packets of every run but a CNXN fit into a message, and if those do too, the bytes of the connection parse, for
   * every way of reading them, into exactly the packets written, in order, with nothing left over.
   */
  lemma WireParses(steps: seq<R.Step>, s: R.State)
    requires R.Run(R.Init(), steps) == Some(s)
    ensures var ms := Messages(s.c.f.written);
            && (forall k :: 0 <= k < |ms| && ms[k].command != A_CNXN ==> Fits(ms[k]))
            && ((forall k :: 0 <= k < |ms| ==> Fits(ms[k])) ==>
                ParseAll(Wires(ms)) == Trace(seq(|ms|, k requires 0 <= k < |ms| => PacketOf(ms[k])), Incomplete([])))
  {
    hide R.Run, R.Inv, ParseAll, Wires, PacketOf;
    R.EmptyRun(R.Init());
    R.Invariant([], R.Init());
    RunWritesShort(R.Init(), steps, s);
    var ms := Messages(s.c.f.written);
    assert forall k :: 0 <= k < |ms| ==> Short(s.c.f.written[k]) && ms[k] == MessageOf(s.c.f.written[k]);
    if forall k :: 0 <= k < |ms| ==> Fits(ms[k]) {
      RoundTrip(ms);
    }
  }
}
