/** What the packet loop answers, and when it stops, as a function of the packets it has handled (tcpusb/socket.go). */
module Handshake {
  import opened Bytes
  import opened Packets
  import opened Wrappers
  import opened IdTable
  import opened Connection

  // ------------------------------------------------------------- reading the history

  /** The payload limit: what the last CNXN asked for, 65535 at most, and 4096 before the first. */
  function LimitOf(h: seq<Handled>): u32 {
    if h == [] then 4096
    else
      var e := h[|h| - 1];
      if e.packet.command == A_CNXN then Min(e.packet.arg1, 65535) else LimitOf(h[..|h| - 1])
  }

  /** The challenge: the one of the last CNXN for which there was randomness. */
  function TokenOf(h: seq<Handled>): seq<byte> {
    if h == [] then []
    else
      var e := h[|h| - 1];
      if e.packet.command == A_CNXN && e.env.randomOk then e.env.token else TokenOf(h[..|h| - 1])
  }

  function SyncsIn(h: seq<Handled>): nat {
    if h == [] then 0 else SyncsIn(h[..|h| - 1]) + if h[|h| - 1].packet.command == A_SYNC then 1 else 0
  }

  /** Every OPEN of an authorized client draws an id. */
  function DrawsIn(h: seq<Handled>): nat {
    if h == [] then 0
    else
      var before := h[..|h| - 1];
      DrawsIn(before) + if h[|h| - 1].packet.command == A_OPEN && SawAuthentication(before) then 1 else 0
  }

  /** The answer to a packet, given what came before it. */
  function ReplyTo(before: seq<Handled>, e: Handled): Option<Out> {
    var p := e.packet;
    if p.command == A_SYNC then Some(Out(A_SYNC, 1, (SyncsIn(before) + 1) % 0xffff_ffff + 1, []))
    else if p.command == A_CNXN && e.env.randomOk then Some(Out(A_AUTH, 1, 0, e.env.token))
    else if p.command == A_AUTH && p.arg0 == 2 then Some(Out(A_AUTH, 1, 0, TokenOf(before)))
    else if p.command == A_AUTH && p.arg0 == 3 && SawSignature(before) && IsAcceptedKey(e) then
      Some(Out(A_CNXN, 0x0100_0000, LimitOf(before), e.env.deviceId))
    else None
  }

  /** All the answers, none of them after the end of the socket. */
  function Replies(h: seq<Handled>): seq<Out> {
    if h == [] then []
    else
      var before, e := h[..|h| - 1], h[|h| - 1];
      var r := ReplyTo(before, e);
      Replies(before) + if r.Some? && !e.late then [r.value] else []
  }

  /** What the packet loop itself has written. */
  function LoopOuts(written: seq<Out>): seq<Out> {
    if written == [] then []
    else
      var last := written[|written| - 1];
      LoopOuts(written[..|written| - 1]) + if IsServiceCommand(last.command) then [] else [last]
  }

  /** The packet loop returns an error because of this packet, given what came before it. */
  predicate Fatal(before: seq<Handled>, e: Handled) {
    var p := e.packet;
    var unanswered := e.late || !e.env.writeOk;
    if p.command == A_SYNC then unanswered
    else if p.command == A_CNXN then !e.env.randomOk || unanswered
    else if p.command == A_AUTH then
      if p.arg0 == 2 then unanswered
      else if p.arg0 == 3 then !SawSignature(before) || !IsAcceptedKey(e) || unanswered
      else true
    else if p.command == A_OPEN then !SawAuthentication(before) || |p.data| < 2
    else if IsServiceCommand(p.command) then !SawAuthentication(before)
    else true
  }

  // ------------------------------------------------------------------ invariant

  predicate FieldsTold(s: State) {
    && s.f.maxPayload == LimitOf(s.handled)
    && s.f.token == TokenOf(s.handled)
    && s.f.syncDraws == SyncsIn(s.handled)
    && s.f.idDraws == DrawsIn(s.handled)
    && LoopOuts(s.f.written) == Replies(s.handled)
  }

  /** Where the packet loop stands says how its last packet went. */
  predicate LoopTold(s: State) {
    var n := |s.handled|;
    && (forall k :: 0 <= k < n && Fatal(s.handled[..k], s.handled[k]) ==> k == n - 1 && s.loop.Stopped?)
    && (s.loop.Drawn? ==>
        n > 0 && var p := s.handled[n - 1].packet; p.command == A_OPEN && p.arg0 == s.loop.remoteId && |p.data| >= 2)
    && (s.loop.InService? ==> n > 0 && s.handled[n - 1].packet == s.loop.packet && IsServicePacket(s.loop.packet))
    && (s.loop.Stopped? ==>
        && n > 0
        && var e := s.handled[n - 1];
        Fatal(s.handled[..n - 1], e) || e.packet.command == A_OPEN || IsServicePacket(e.packet))
  }

  lemma Appended(h: seq<Handled>, e: Handled)
    ensures (h + [e])[..|h|] == h && (h + [e])[|h|] == e
    ensures forall k :: 0 <= k < |h| ==> (h + [e])[..k] == h[..k] && (h + [e])[k] == h[k]
  {
  }

  lemma OutsGrow(written: seq<Out>, out: Out)
    ensures LoopOuts(written + [out]) == LoopOuts(written) + if IsServiceCommand(out.command) then [] else [out]
  {
    assert (written + [out])[..|written|] == written;
  }

  /** One packet other than OPEN, past the test of `ended`. */
  lemma HandledTold(f: Fields, h: seq<Handled>, p: Packet, env: Env)
    requires p.command != A_OPEN && f.token == TokenOf(h) && f.syncDraws == SyncsIn(h) && f.maxPayload == LimitOf(h)
    requires (f.signature != [] <==> SawSignature(h)) && (f.authorized <==> SawAuthentication(h))
    ensures var e, (g, err) := Handled(p, env, f.ended), HandledBy(f, p, env);
            && var r := ReplyTo(h, e);
            && g.written == f.written + (if r.Some? && !e.late then [r.value] else [])
            && (r.Some? ==> !IsServiceCommand(r.value.command))
            && g.maxPayload == (if p.command == A_CNXN then Min(p.arg1, 65535) else f.maxPayload)
            && g.token == (if p.command == A_CNXN && env.randomOk then env.token else f.token)
            && g.syncDraws == f.syncDraws + (if p.command == A_SYNC then 1 else 0)
            && g.idDraws == f.idDraws
            && (!IsServicePacket(p) || !f.authorized ==> (!err.NoError? <==> Fatal(h, e)))
  {
    hide SawSignature, SawAuthentication, TokenOf, SyncsIn, LimitOf;
  }

  /** How one more packet changes what the history says. */
  lemma HistorySays(h: seq<Handled>, e: Handled)
    ensures LimitOf(h + [e]) == if e.packet.command == A_CNXN then Min(e.packet.arg1, 65535) else LimitOf(h)
    ensures TokenOf(h + [e]) == if e.packet.command == A_CNXN && e.env.randomOk then e.env.token else TokenOf(h)
    ensures SyncsIn(h + [e]) == SyncsIn(h) + if e.packet.command == A_SYNC then 1 else 0
    ensures DrawsIn(h + [e]) == DrawsIn(h) + if e.packet.command == A_OPEN && SawAuthentication(h) then 1 else 0
    ensures Replies(h + [e]) == Replies(h) + var r := ReplyTo(h, e); if r.Some? && !e.late then [r.value] else []
  {
    hide SawAuthentication, ReplyTo;
    Appended(h, e);
  }

  lemma ProcessTellsFields(s: State, env: Env, t: State)
    requires AuthInv(s) && FieldsTold(s) && Next(s, Process(env)) == Some(t)
    ensures FieldsTold(t)
  {
    hide SawSignature, SawAuthentication, HandledBy, LoopOuts, OnlyHandshake, Fatal, ReplyTo;
    hide LimitOf, TokenOf, SyncsIn, DrawsIn, Replies;
    var h, p := s.handled, s.loop.packet;
    var e := Handled(p, env, s.f.ended);
    HistorySays(h, e);
    OpenTold(h, e);
    if p.command != A_OPEN {
      HandledTold(s.f, h, p, env);
      var r := ReplyTo(h, e);
      if r.Some? && !e.late {
        OutsGrow(s.f.written, r.value);
      } else {
        assert s.f.written + [] == s.f.written;
      }
    }
  }

  lemma ProcessTellsLoop(s: State, env: Env, t: State)
    requires AuthInv(s) && FieldsTold(s) && LoopTold(s) && Next(s, Process(env)) == Some(t)
    ensures LoopTold(t)
  {
    hide SawSignature, SawAuthentication, HandledBy, LoopOuts, OnlyHandshake, Fatal, ReplyTo;
    hide LimitOf, TokenOf, SyncsIn, DrawsIn, Replies;
    var h, p := s.handled, s.loop.packet;
    var e := Handled(p, env, s.f.ended);
    Appended(h, e);
    OpenTold(h, e);
    if p.command != A_OPEN {
      HandledTold(s.f, h, p, env);
    }
  }

  /** An OPEN is answered by its service, and service packets for live services by theirs. */
  lemma OpenTold(h: seq<Handled>, e: Handled)
    ensures e.packet.command == A_OPEN ==> ReplyTo(h, e).None? && (Fatal(h, e) <==> !SawAuthentication(h) || |e.packet.data| < 2)
    ensures IsServicePacket(e.packet) ==> ReplyTo(h, e).None? && (Fatal(h, e) <==> !SawAuthentication(h))
  {
    hide SawSignature, SawAuthentication;
  }

  lemma StepTold(s: State, step: Step, t: State)
    requires AuthInv(s) && FieldsTold(s) && LoopTold(s) && Next(s, step) == Some(t)
    ensures FieldsTold(t) && LoopTold(t)
  {
    hide AuthInv, LimitOf, TokenOf, SyncsIn, DrawsIn, Replies, LoopOuts, Fatal, DrawOf, Processed;
    match step
    case Process(env) =>
      ProcessTellsFields(s, env, t);
      ProcessTellsLoop(s, env, t);
    case ServiceSends(out) => OutsGrow(s.f.written, out);
    case _ =>
  }

  lemma {:induction false} RunTold(s: State, steps: seq<Step>, t: State)
    requires AuthInv(s) && FieldsTold(s) && LoopTold(s) && Run(s, steps) == Some(t)
    ensures FieldsTold(t) && LoopTold(t)
    decreases |steps|
  {
    hide AuthInv, FieldsTold, LoopTold, Next;
    if steps == [] {
    } else {
      var m := Next(s, steps[0]).value;
      AuthKept(s, steps[0], m);
      StepTold(s, steps[0], m);
      RunTold(m, steps[1..], t);
    }
  }

  lemma AllTold(steps: seq<Step>, s: State)
    requires Run(Init(), steps) == Some(s)
    ensures FieldsTold(s) && LoopTold(s)
  {
    hide Run;
    RunTold(Init(), steps, s);
  }

  // ----------------------------------------------------------------- what it means

  /**
   * In every run the packets that the loop itself has written are exactly the answers to the packets it has handled,
   * in order, and limit, challenge and counters are what those packets say.
   */
  lemma RepliesAreTold(steps: seq<Step>, s: State)
    requires Run(Init(), steps) == Some(s)
    ensures LoopOuts(s.f.written) == Replies(s.handled)
    ensures s.f.maxPayload == LimitOf(s.handled) && s.f.token == TokenOf(s.handled)
    ensures s.f.syncDraws == SyncsIn(s.handled) && s.f.idDraws == DrawsIn(s.handled)
  {
    hide Run, LimitOf, TokenOf, SyncsIn, DrawsIn, Replies, LoopOuts, LoopTold;
    AllTold(steps, s);
  }

  /** A fatal packet is the last one handled and stops the loop; without one, only an OPEN or a service can have stopped it. */
  lemma StopsAtFatal(steps: seq<Step>, s: State)
    requires Run(Init(), steps) == Some(s)
    ensures forall k :: 0 <= k < |s.handled| && Fatal(s.handled[..k], s.handled[k]) ==> k == |s.handled| - 1 && s.loop.Stopped?
    ensures s.loop.Stopped? ==>
              && s.handled != []
              && var n := |s.handled| - 1;
              Fatal(s.handled[..n], s.handled[n]) || s.handled[n].packet.command == A_OPEN || IsServicePacket(s.handled[n].packet)
  {
    hide Run, Fatal, FieldsTold;
    AllTold(steps, s);
  }

  /** The OPEN whose id is drawn, or the packet inside its service, is the last one handled. */
  lemma LastIsInHand(steps: seq<Step>, s: State)
    requires Run(Init(), steps) == Some(s)
    ensures s.loop.Drawn? || s.loop.InService? ==> s.handled != []
    ensures s.loop.Drawn? ==>
              var p := s.handled[|s.handled| - 1].packet;
              p.command == A_OPEN && p.arg0 == s.loop.remoteId && |p.data| >= 2
    ensures s.loop.InService? ==> s.handled[|s.handled| - 1].packet == s.loop.packet
  {
    hide Run, Fatal, FieldsTold;
    AllTold(steps, s);
  }

  /**
   * A packet for a stream neither stops the loop of an authorized client nor changes the fields: it goes to the service
   * with its id, and is dropped when there is none.
   */
  lemma ServicePacketsPass(s: State, env: Env, t: State)
    requires s.loop.Admitted? && IsServicePacket(s.loop.packet) && s.f.authorized && Next(s, Process(env)) == Some(t)
    ensures t.f == s.f
    ensures t.loop == if s.loop.packet.arg1 in s.f.table then InService(s.loop.packet) else Reading
  {
  }

  lemma QuietStep(s: State, step: Step, t: State)
    requires s.f.ended && Next(s, step) == Some(t)
    ensures t.f.ended && t.f.written == s.f.written
  {
    hide HandledBy, DrawOf;
    if step.Process? && s.loop.packet.command != A_OPEN {
      HandledEffect(s.f, s.loop.packet, step.env);
    }
  }

  /** Nothing is written to a socket that has ended. */
  lemma {:induction false} QuietAfterEnd(s: State, more: seq<Step>, t: State)
    requires s.f.ended && Run(s, more) == Some(t)
    ensures t.f.ended && t.f.written == s.f.written
    decreases |more|
  {
    hide Next;
    if more == [] {
    } else {
      QuietStep(s, more[0], Next(s, more[0]).value);
      QuietAfterEnd(Next(s, more[0]).value, more[1..], t);
    }
  }

  /** The packets that the reader has handed to the loop. */
  function Arrived(steps: seq<Step>): seq<Packet> {
    if steps == [] then []
    else
      var last := steps[|steps| - 1];
      Arrived(steps[..|steps| - 1]) + if last.Admit? then [last.packet] else []
  }

  function PacketsOf(h: seq<Handled>): seq<Packet> {
    seq(|h|, k requires 0 <= k < |h| => h[k].packet)
  }

  /** The packets handled and the one admitted. */
  function Taken(s: State): seq<Packet> {
    PacketsOf(s.handled) + if s.loop.Admitted? then [s.loop.packet] else []
  }

  lemma ArrivedGrows(steps: seq<Step>, step: Step)
    ensures Arrived(steps + [step]) == Arrived(steps) + if step.Admit? then [step.packet] else []
  {
    assert (steps + [step])[..|steps|] == steps;
  }

  lemma StepTakes(s: State, step: Step, t: State)
    requires Next(s, step) == Some(t)
    ensures Taken(t) == Taken(s) + (if step.Admit? && !s.f.ended then [step.packet] else [])
    ensures s.f.ended ==> t.f.ended
  {
    hide HandledBy, DrawOf;
    if step.Process? {
      var e := Handled(s.loop.packet, step.env, s.f.ended);
      assert t.handled == s.handled + [e];
      assert PacketsOf(t.handled) == PacketsOf(s.handled) + [s.loop.packet];
      if s.loop.packet.command != A_OPEN {
        HandledEffect(s.f, s.loop.packet, step.env);
      }
    }
  }

  lemma {:induction false} RunTakes(done: seq<Step>, s: State, more: seq<Step>, t: State)
    requires Taken(s) <= Arrived(done) && (!s.f.ended ==> Taken(s) == Arrived(done)) && Run(s, more) == Some(t)
    ensures Taken(t) <= Arrived(done + more) && (!t.f.ended ==> Taken(t) == Arrived(done + more))
    decreases |more|
  {
    hide Next, Arrived, Taken;
    if more == [] {
      assert done + more == done;
    } else {
      var m := Next(s, more[0]).value;
      StepTakes(s, more[0], m);
      ArrivedGrows(done, more[0]);
      RunTakes(done + [more[0]], m, more[1..], t);
      assert done + [more[0]] + more[1..] == done + more;
    }
  }

  /** Packets are handled in the order of their arrival, none is left out until the socket ends, and none follows after a gap. */
  lemma HandledInOrder(steps: seq<Step>, s: State)
    requires Run(Init(), steps) == Some(s)
    ensures Taken(s) <= Arrived(steps)
    ensures !s.f.ended ==> Taken(s) == Arrived(steps)
  {
    hide Run;
    RunTakes([], Init(), steps, s);
    assert [] + steps == steps;
  }
}
