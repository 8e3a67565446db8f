/** The connection state machine of the bridge: handshake, authentication and dispatch (tcpusb/socket.go). */
module Connection {
  import opened Bytes
  import opened Packets
  import opened Wrappers
  import opened IdTable

  const UINT16_MAX: u32 := 0xffff
  const AUTH_TOKEN: u32 := 1
  const AUTH_SIGNATURE: u32 := 2
  const AUTH_RSAPUBLICKEY: u32 := 3
  /** Swap32 of protocol version 1. */
  const SWAPPED_VERSION: u32 := 0x0100_0000

  datatype Error =
    | NoError | Unauthorized | AuthFailed | UnknownCommand | UnknownAuth
    | EmptyName | ServiceExists | WriteFailed | NoRandom | ServiceFailed

  /** A packet handed to Socket.Write. */
  datatype Out = Out(command: u32, arg0: u32, arg1: u32, data: seq<byte>)

  /** A challenge of TOKEN_LENGTH bytes. */
  type Token = s: seq<byte> | |s| == 20 witness seq(20, _ => 0)

  /** What the world answers while one packet is handled. */
  datatype Env = Env(
    token: Token, randomOk: bool,      // rand.Read
    accepted: bool,                    // the auth handler
    writeOk: bool,                     // the connection, in Socket.Write
    serviceOk: bool,                   // the service the packet is forwarded to
    deviceId: seq<byte>)

  /** Everything goes well. */
  const PLAIN_ENV: Env := Env(seq(20, _ => 0), true, true, true, true, [])

  /** A packet that was handled, what the world answered meanwhile, and whether the socket had ended by then. */
  datatype Handled = Handled(packet: Packet, env: Env, late: bool)

  /** The fields of a socket.  An entry of the table is the remote id of the service. */
  datatype Fields = Fields(
    maxPayload: u32,
    authorized: bool,
    token: seq<byte>,
    signature: seq<byte>,
    syncDraws: nat,
    idDraws: nat,
    table: map<u32, u32>,
    written: seq<Out>,
    ended: bool)

  const NEW_FIELDS: Fields := Fields(4096, false, [], [], 0, 0, map[], [], false)

  /** Socket.Write refuses once the socket has ended. */
  function Wrote(f: Fields, out: Out, env: Env): (Fields, Error) {
    if f.ended then (f, WriteFailed)
    else (f.(written := f.written + [out]), if env.writeOk then NoError else WriteFailed)
  }

  function Synced(f: Fields, env: Env): (Fields, Error) {
    Wrote(f.(syncDraws := f.syncDraws + 1), Out(A_SYNC, 1, DrawOf(UINT32_MAX, f.syncDraws + 1), []), env)
  }

  function Connected(f: Fields, p: Packet, env: Env): (Fields, Error) {
    var g := f.(maxPayload := if p.arg1 < UINT16_MAX then p.arg1 else UINT16_MAX);
    if !env.randomOk then (g, NoRandom)
    else Wrote(g.(token := env.token), Out(A_AUTH, AUTH_TOKEN, 0, env.token), env)
  }

  function Authenticated(f: Fields, p: Packet, env: Env): (Fields, Error) {
    if p.arg0 == AUTH_SIGNATURE then
      var g := if f.signature == [] then f.(signature := p.data) else f;
      Wrote(g, Out(A_AUTH, AUTH_TOKEN, 0, g.token), env)
    else if p.arg0 == AUTH_RSAPUBLICKEY then
      if f.signature == [] || |p.data| < 2 || !env.accepted then (f, AuthFailed)
      else Wrote(f.(authorized := true), Out(A_CNXN, SWAPPED_VERSION, f.maxPayload, env.deviceId), env)
    else (f, UnknownAuth)
  }

  /** The part of an OPEN up to the allocation of an id; the second result says whether an insertion follows. */
  function OpenBegun(f: Fields, p: Packet): (Fields, bool, Error) {
    if !f.authorized then (f, false, Unauthorized)
    else
      var g := f.(idDraws := f.idDraws + 1);
      if |p.data| < 2 then (g, false, EmptyName) else (g, true, NoError)
  }

  /** The insertion of a service under the id of draw number k. */
  function OpenInserted(f: Fields, k: nat, remoteId: u32): (Fields, Error) {
    var id := DrawOf(UINT32_MAX, k);
    if id in f.table then (f, ServiceExists) else (f.(table := f.table[id := remoteId]), NoError)
  }

  function Forwarded(f: Fields, p: Packet, env: Env): (Fields, Error) {
    if !f.authorized then (f, Unauthorized)
    else if p.arg1 in f.table && !env.serviceOk then (f, ServiceFailed)
    else (f, NoError)
  }

  predicate IsServiceCommand(command: u32) {
    command == A_OKAY || command == A_WRTE || command == A_CLSE
  }

  predicate IsServicePacket(p: Packet) {
    IsServiceCommand(p.command)
  }

  /** One packet past the test of `ended`, when nothing runs in between. */
  function HandledBy(f: Fields, p: Packet, env: Env): (Fields, Error) {
    if p.command == A_SYNC then Synced(f, env)
    else if p.command == A_CNXN then Connected(f, p, env)
    else if p.command == A_OPEN then
      var (g, goOn, err) := OpenBegun(f, p);
      if goOn then OpenInserted(g, g.idDraws, p.arg0) else (g, err)
    else if IsServicePacket(p) then Forwarded(f, p, env)
    else if p.command == A_AUTH then Authenticated(f, p, env)
    else (f, UnknownCommand)
  }

  class Socket {
    var maxPayload: u32
    var authorized: bool
    var token: seq<byte>
    var signature: seq<byte>
    var ended: bool
    const syncToken: RollingCounter
    const remoteID: RollingCounter
    const services: ServiceMap<u32>
    var written: seq<Out>
    ghost const Repr: set<object>

    ghost predicate Valid()
      reads this, Repr
    {
      && Repr == {this, syncToken, remoteID, services}
      && syncToken != remoteID
      && syncToken.Valid() && remoteID.Valid() && services.Valid()
      && syncToken.max == UINT32_MAX && remoteID.max == UINT32_MAX
    }

    ghost function View(): Fields
      requires Valid()
      reads this, Repr
    {
      Fields(maxPayload, authorized, token, signature, syncToken.draws, remoteID.draws, services.services, written, ended)
    }

    constructor ()
      ensures Valid() && !ended && fresh(Repr)
      ensures View() == NEW_FIELDS
    {
      maxPayload, authorized, token, signature, ended, written := 4096, false, [], [], false, [];
      var a := new RollingCounter(UINT32_MAX);
      var b := new RollingCounter(UINT32_MAX);
      var m := new ServiceMap<u32>();
      syncToken, remoteID, services := a, b, m;
      Repr := {this, a, b, m};
    }

    method Write(out: Out, env: Env) returns (err: Error)
      requires Valid()
      modifies this`written
      ensures Valid() && (View(), err) == Wrote(old(View()), out, env)
    {
      if ended {
        return WriteFailed;
      }
      written := written + [out];
      return if env.writeOk then NoError else WriteFailed;
    }

    method HandleSyncPacket(env: Env) returns (err: Error)
      requires Valid()
      modifies Repr
      ensures Valid() && (View(), err) == Synced(old(View()), env)
    {
      var id := syncToken.Next();
      err := Write(Out(A_SYNC, 1, id, []), env);
    }

    method HandleConnectionPacket(p: Packet, env: Env) returns (err: Error)
      requires Valid()
      modifies Repr
      ensures Valid() && (View(), err) == Connected(old(View()), p, env)
    {
      if p.arg1 < UINT16_MAX {
        maxPayload := p.arg1;
      } else {
        maxPayload := UINT16_MAX;
      }
      if !env.randomOk {
        return NoRandom;
      }
      token := env.token;
      err := Write(Out(A_AUTH, AUTH_TOKEN, 0, token), env);
    }

    method HandleAuthPacket(p: Packet, env: Env) returns (err: Error)
      requires Valid()
      modifies Repr
      ensures Valid() && (View(), err) == Authenticated(old(View()), p, env)
    {
      if p.arg0 == AUTH_SIGNATURE {
        if signature == [] {
          signature := p.data;
        }
        err := Write(Out(A_AUTH, AUTH_TOKEN, 0, token), env);
      } else if p.arg0 == AUTH_RSAPUBLICKEY {
        if signature == [] {
          return AuthFailed;
        }
        if |p.data| < 2 {
          return AuthFailed;
        }
        if !env.accepted {
          return AuthFailed;
        }
        authorized := true;
        err := Write(Out(A_CNXN, SWAPPED_VERSION, maxPayload, env.deviceId), env);
      } else {
        return UnknownAuth;
      }
    }

    method HandleOpenPacket(p: Packet) returns (err: Error)
      requires Valid()
      modifies Repr
      ensures Valid()
      ensures (View(), err) == var (g, goOn, e) := OpenBegun(old(View()), p);
                               if goOn then OpenInserted(g, g.idDraws, p.arg0) else (g, e)
    {
      if !authorized {
        return Unauthorized;
      }
      var localID := remoteID.Next();
      if |p.data| < 2 {
        return EmptyName;
      }
      var ok := services.Insert(localID, p.arg0);
      return if ok then NoError else ServiceExists;
    }

    method ForwardServicePacket(p: Packet, env: Env) returns (err: Error)
      requires Valid()
      ensures (View(), err) == Forwarded(View(), p, env)
    {
      if !authorized {
        return Unauthorized;
      }
      var service := services.Get(p.arg1);
      if service.Some? && !env.serviceOk {
        return ServiceFailed;
      }
      return NoError;
    }

    method Handle(p: Packet, env: Env) returns (err: Error)
      requires Valid()
      modifies Repr
      ensures Valid() && ended == old(ended)
      ensures (View(), err) == if old(ended) then (old(View()), NoError) else HandledBy(old(View()), p, env)
    {
      if ended {
        return NoError;
      }
      if p.command == A_SYNC {
        err := HandleSyncPacket(env);
      } else if p.command == A_CNXN {
        err := HandleConnectionPacket(p, env);
      } else if p.command == A_OPEN {
        err := HandleOpenPacket(p);
      } else if p.command == A_OKAY || p.command == A_WRTE || p.command == A_CLSE {
        err := ForwardServicePacket(p, env);
      } else if p.command == A_AUTH {
        err := HandleAuthPacket(p, env);
      } else {
        return UnknownCommand;
      }
    }

    method End()
      requires Valid()
      modifies Repr
      ensures Valid() && ended
      ensures View() == if old(ended) then old(View()) else old(View()).(ended := true, table := map[])
    {
      if ended {
        return;
      }
      ended := true;
      var _ := services.End();
    }
  }

  // --------------------------------------------------- every run of a connection

  /** Where the packet loop stands between two accesses that other goroutines can come between. */
  datatype Loop =
    | Reading                     // before the test of `ended`
    | Admitted(packet: Packet)    // past that test
    | Drawn(remoteId: u32)        // an OPEN whose id is drawn and whose service is not inserted
    | InService(packet: Packet)   // inside Service.Handle, the service having been looked up
    | Stopped

  /** Socket.End: the flag, then ServiceMap.End, which holds the mutex of the table while it ends the services. */
  datatype Sweep = NotDue | Due | Holding | Done

  /**
   * The fields, plus what the proofs look back on: the draw that gave each live service its id, the packets
   * handled so far, and whether any service was ever created.
   */
  datatype State = State(
    f: Fields,
    loop: Loop,
    sweep: Sweep,
    holders: map<u32, nat>,
    count: int,
    created: bool,
    handled: seq<Handled>)

  datatype Step =
    | Admit(packet: Packet)        // the packet loop tests `ended`
    | Process(env: Env)            // and handles the packet, up to the insertion of an OPEN or to Service.Handle
    | Insert                       // ServiceMap.Insert by the packet loop
    | Return(ok: bool)             // Service.Handle returns to the packet loop
    | Remove(id: u32)              // ServiceMap.Remove by some opener
    | EndSocket                    // Socket.End, from anywhere, sets the flag
    | SweepBegin | SweepEnd        // ServiceMap.End
    | ServiceSends(out: Out)       // a service hands a packet to Socket.Write

  function Init(): State {
    State(NEW_FIELDS, Reading, NotDue, map[], 0, false, [])
  }

  function Processed(s: State, p: Packet, env: Env): Option<State> {
    var t := s.(handled := s.handled + [Handled(p, env, s.f.ended)]);
    if p.command == A_OPEN then
      var (g, goOn, _) := OpenBegun(s.f, p);
      Some(t.(f := g, loop := if goOn then Drawn(p.arg0) else Stopped))
    else if IsServicePacket(p) && s.f.authorized && s.sweep.Holding? then None
    else if IsServicePacket(p) && s.f.authorized && p.arg1 in s.f.table then Some(t.(loop := InService(p)))
    else
      var (g, err) := HandledBy(s.f, p, env);
      Some(t.(f := g, loop := if err.NoError? then Reading else Stopped))
  }

  function Inserted(s: State, remoteId: u32): State {
    var k := s.f.idDraws;
    var (g, err) := OpenInserted(s.f, k, remoteId);
    if err.NoError? then
      s.(f := g, loop := Reading, created := true, count := s.count + 1,
         holders := s.holders[DrawOf(UINT32_MAX, k) := k])
    else s.(loop := Stopped)
  }

  function Removed(s: State, id: u32): State {
    if id !in s.f.table then s
    else s.(f := s.f.(table := s.f.table - {id}), holders := s.holders - {id}, count := s.count - 1)
  }

  function Sent(s: State, out: Out): State {
    if s.f.ended then s else s.(f := s.f.(written := s.f.written + [out]))
  }

  function Next(s: State, step: Step): Option<State> {
    match step
    case Admit(p) => if s.loop.Reading? then Some(if s.f.ended then s else s.(loop := Admitted(p))) else None
    case Process(env) => if s.loop.Admitted? then Processed(s, s.loop.packet, env) else None
    case Insert => if s.loop.Drawn? && !s.sweep.Holding? then Some(Inserted(s, s.loop.remoteId)) else None
    case Return(ok) => if s.loop.InService? then Some(s.(loop := if ok then Reading else Stopped)) else None
    case Remove(id) => if s.sweep.Holding? then None else Some(Removed(s, id))
    case EndSocket => Some(if s.f.ended then s else s.(f := s.f.(ended := true), sweep := Due))
    case SweepBegin => if s.sweep.Due? then Some(s.(sweep := Holding)) else None
    case SweepEnd =>
      if s.sweep.Holding? then Some(s.(f := s.f.(table := map[]), holders := map[], count := 0, sweep := Done)) else None
    case ServiceSends(out) =>
      if s.created && IsServiceCommand(out.command) then Some(Sent(s, out)) else None
  }

  function Run(s: State, steps: seq<Step>): Option<State>
    decreases |steps|
  {
    if steps == [] then Some(s)
    else
      match Next(s, steps[0])
      case None => None
      case Some(t) => Run(t, steps[1..])
  }

  // ----------------------------------------------------------------- invariants

  predicate IsSignature(h: Handled) {
    h.packet.command == A_AUTH && h.packet.arg0 == AUTH_SIGNATURE && h.packet.data != []
  }

  predicate IsAcceptedKey(h: Handled) {
    h.packet.command == A_AUTH && h.packet.arg0 == AUTH_RSAPUBLICKEY && |h.packet.data| >= 2 && h.env.accepted
  }

  predicate SawSignature(handled: seq<Handled>) {
    exists i :: 0 <= i < |handled| && IsSignature(handled[i])
  }

  /** A signature was handled and, after it, a public key that the auth handler accepted. */
  predicate SawAuthentication(handled: seq<Handled>) {
    exists j :: 0 <= j < |handled| && IsAcceptedKey(handled[j]) && SawSignature(handled[..j])
  }

  predicate OnlyHandshake(written: seq<Out>) {
    forall i :: 0 <= i < |written| ==> written[i].command == A_SYNC || written[i].command == A_AUTH
  }

  predicate AuthInv(s: State) {
    && s.f.maxPayload <= UINT16_MAX
    && (s.f.signature != [] <==> SawSignature(s.handled))
    && (s.f.authorized <==> SawAuthentication(s.handled))
    && (!s.f.authorized ==>
        OnlyHandshake(s.f.written) && s.f.table == map[] && !s.loop.Drawn? && !s.loop.InService? && !s.created)
    && (s.f.table != map[] ==> s.created)
  }

  predicate IdInv(s: State) {
    && (s.f.ended <==> !s.sweep.NotDue?)
    && s.holders.Keys == s.f.table.Keys
    && s.count == |s.f.table|
    && (forall id :: id in s.holders ==> DrawOf(UINT32_MAX, s.holders[id]) == id && s.holders[id] <= s.f.idDraws)
    && (s.loop.Drawn? ==> forall id :: id in s.holders ==> s.holders[id] < s.f.idDraws)
  }

  lemma HistoryGrows(handled: seq<Handled>, h: Handled)
    ensures SawSignature(handled + [h]) <==> SawSignature(handled) || IsSignature(h)
    ensures SawAuthentication(handled + [h]) <==> SawAuthentication(handled) || (IsAcceptedKey(h) && SawSignature(handled))
  {
    var more := handled + [h];
    assert more[|handled|] == h && more[..|handled|] == handled;
    assert forall j :: 0 <= j < |handled| ==> more[j] == handled[j] && more[..j] == handled[..j];
    if SawAuthentication(handled) {
      var j :| 0 <= j < |handled| && IsAcceptedKey(handled[j]) && SawSignature(handled[..j]);
      assert IsAcceptedKey(more[j]) && SawSignature(more[..j]);
    }
  }

  /** What a packet other than OPEN does to the fields the invariants speak of. */
  lemma HandledEffect(f: Fields, p: Packet, env: Env)
    requires p.command != A_OPEN
    ensures var g, h := HandledBy(f, p, env).0, Handled(p, env, f.ended);
            && g.table == f.table && g.idDraws == f.idDraws && g.ended == f.ended
            && g.maxPayload == (if p.command != A_CNXN then f.maxPayload else Min(p.arg1, UINT16_MAX))
            && (g.signature != [] <==> f.signature != [] || IsSignature(h))
            && (g.authorized <==> f.authorized || (IsAcceptedKey(h) && f.signature != []))
            && (!g.authorized && OnlyHandshake(f.written) ==> OnlyHandshake(g.written))
            && (f.ended ==> g.written == f.written)
  {
    hide DrawOf, OnlyHandshake;
    if p.command == A_SYNC {
      HandshakeGrows(f.written, Out(A_SYNC, 1, DrawOf(UINT32_MAX, f.syncDraws + 1), []));
    } else if p.command == A_CNXN {
      HandshakeGrows(f.written, Out(A_AUTH, AUTH_TOKEN, 0, env.token));
    } else if p.command == A_AUTH {
      HandshakeGrows(f.written, Out(A_AUTH, AUTH_TOKEN, 0, f.token));
    }
  }

  lemma HandshakeGrows(written: seq<Out>, out: Out)
    ensures OnlyHandshake(written + [out]) <==> OnlyHandshake(written) && (out.command == A_SYNC || out.command == A_AUTH)
  {
    var more := written + [out];
    assert more[|written|] == out;
    assert forall i :: 0 <= i < |written| ==> more[i] == written[i];
  }

  lemma AuthKept(s: State, step: Step, t: State)
    requires AuthInv(s) && Next(s, step) == Some(t)
    ensures AuthInv(t)
    ensures s.f.authorized ==> t.f.authorized
  {
    hide SawSignature, SawAuthentication, DrawOf, HandledBy;
    if step.Process? {
      if s.loop.packet.command != A_OPEN {
        HandledEffect(s.f, s.loop.packet, step.env);
      }
      HistoryGrows(s.handled, Handled(s.loop.packet, step.env, s.f.ended));
    }
  }

  lemma ProcessKeepsIds(s: State, step: Step, t: State)
    requires IdInv(s) && step.Process? && Next(s, step) == Some(t)
    ensures IdInv(t)
  {
    hide DrawOf, HandledBy;
    if s.loop.packet.command != A_OPEN {
      HandledEffect(s.f, s.loop.packet, step.env);
    }
  }

  lemma InsertKeepsIds(s: State, t: State)
    requires IdInv(s) && Next(s, Insert) == Some(t)
    ensures IdInv(t)
  {
    hide DrawOf;
    var id := DrawOf(UINT32_MAX, s.f.idDraws);
    if id !in s.f.table {
      assert t.f.table.Keys == s.f.table.Keys + {id};
      assert t.holders.Keys == s.holders.Keys + {id};
      assert |t.f.table| == |t.f.table.Keys| && |s.f.table| == |s.f.table.Keys|;
    }
  }

  lemma RemoveKeepsIds(s: State, step: Step, t: State)
    requires IdInv(s) && step.Remove? && Next(s, step) == Some(t)
    ensures IdInv(t)
  {
    hide DrawOf;
    if step.id in s.f.table {
      assert t.f.table.Keys == s.f.table.Keys - {step.id};
      assert t.holders.Keys == s.holders.Keys - {step.id};
      assert |t.f.table| == |t.f.table.Keys| && |s.f.table| == |s.f.table.Keys|;
    }
  }

  lemma IdKept(s: State, step: Step, t: State)
    requires IdInv(s) && Next(s, step) == Some(t)
    ensures IdInv(t)
  {
    hide DrawOf, HandledBy, OpenBegun, OpenInserted, Processed, Inserted, Removed;
    match step
    case Process(_) => ProcessKeepsIds(s, step, t);
    case Insert => InsertKeepsIds(s, t);
    case Remove(_) => RemoveKeepsIds(s, step, t);
    case _ =>
  }

  lemma {:induction false} RunKeeps(s: State, steps: seq<Step>, t: State)
    requires AuthInv(s) && IdInv(s) && Run(s, steps) == Some(t)
    ensures AuthInv(t) && IdInv(t)
    ensures s.f.authorized ==> t.f.authorized
    decreases |steps|
  {
    hide AuthInv, IdInv, Next;
    if steps == [] {
    } else {
      var m := Next(s, steps[0]).value;
      AuthKept(s, steps[0], m);
      IdKept(s, steps[0], m);
      RunKeeps(m, steps[1..], t);
    }
  }

  // -------------------------------------------------------------- what it means

  /**
   * Authorization is exactly the presence in the history of a signature followed by an accepted key; until then
   * no service exists and only SYNC and AUTH packets are written.
   */
  lemma ConnectionHistory(steps: seq<Step>, s: State)
    requires Run(Init(), steps) == Some(s)
    ensures s.f.authorized <==> SawAuthentication(s.handled)
    ensures !SawAuthentication(s.handled) ==> s.f.table == map[] && OnlyHandshake(s.f.written)
    ensures s.f.maxPayload <= 65535
  {
    hide Run;
    RunKeeps(Init(), steps, s);
  }

  /** An authorized connection stays authorized. */
  lemma AuthorizedForever(steps: seq<Step>, s: State, more: seq<Step>, t: State)
    requires Run(Init(), steps) == Some(s) && Run(s, more) == Some(t) && s.f.authorized
    ensures t.f.authorized
  {
    hide Run, Next;
    RunKeeps(Init(), steps, s);
    RunKeeps(s, more, t);
  }

  /** An OPEN meets ErrServiceExists only after at least 2^32 - 1 draws since the holder got its id. */
  lemma IdsLastFullTurn(steps: seq<Step>, s: State)
    requires Run(Init(), steps) == Some(s)
    ensures s.count == |s.f.table|
    ensures s.loop.Drawn? && OpenInserted(s.f, s.f.idDraws, s.loop.remoteId).1.ServiceExists? ==>
              var id := DrawOf(UINT32_MAX, s.f.idDraws);
              id in s.holders && s.f.idDraws - s.holders[id] >= UINT32_MAX
  {
    hide Run, DrawOf;
    RunKeeps(Init(), steps, s);
    var id := DrawOf(UINT32_MAX, s.f.idDraws);
    if s.loop.Drawn? && id in s.f.table {
      assert id in s.holders.Keys;
      DrawsDistinct(UINT32_MAX, s.holders[id], s.f.idDraws);
    }
  }

  // ---------------------------------------------------------------- after the end

  /** An OPEN that no test of `ended` stops any more. */
  predicate OpenUnderWay(s: State) {
    s.loop.Drawn? ||
    (s.loop.Admitted? && s.loop.packet.command == A_OPEN && s.f.authorized && |s.loop.packet.data| >= 2)
  }

  /** The sweep, if it is over, left the table empty. */
  predicate Emptied(s: State) {
    s.sweep.Done? ==> s.f.table == map[]
  }

  predicate EmptiedAfter(s: State, more: seq<Step>) {
    Run(s, more).Some? ==> Emptied(Run(s, more).value)
  }

  lemma EndedStepKeeps(s: State, step: Step, t: State)
    requires s.f.ended && !s.sweep.NotDue? && !OpenUnderWay(s) && Emptied(s) && Next(s, step) == Some(t)
    ensures t.f.ended && !t.sweep.NotDue? && !OpenUnderWay(t) && Emptied(t)
  {
    hide HandledBy, OpenInserted, DrawOf;
    if step.Process? && s.loop.packet.command != A_OPEN {
      HandledEffect(s.f, s.loop.packet, step.env);
    }
  }

  lemma {:induction false} EndedStaysEmpty(s: State, more: seq<Step>, t: State)
    requires s.f.ended && !s.sweep.NotDue? && !OpenUnderWay(s) && Emptied(s) && Run(s, more) == Some(t)
    ensures Emptied(t)
    decreases |more|
  {
    hide Next, OpenUnderWay, Emptied;
    if more == [] {
    } else {
      EndedStepKeeps(s, more[0], Next(s, more[0]).value);
      EndedStaysEmpty(Next(s, more[0]).value, more[1..], t);
    }
  }

  lemma EmptyRun(s: State)
    ensures Run(s, []) == Some(s)
  {
  }

  lemma {:induction false} Then(s: State, steps: seq<Step>, t: State, step: Step)
    requires Run(s, steps) == Some(t)
    ensures Run(s, steps + [step]) == Next(t, step)
    decreases |steps|
  {
    hide Next;
    if steps == [] {
      assert [step][1..] == [];
    } else {
      Then(Next(s, steps[0]).value, steps[1..], t, step);
      assert (steps + [step])[1..] == steps[1..] + [step];
    }
  }

  lemma Extend(s: State, steps: seq<Step>, t: State, step: Step) returns (more: seq<Step>, u: State)
    requires Run(s, steps) == Some(t) && Next(t, step).Some?
    ensures Run(s, more) == Some(u) && Next(t, step) == Some(u)
  {
    hide Run, Next;
    more, u := steps + [step], Next(t, step).value;
    Then(s, steps, t, step);
  }

  /** Whoever ends the socket finishes the sweep. */
  lemma FinishSweep(s: State) returns (more: seq<Step>, t: State)
    requires s.f.ended && !s.sweep.NotDue? && Emptied(s)
    ensures Run(s, more) == Some(t)
    ensures t.f == s.f.(table := map[]) && t.loop == s.loop && t.sweep.Done?
  {
    hide Run;
    more, t := [], s;
    EmptyRun(s);
    if t.sweep.Due? {
      more, t := Extend(s, more, t, SweepBegin);
    }
    if t.sweep.Holding? {
      more, t := Extend(s, more, t, SweepEnd);
    }
  }

  /** An OPEN that is under way can put its service into the table after the sweep. */
  lemma OpenComesLate(s: State, env: Env) returns (more: seq<Step>, t: State)
    requires s.f.ended && !s.sweep.NotDue? && Emptied(s) && OpenUnderWay(s)
    ensures Run(s, more) == Some(t) && t.f.ended && t.sweep.Done? && t.f.table != map[]
  {
    hide Run, DrawOf;
    more, t := FinishSweep(s);
    if t.loop.Admitted? {
      more, t := Extend(s, more, t, Process(env));
    }
    more, t := Extend(s, more, t, Insert);
    assert DrawOf(UINT32_MAX, t.f.idDraws) in t.f.table;
  }

  /**
   * Ending a socket leaves its table empty for good exactly when no OPEN is past the test of `ended` on its way into
   * the table.  That holds of the moment the flag is set as of the moment the table is emptied.
   */
  lemma EndIsFinal(steps: seq<Step>, s: State, step: Step, t: State)
    requires Run(Init(), steps) == Some(s) && Next(s, step) == Some(t)
    requires (step.EndSocket? && !s.f.ended) || step.SweepEnd?
    ensures !OpenUnderWay(s) <==> forall more :: EmptiedAfter(t, more)
  {
    hide Run;
    RunKeeps(Init(), steps, s);
    if OpenUnderWay(s) {
      var more, u := OpenComesLate(t, PLAIN_ENV);
      assert !EmptiedAfter(t, more);
    } else {
      forall more
        ensures EmptiedAfter(t, more)
      {
        if Run(t, more).Some? {
          EndedStaysEmpty(t, more, Run(t, more).value);
        }
      }
    }
  }

  /** A client that signs and sends a key which the auth handler accepts. */
  lemma Authorize(signature: Packet, key: Packet, env: Env) returns (steps: seq<Step>, s: State)
    requires IsSignature(Handled(signature, env, false)) && IsAcceptedKey(Handled(key, env, false)) && env.writeOk
    ensures Run(Init(), steps) == Some(s)
    ensures s.f.authorized && !s.f.ended && s.sweep.NotDue? && s.loop.Reading? && s.f.table == map[]
  {
    hide Run, DrawOf;
    steps, s := [], Init();
    EmptyRun(s);
    steps, s := Extend(Init(), steps, s, Admit(signature));
    steps, s := Extend(Init(), steps, s, Process(env));
    steps, s := Extend(Init(), steps, s, Admit(key));
    steps, s := Extend(Init(), steps, s, Process(env));
  }

  /** It does happen, whether the id of the OPEN was drawn before the end or not. */
  lemma LateOpenHappens(signature: Packet, key: Packet, open: Packet, env: Env, drawn: bool) returns (steps: seq<Step>, s: State)
    requires IsSignature(Handled(signature, env, false)) && IsAcceptedKey(Handled(key, env, false)) && env.writeOk
    requires open.command == A_OPEN && |open.data| >= 2
    ensures Run(Init(), steps) == Some(s) && s.f.ended && s.sweep.Done? && s.f.table != map[]
  {
    hide Run, DrawOf;
    steps, s := Authorize(signature, key, env);
    steps, s := Extend(Init(), steps, s, Admit(open));
    if drawn {
      steps, s := Extend(Init(), steps, s, Process(env));
    }
    steps, s := Extend(Init(), steps, s, EndSocket);
    steps, s := Extend(Init(), steps, s, SweepBegin);
    steps, s := Extend(Init(), steps, s, SweepEnd);
    if !drawn {
      steps, s := Extend(Init(), steps, s, Process(env));
    }
    steps, s := Extend(Init(), steps, s, Insert);
    assert DrawOf(UINT32_MAX, s.f.idDraws) in s.f.table;
  }

  lemma SweptStepKeeps(s: State, step: Step, t: State, id: u32)
    requires s.f.ended && s.sweep.Done? && id in s.f.table && Next(s, step) == Some(t) && step != Remove(id)
    ensures t.f.ended && t.sweep.Done? && id in t.f.table
  {
    hide HandledBy, DrawOf;
    if step.Process? && s.loop.packet.command != A_OPEN {
      HandledEffect(s.f, s.loop.packet, step.env);
    }
  }

  /** Such a late service stays in the table until its own opener removes it: the socket never ends it. */
  lemma {:induction false} LateServiceStays(s: State, id: u32, more: seq<Step>, t: State)
    requires s.f.ended && s.sweep.Done? && id in s.f.table
    requires Run(s, more) == Some(t) && Remove(id) !in more
    ensures id in t.f.table && SweepBegin !in more && SweepEnd !in more
    decreases |more|
  {
    hide Next;
    if more == [] {
    } else {
      var m := Next(s, more[0]).value;
      SweptStepKeeps(s, more[0], m, id);
      NoSecondSweep(s, more[0]);
      LateServiceStays(m, id, more[1..], t);
    }
  }

  lemma NoSecondSweep(s: State, step: Step)
    requires s.sweep.Done? && Next(s, step).Some?
    ensures step != SweepBegin && step != SweepEnd
  {
  }

  ghost predicate Reachable(s: State) {
    exists steps :: Run(Init(), steps) == Some(s)
  }

  lemma ReachableStart()
    ensures Reachable(Init())
  {
    EmptyRun(Init());
  }

  lemma ReachableStep(s: State, step: Step, t: State)
    requires Reachable(s) && Next(s, step) == Some(t)
    ensures Reachable(t)
  {
    hide Run, Next;
    var steps :| Run(Init(), steps) == Some(s);
    var _, _ := Extend(Init(), steps, s, step);
  }
}
