/** The fields of one bridged stream and the critical sections that change them (tcpusb/service.go). */
module ServiceCore {
  import opened Bytes

  const BUFFER: nat := 65536
  const MAX_NEGOTIATED: nat := 65535

  /** What a service hands to Socket.Write, and the client packets that take effect on it, in order. */
  datatype Event =
    | SentOpenOkay
    | SentWriteOkay
    | SentWrte(payload: seq<byte>, limit: nat)
    | SentClse(id: u32)
    | GotOkay
    | GotWrte(data: seq<byte>)

  datatype Error = NoError | PrematurePacket | TransportError | LateTransport

  /** The fields of a service; `transport` says that the field is not nil, `endCloses` counts close(endCh). */
  datatype Vars = Vars(
    localId: u32,
    transport: bool,
    isOpen: bool,
    ended: bool,
    needAck: bool,
    endCloses: nat,
    transportCloses: nat,
    log: seq<Event>)

  // End and the handling of a WRTE race with the open path, which takes no lock, so they are several steps.

  /** The id End puts in its CLSE: zero can only mean a failed open. */
  function CloseId(v: Vars): u32 {
    if v.isOpen then v.localId else 0
  }

  function EndCloseTransport(v: Vars): Vars {
    if v.transport then v.(transportCloses := v.transportCloses + 1) else v
  }

  function EndSendClose(v: Vars, id: u32): Vars {
    v.(log := v.log + [SentClse(id)])
  }

  function EndClear(v: Vars): Vars {
    v.(transport := false)
  }

  function EndCommit(v: Vars): Vars {
    v.(ended := true, endCloses := v.endCloses + 1)
  }

  /** All of End, when nothing runs in between. */
  function Ended(v: Vars): Vars {
    if v.ended then v else EndCommit(EndClear(EndSendClose(EndCloseTransport(v), CloseId(v))))
  }

  function HandledOkay(v: Vars): (Vars, Error) {
    if v.ended then (v, NoError)
    else if !v.transport then (v, PrematurePacket)
    else (v.(needAck := false, log := v.log + [GotOkay]), NoError)
  }

  /** A WRTE up to the write to the device; the last result says whether an OKAY is owed for it. */
  function PassedOn(v: Vars, data: seq<byte>, deviceOk: bool): (Vars, Error, bool) {
    if v.ended then (v, NoError, false)
    else if !v.transport then (v, PrematurePacket, false)
    else if data != [] && !deviceOk then (v, TransportError, false)
    else (v.(log := v.log + [GotWrte(data)]), NoError, true)
  }

  function WriteAnswered(v: Vars): Vars {
    v.(log := v.log + [SentWriteOkay])
  }

  /** All of it, when nothing runs in between. */
  function HandledWrite(v: Vars, data: seq<byte>, deviceOk: bool): (Vars, Error) {
    var (w, err, owed) := PassedOn(v, data, deviceOk);
    (if owed then WriteAnswered(w) else w, err)
  }

  function Installed(v: Vars): (Vars, Error) {
    if v.ended then (v, LateTransport) else (v.(transport := true), NoError)
  }

  function ForwardedChunk(v: Vars, chunk: seq<byte>, limit: nat): Vars {
    if v.ended then v else v.(needAck := true, log := v.log + [SentWrte(chunk, limit)])
  }

  class Service {
    const localID: u32
    var transport: bool
    var isOpen: bool
    var ended: bool
    var needAck: bool
    var endCloses: nat
    var transportCloses: nat
    var log: seq<Event>

    function View(): Vars
      reads this
    {
      Vars(localID, transport, isOpen, ended, needAck, endCloses, transportCloses, log)
    }

    constructor (localID: u32)
      ensures View() == Vars(localID, false, false, false, false, 0, 0, [])
    {
      this.localID := localID;
      transport, isOpen, ended, needAck := false, false, false, false;
      endCloses, transportCloses, log := 0, 0, [];
    }

    method End()
      modifies this
      ensures View() == Ended(old(View()))
    {
      if ended {
        return;
      }
      if transport {
        transportCloses := transportCloses + 1;
      }
      var id := localID;
      if !isOpen {
        id := 0;
      }
      log := log + [SentClse(id)];
      transport := false;
      ended := true;
      endCloses := endCloses + 1;
    }

    method HandleOkayPacket() returns (err: Error)
      modifies this
      ensures (View(), err) == HandledOkay(old(View()))
    {
      if ended {
        return NoError;
      }
      if !transport {
        return PrematurePacket;
      }
      needAck := false;
      log := log + [GotOkay];
      return NoError;
    }

    method HandleWritePacket(data: seq<byte>, deviceOk: bool) returns (err: Error)
      modifies this
      ensures (View(), err) == HandledWrite(old(View()), data, deviceOk)
    {
      if ended {
        return NoError;
      }
      if !transport {
        return PrematurePacket;
      }
      if |data| > 0 && !deviceOk {
        return TransportError;
      }
      log := log + [GotWrte(data)];
      log := log + [SentWriteOkay];
      return NoError;
    }

    method HandleClosePacket() returns (err: Error)
      modifies this
      ensures err == if old(transport) then NoError else PrematurePacket
      ensures View() == if old(transport) then Ended(old(View())) else old(View())
    {
      if !transport {
        return PrematurePacket;
      }
      End();
      return NoError;
    }

    method InstallTransport() returns (err: Error)
      modifies this
      ensures (View(), err) == Installed(old(View()))
    {
      if ended {
        return LateTransport;
      }
      transport := true;
      return NoError;
    }

    method ForwardChunk(chunk: seq<byte>, limit: nat)
      modifies this
      ensures View() == ForwardedChunk(old(View()), chunk, limit)
    {
      if !ended {
        log := log + [SentWrte(chunk, limit)];
        needAck := true;
      }
    }
  }
}

/**
 * Every interleaving of the goroutines around one service: its opener, its device-to-client forwarder, the
 * packet handler of the socket, and whoever runs ServiceMap.End.  A step is one access outside the lock or one
 * critical section; the sections that race with the unlocked open path, which are End and the handling of a WRTE,
 * take one step for each thing that path can see.
 */
module ServiceRuns {
  import opened Bytes
  import opened Wrappers
  import opened ServiceCore

  datatype Goroutine = OpenerG | ForwarderG | HandlerG | SocketG

  /**
   * Service.mu: inside End after the transport was closed, after the CLSE was handed over and after the field was
   * cleared; or inside handleWritePacket between the device and the answer.  Other sections are single steps.
   */
  datatype Mutex =
    | Free | Closing(owner: Goroutine, id: u32) | Closed(owner: Goroutine) | Cleared(owner: Goroutine) | Answering

  predicate InEnd(m: Mutex) {
    m.Closing? || m.Closed? || m.Cleared?
  }

  datatype Opener =
    | Dialling | Installing | ClosingLate | Naming | AwaitingReply | ReadingFailure
    | SendingOkay | SettingOpened | Spawning | Waiting | Removing | Ending | Finished

  datatype Forwarder =
    | NotStarted | Top | Polling | Reading(limit: nat) | Sending(chunk: seq<byte>, limit: nat)
    | Exiting | Signalling | Stopped

  datatype Handler = Idle | ClosingService | AnsweringWrite

  datatype Reply = ReplyOkay | ReplyFail | ReplyOther | ReplyError

  datatype State = State(
    v: Vars,
    mu: Mutex,
    opener: Opener,
    forwarder: Forwarder,
    handler: Handler,
    maxPayload: nat,
    obtained: nat,            // transports returned by device.Transport()
    doneCloses: nat,          // close(doneCh)
    panicked: bool,           // the opener used a nil transport
    device: seq<byte>,        // bytes of all device reads
    unsent: seq<seq<byte>>,   // completed reads dropped because the service had ended
    lost: seq<byte>)          // bytes dropped because they came together with a read error

  datatype Step =
    // opener
    | Dial(ok: bool) | Install | CloseLate | SendName(ok: bool) | ReadReply(reply: Reply) | ReadFailure
    | HandOkay | SetOpened | Spawn | WaitDone | Remove
    // forwarder
    | ForwardTop | PollEnd | PollTimer | DeviceRead(chunk: seq<byte>) | DeviceFail(tail: seq<byte>) | ForwardSend | SignalDone
    // packet handler
    | HandleOkay | HandleWrite(data: seq<byte>, deviceOk: bool) | AnswerWrite | HandleClose | Negotiate(size: u32)
    // Service.End
    | EndBegin(owner: Goroutine) | EndHand | EndClearField | EndFinish

  function Init(localId: u32): State {
    State(Vars(localId, false, false, false, false, 0, 0, []), Free, Dialling, NotStarted, Idle,
          4096, 0, 0, false, [], [], [])
  }

  // ----------------------------------------------------------------- the steps

  /** A use of s.transport by the open path, outside the lock. */
  function UseTransport(s: State, next: Opener): State {
    if s.v.transport then s.(opener := next) else s.(opener := Removing, panicked := true)
  }

  function OpenerStep(s: State, step: Step): Option<State> {
    match (s.opener, step)
    case (Dialling, Dial(ok)) =>
      Some(if ok then s.(opener := Installing, obtained := s.obtained + 1) else s.(opener := Removing))
    case (Installing, Install) =>
      if !s.mu.Free? then None
      else
        var (v, err) := Installed(s.v);
        Some(s.(v := v, opener := if err.NoError? then Naming else ClosingLate))
    case (ClosingLate, CloseLate) =>
      Some(s.(opener := Removing, v := s.v.(transportCloses := s.v.transportCloses + 1)))
    case (Naming, SendName(ok)) => Some(UseTransport(s, if ok then AwaitingReply else Removing))
    case (AwaitingReply, ReadReply(reply)) =>
      Some(UseTransport(s, match reply
                           case ReplyOkay => SendingOkay
                           case ReplyFail => Opener.ReadingFailure
                           case _ => Removing))
    case (ReadingFailure, ReadFailure) => Some(UseTransport(s, Removing))
    case (SendingOkay, HandOkay) => Some(s.(opener := SettingOpened, v := s.v.(log := s.v.log + [SentOpenOkay])))
    case (SettingOpened, SetOpened) => Some(s.(opener := Spawning, v := s.v.(isOpen := true)))
    case (Spawning, Spawn) => Some(s.(opener := Waiting, forwarder := Top))
    case (Waiting, WaitDone) => if s.doneCloses > 0 then Some(s.(opener := Removing)) else None
    case (Removing, Remove) => Some(s.(opener := Ending))
    case _ => None
  }

  function ForwarderStep(s: State, step: Step): Option<State> {
    match (s.forwarder, step)
    case (Top, ForwardTop) =>
      if !s.mu.Free? then None
      else if s.v.ended || !s.v.transport then Some(s.(forwarder := Exiting))
      else if s.v.needAck then Some(s.(forwarder := Polling))
      else Some(s.(forwarder := Reading(Min(s.maxPayload, BUFFER))))
    case (Polling, PollEnd) => if s.v.endCloses > 0 then Some(s.(forwarder := Exiting)) else None
    case (Polling, PollTimer) => Some(s.(forwarder := Top))
    case (Reading(limit), DeviceRead(chunk)) =>
      if |chunk| > limit then None
      else Some(s.(device := s.device + chunk, forwarder := if chunk == [] then Top else Sending(chunk, limit)))
    case (Reading(limit), DeviceFail(tail)) =>   // an empty read of an open connection cannot fail
      if |tail| > limit || (limit == 0 && s.v.transportCloses == 0) then None
      else Some(s.(device := s.device + tail, lost := s.lost + tail, forwarder := Exiting))
    case (Sending(chunk, limit), ForwardSend) =>
      if !s.mu.Free? then None
      else Some(s.(forwarder := Top, v := ForwardedChunk(s.v, chunk, limit),
                   unsent := if s.v.ended then s.unsent + [chunk] else s.unsent))
    case (Signalling, SignalDone) => Some(s.(forwarder := Stopped, doneCloses := s.doneCloses + 1))
    case _ => None
  }

  function HandlerStep(s: State, step: Step): Option<State> {
    if step.AnswerWrite? then
      if s.handler.AnsweringWrite? then Some(s.(v := WriteAnswered(s.v), mu := Free, handler := Idle)) else None
    else if !s.handler.Idle? then None
    else
    match step
    case HandleOkay => if s.mu.Free? then Some(s.(v := HandledOkay(s.v).0)) else None
    case HandleWrite(data, ok) =>
      if !s.mu.Free? then None
      else
        var (v, _, owed) := PassedOn(s.v, data, ok);
        Some(if owed then s.(v := v, mu := Answering, handler := AnsweringWrite) else s.(v := v))
    case HandleClose => Some(if s.v.transport then s.(handler := ClosingService) else s)
    case Negotiate(size) => Some(s.(maxPayload := if size < MAX_NEGOTIATED then size else MAX_NEGOTIATED))
    case _ => None
  }

  predicate AtEnd(s: State, owner: Goroutine) {
    match owner
    case OpenerG => s.opener.Ending?
    case ForwarderG => s.forwarder.Exiting?
    case HandlerG => s.handler.ClosingService?
    case SocketG => true
  }

  function ReturnFromEnd(s: State, owner: Goroutine): State {
    match owner
    case OpenerG => s.(opener := Finished)
    case ForwarderG => s.(forwarder := Signalling)
    case HandlerG => s.(handler := Idle)
    case SocketG => s
  }

  function EndStep(s: State, step: Step): Option<State> {
    match (s.mu, step)
    case (Free, EndBegin(owner)) =>
      if !AtEnd(s, owner) then None
      else if s.v.ended then Some(ReturnFromEnd(s, owner))
      else Some(s.(mu := Closing(owner, CloseId(s.v)), v := EndCloseTransport(s.v)))
    case (Closing(owner, id), EndHand) => Some(s.(mu := Closed(owner), v := EndSendClose(s.v, id)))
    case (Closed(owner), EndClearField) => Some(s.(mu := Cleared(owner), v := EndClear(s.v)))
    case (Cleared(owner), EndFinish) => Some(ReturnFromEnd(s.(mu := Free, v := EndCommit(s.v)), owner))
    case _ => None
  }

  /** The state after a step, or None when the step cannot be taken. */
  function Next(s: State, step: Step): Option<State> {
    match step
    case ForwardTop | PollEnd | PollTimer | DeviceRead(_) | DeviceFail(_) | ForwardSend | SignalDone =>
      ForwarderStep(s, step)
    case HandleOkay | HandleWrite(_, _) | AnswerWrite | HandleClose | Negotiate(_) => HandlerStep(s, step)
    case EndBegin(_) | EndHand | EndClearField | EndFinish => EndStep(s, step)
    case _ => OpenerStep(s, step)
  }

  /** The state after a whole run. */
  function Run(s: State, steps: seq<Step>): Option<State>
    decreases |steps|
  {
    if steps == [] then Some(s)
    else
      match Next(s, steps[0])
      case None => None
      case Some(t) => Run(t, steps[1..])
  }

  // -------------------------------------------------------- what every step keeps

  predicate BeforeInstall(o: Opener) {
    o.Dialling? || o.Installing? || o.ClosingLate?
  }

  predicate BeforeSpawn(o: Opener) {
    BeforeInstall(o) || o.Naming? || o.AwaitingReply? || o.ReadingFailure? || o.SendingOkay? || o.SettingOpened? || o.Spawning?
  }

  predicate BeforeOkay(o: Opener) {
    BeforeInstall(o) || o.Naming? || o.AwaitingReply? || o.ReadingFailure? || o.SendingOkay?
  }

  /** The open's OKAY was handed over and the opener is still with the stream. */
  predicate PastOkay(o: Opener) {
    o.SettingOpened? || o.Spawning? || o.Waiting?
  }

  /** Life cycle of the flags, of the two channels and of the transport. */
  predicate LifeInv(s: State) {
    var v := s.v;
    && (v.ended ==> !v.transport && s.mu.Free?)
    && v.endCloses == (if v.ended then 1 else 0)
    && s.doneCloses == (if s.forwarder.Stopped? then 1 else 0)
    && (s.forwarder.Signalling? || s.forwarder.Stopped? ==> v.ended)
    && (BeforeSpawn(s.opener) ==> s.forwarder.NotStarted?)
    && (s.opener.Waiting? ==> !s.forwarder.NotStarted?)
    && (s.opener.Finished? ==> v.ended)
    && (InEnd(s.mu) ==> AtEnd(s, s.mu.owner))
    && (s.mu.Answering? <==> s.handler.AnsweringWrite?)
    && s.obtained <= 1
    && (s.obtained == 0 ==> !v.transport && v.transportCloses == 0 && (s.opener.Dialling? || !BeforeSpawn(s.opener)))
    && (s.opener.Dialling? ==> s.obtained == 0)
    && (s.opener.Installing? || s.opener.ClosingLate? ==> !v.transport && v.transportCloses == 0)
    && (s.opener.ClosingLate? ==> v.ended)
    && (s.obtained == 1 && !BeforeInstall(s.opener) ==>
        && v.transport == !(v.ended || s.mu.Cleared?)
        && v.transportCloses == if v.ended || InEnd(s.mu) then 1 else 0)
    && (s.mu.Cleared? ==> !v.transport)
    && (s.panicked ==> (v.ended || s.mu.Cleared?) && !BeforeSpawn(s.opener))
  }

  /** What the forwarder and the opener that waits for it know of each other. */
  predicate WaitInv(s: State) {
    && (!s.forwarder.NotStarted? && !s.v.ended ==> s.opener.Waiting?)
    && (s.opener.Waiting? ==> s.obtained == 1)
    && (s.forwarder.NotStarted? || s.forwarder.Reading? || s.forwarder.Sending? ==> !s.v.needAck)
  }

  predicate HasClose(log: seq<Event>) {
    exists i :: 0 <= i < |log| && log[i].SentClse?
  }

  predicate HasOpenOkay(log: seq<Event>) {
    exists i :: 0 <= i < |log| && log[i].SentOpenOkay?
  }

  /** After a CLSE nothing but the OKAY of the open can follow. */
  predicate QuietAfterClose(log: seq<Event>) {
    forall i, j :: 0 <= i < j < |log| && log[i].SentClse? ==> log[j].SentOpenOkay?
  }

  predicate OneOpenOkay(log: seq<Event>) {
    forall i, j :: 0 <= i < j < |log| && log[i].SentOpenOkay? ==> !log[j].SentOpenOkay?
  }

  /** A CLSE carries either 0 or the local id, and the latter only once the open was acknowledged. */
  predicate CloseIdsEarned(log: seq<Event>, localId: u32) {
    forall j :: 0 <= j < |log| && log[j].SentClse? && log[j].id != 0 ==>
      log[j].id == localId && HasOpenOkay(log[..j])
  }

  predicate LogInv(s: State) {
    var log := s.v.log;
    && QuietAfterClose(log)
    && OneOpenOkay(log)
    && CloseIdsEarned(log, s.v.localId)
    && (HasClose(log) <==> s.v.ended || s.mu.Closed? || s.mu.Cleared?)
    && (BeforeOkay(s.opener) ==> !HasOpenOkay(log) && !s.v.isOpen)
    && (s.v.isOpen ==> HasOpenOkay(log))
    && (PastOkay(s.opener) ==> HasOpenOkay(log) && (s.v.isOpen <==> !s.opener.SettingOpened?))
    && (!s.v.ended && HasOpenOkay(log) ==> PastOkay(s.opener))
    && (s.mu.Closing? && s.mu.id != 0 ==> s.mu.id == s.v.localId && HasOpenOkay(log))
  }

  /** Between any two WRTE packets an OKAY took effect. */
  predicate Alternating(log: seq<Event>) {
    forall i, j :: 0 <= i < j < |log| && log[i].SentWrte? && log[j].SentWrte? ==>
      exists k :: i < k < j && log[k].GotOkay?
  }

  predicate AllAcked(log: seq<Event>) {
    forall i :: 0 <= i < |log| && log[i].SentWrte? ==> exists k :: i < k < |log| && log[k].GotOkay?
  }

  /** The OKAY at j answers the WRTE at i: at most the OKAY of the open lies between them. */
  predicate AnswerOf(log: seq<Event>, i: nat, j: nat) {
    && i < j < |log| && log[i].GotWrte? && log[j].SentWriteOkay?
    && (j == i + 1 || (j == i + 2 && log[i + 1].SentOpenOkay?))
  }

  /** The WRTE at i was passed on last and is not answered yet. */
  predicate OwedAt(log: seq<Event>, i: nat) {
    i < |log| && log[i].GotWrte? && (|log| == i + 1 || (|log| == i + 2 && log[i + 1].SentOpenOkay?))
  }

  function WritesIn(log: seq<Event>): nat {
    if log == [] then 0 else WritesIn(log[..|log| - 1]) + if log[|log| - 1].GotWrte? then 1 else 0
  }

  function AnswersIn(log: seq<Event>): nat {
    if log == [] then 0 else AnswersIn(log[..|log| - 1]) + if log[|log| - 1].SentWriteOkay? then 1 else 0
  }

  /** WRTE packets passed on and their answers pair off one to one, but for the one that is owed. */
  ghost predicate Paired(log: seq<Event>, owing: bool) {
    && (forall i :: 0 <= i < |log| && log[i].GotWrte? ==> (exists j :: AnswerOf(log, i, j)) || (owing && OwedAt(log, i)))
    && (forall j :: 0 <= j < |log| && log[j].SentWriteOkay? ==> exists i :: AnswerOf(log, i, j))
    && (owing ==> exists i :: OwedAt(log, i))
    && WritesIn(log) == AnswersIn(log) + if owing then 1 else 0
  }

  ghost predicate FlowInv(s: State) {
    && Alternating(s.v.log)
    && Paired(s.v.log, s.mu.Answering?)
    && (!s.v.needAck ==> AllAcked(s.v.log))
    && (s.forwarder.Reading? || s.forwarder.Sending? ==> !s.v.needAck)
  }

  function Payloads(log: seq<Event>): seq<byte> {
    if log == [] then []
    else
      var last := log[|log| - 1];
      Payloads(log[..|log| - 1]) + if last.SentWrte? then last.payload else []
  }

  function InFlight(s: State): seq<byte> {
    if s.forwarder.Sending? then s.forwarder.chunk else []
  }

  predicate WithinLimits(log: seq<Event>) {
    forall i :: 0 <= i < |log| && log[i].SentWrte? ==> 0 < |log[i].payload| <= log[i].limit <= MAX_NEGOTIATED
  }

  predicate DataInv(s: State) {
    && s.maxPayload <= MAX_NEGOTIATED
    && (s.forwarder.Reading? ==> s.forwarder.limit <= MAX_NEGOTIATED)
    && (s.forwarder.Sending? ==> 0 < |s.forwarder.chunk| <= s.forwarder.limit <= MAX_NEGOTIATED)
    && WithinLimits(s.v.log)
    && s.device == Payloads(s.v.log) + Flatten(s.unsent) + InFlight(s) + s.lost
    && |s.unsent| <= 1
    && (s.lost != [] ==> s.unsent == [] && (s.forwarder.Exiting? || s.forwarder.Signalling? || s.forwarder.Stopped?))
    && (s.unsent != [] ==> s.v.ended && !s.forwarder.Reading? && !s.forwarder.Sending? && !s.forwarder.Polling?)
  }

  // ------------------------------------------------------------------- proofs

  /** What no step changes, or only in one direction. */
  predicate Framed(s: State, step: Step, t: State) {
    && t.v.localId == s.v.localId
    && (s.v.ended ==> t.v.ended)
    && (step.Negotiate? || t.maxPayload == s.maxPayload)
    && (s.handler.Idle? && !IsPacket(step) ==> t.handler.Idle?)
    && (s.opener.Ending? ==> t.opener.Ending? || t.v.ended)
    && (InEnd(t.mu) && t.mu.owner.SocketG? ==> (InEnd(s.mu) && s.mu.owner.SocketG?) || step == EndBegin(SocketG))
    && (step == EndFinish ==> t.v.ended)
    && (t.v.log == s.v.log || Logged(s.v.log, step, t.v.log))
  }

  /** One event more; a packet of the client is logged only by the step that handles it. */
  predicate Logged(log: seq<Event>, step: Step, more: seq<Event>) {
    && more != [] && more[..|more| - 1] == log
    && var e := more[|more| - 1];
    && (e.GotOkay? ==> step.HandleOkay?)
    && (e.GotWrte? ==> step.HandleWrite? && step.data == e.data)
  }

  lemma LoggedOne(log: seq<Event>, step: Step, e: Event)
    requires e.GotOkay? ==> step.HandleOkay?
    requires e.GotWrte? ==> step.HandleWrite? && step.data == e.data
    ensures Logged(log, step, log + [e])
  {
  }

  predicate IsPacket(step: Step) {
    step.HandleOkay? || step.HandleWrite? || step.HandleClose?
  }

  lemma OpenerFrame(s: State, step: Step, t: State)
    requires OpenerStep(s, step) == Some(t)
    ensures Framed(s, step, t)
  {
    hide Logged;
    LoggedOne(s.v.log, step, SentOpenOkay);
  }

  lemma ForwarderFrame(s: State, step: Step, t: State)
    requires ForwarderStep(s, step) == Some(t)
    ensures Framed(s, step, t)
  {
    hide Logged;
    if step.ForwardSend? {
      LoggedOne(s.v.log, step, SentWrte(s.forwarder.chunk, s.forwarder.limit));
    }
  }

  lemma HandlerFrame(s: State, step: Step, t: State)
    requires HandlerStep(s, step) == Some(t)
    ensures Framed(s, step, t)
  {
    hide Logged;
    var e := match step case HandleOkay => GotOkay case HandleWrite(data, _) => GotWrte(data) case _ => SentWriteOkay;
    LoggedOne(s.v.log, step, e);
  }

  lemma EndFrame(s: State, step: Step, t: State)
    requires EndStep(s, step) == Some(t)
    ensures Framed(s, step, t)
  {
    hide Logged;
    if step.EndHand? {
      LoggedOne(s.v.log, step, SentClse(s.mu.id));
    }
  }

  lemma StepFrame(s: State, step: Step, t: State)
    requires Next(s, step) == Some(t)
    ensures Framed(s, step, t)
  {
    hide OpenerStep, ForwarderStep, HandlerStep, EndStep, Framed;
    match step
    case ForwardTop | PollEnd | PollTimer | DeviceRead(_) | DeviceFail(_) | ForwardSend | SignalDone =>
      ForwarderFrame(s, step, t);
    case HandleOkay | HandleWrite(_, _) | AnswerWrite | HandleClose | Negotiate(_) => HandlerFrame(s, step, t);
    case EndBegin(_) | EndHand | EndClearField | EndFinish => EndFrame(s, step, t);
    case _ => OpenerFrame(s, step, t);
  }

  lemma OpenerKeepsLife(s: State, step: Step, t: State)
    requires LifeInv(s) && OpenerStep(s, step) == Some(t)
    ensures LifeInv(t)
  {
  }

  lemma ForwarderKeepsLife(s: State, step: Step, t: State)
    requires LifeInv(s) && ForwarderStep(s, step) == Some(t)
    ensures LifeInv(t)
  {
  }

  lemma HandlerKeepsLife(s: State, step: Step, t: State)
    requires LifeInv(s) && HandlerStep(s, step) == Some(t)
    ensures LifeInv(t)
  {
  }

  lemma EndKeepsLife(s: State, step: Step, t: State)
    requires LifeInv(s) && EndStep(s, step) == Some(t)
    ensures LifeInv(t)
  {
  }

  lemma OpenerKeepsWait(s: State, step: Step, t: State)
    requires LifeInv(s) && WaitInv(s) && OpenerStep(s, step) == Some(t)
    ensures WaitInv(t)
  {
  }

  lemma ForwarderKeepsWait(s: State, step: Step, t: State)
    requires LifeInv(s) && WaitInv(s) && ForwarderStep(s, step) == Some(t)
    ensures WaitInv(t)
  {
  }

  lemma HandlerKeepsWait(s: State, step: Step, t: State)
    requires WaitInv(s) && HandlerStep(s, step) == Some(t)
    ensures WaitInv(t)
  {
  }

  lemma EndKeepsWait(s: State, step: Step, t: State)
    requires LifeInv(s) && WaitInv(s) && EndStep(s, step) == Some(t)
    ensures WaitInv(t)
  {
  }

  /** How one more event affects what is said of closes and of the open's OKAY. */
  lemma LogGrows(log: seq<Event>, e: Event, localId: u32)
    ensures HasClose(log + [e]) <==> HasClose(log) || e.SentClse?
    ensures HasOpenOkay(log + [e]) <==> HasOpenOkay(log) || e.SentOpenOkay?
    ensures QuietAfterClose(log) && (HasClose(log) ==> e.SentOpenOkay?) ==> QuietAfterClose(log + [e])
    ensures OneOpenOkay(log) && (HasOpenOkay(log) ==> !e.SentOpenOkay?) ==> OneOpenOkay(log + [e])
    ensures CloseIdsEarned(log, localId)
            && (e.SentClse? && e.id != 0 ==> e.id == localId && HasOpenOkay(log))
            ==> CloseIdsEarned(log + [e], localId)
  {
    var more := log + [e];
    assert more[|log|] == e && more[..|log|] == log;
    assert forall i :: 0 <= i < |log| ==> more[i] == log[i];
    assert forall j :: 0 <= j < |log| ==> more[..j] == log[..j];
  }

  /** How one more event affects the pairing of WRTE and OKAY. */
  lemma AckGrows(log: seq<Event>, e: Event)
    ensures Alternating(log) && (e.SentWrte? ==> AllAcked(log)) ==> Alternating(log + [e])
    ensures AllAcked(log) && !e.SentWrte? ==> AllAcked(log + [e])
    ensures e.GotOkay? ==> AllAcked(log + [e])
  {
    var more := log + [e];
    assert forall i :: 0 <= i < |log| ==> more[i] == log[i];
    if Alternating(log) && (e.SentWrte? ==> AllAcked(log)) {
      forall i, j | 0 <= i < j < |more| && more[i].SentWrte? && more[j].SentWrte?
        ensures exists k :: i < k < j && more[k].GotOkay?
      {
        var k :| i < k < (if j < |log| then j else |log|) && log[k].GotOkay?;
        assert more[k].GotOkay?;
      }
    }
    if e.GotOkay? {
      assert more[|log|].GotOkay?;
    } else if AllAcked(log) && !e.SentWrte? {
      forall i | 0 <= i < |more| && more[i].SentWrte?
        ensures exists k :: i < k < |more| && more[k].GotOkay?
      {
        var k :| i < k < |log| && log[k].GotOkay?;
        assert more[k].GotOkay?;
      }
    }
  }

  /** One more event leaves the pairs as they are, and is counted. */
  lemma PairsStay(log: seq<Event>, e: Event)
    ensures forall i: nat, j: nat :: AnswerOf(log, i, j) ==> AnswerOf(log + [e], i, j)
    ensures WritesIn(log + [e]) == WritesIn(log) + if e.GotWrte? then 1 else 0
    ensures AnswersIn(log + [e]) == AnswersIn(log) + if e.SentWriteOkay? then 1 else 0
  {
    assert (log + [e])[..|log|] == log;
  }

  lemma PairWithout(log: seq<Event>, e: Event)
    requires Paired(log, false) && !e.SentWriteOkay?
    ensures Paired(log + [e], e.GotWrte?)
  {
    hide WritesIn, AnswersIn, AnswerOf;
    PairsStay(log, e);
    if e.GotWrte? {
      assert OwedAt(log + [e], |log|);
    }
  }

  lemma PairAnswered(log: seq<Event>)
    requires Paired(log, true)
    ensures Paired(log + [SentWriteOkay], false)
  {
    hide WritesIn, AnswersIn;
    var more := log + [SentWriteOkay];
    PairsStay(log, SentWriteOkay);
    forall i: nat | OwedAt(log, i)
      ensures AnswerOf(more, i, |log|)
    {
    }
    var i :| OwedAt(log, i);
    assert AnswerOf(more, i, |log|);
  }

  lemma PairOpened(log: seq<Event>)
    requires Paired(log, true) && !HasOpenOkay(log)
    ensures Paired(log + [SentOpenOkay], true)
  {
    hide WritesIn, AnswersIn;
    var more := log + [SentOpenOkay];
    PairsStay(log, SentOpenOkay);
    forall i: nat | OwedAt(log, i)
      ensures OwedAt(more, i)
    {
    }
    var i :| OwedAt(log, i);
    assert OwedAt(more, i);
  }

  /** How one more event affects the pairing of the client's WRTE packets with their answers. */
  lemma PairGrows(log: seq<Event>, e: Event)
    ensures Paired(log, false) && !e.GotWrte? && !e.SentWriteOkay? ==> Paired(log + [e], false)
    ensures Paired(log, false) && e.GotWrte? ==> Paired(log + [e], true)
    ensures Paired(log, true) && e.SentWriteOkay? ==> Paired(log + [e], false)
    ensures Paired(log, true) && e.SentOpenOkay? && !HasOpenOkay(log) ==> Paired(log + [e], true)
  {
    hide Paired, HasOpenOkay;
    if Paired(log, false) && !e.SentWriteOkay? {
      PairWithout(log, e);
    }
    if Paired(log, true) && e.SentWriteOkay? {
      PairAnswered(log);
    }
    if Paired(log, true) && e.SentOpenOkay? && !HasOpenOkay(log) {
      PairOpened(log);
    }
  }

  /** How one more event affects the bytes sent to the client. */
  lemma PayloadGrows(log: seq<Event>, e: Event)
    ensures Payloads(log + [e]) == Payloads(log) + if e.SentWrte? then e.payload else []
    ensures WithinLimits(log) && (e.SentWrte? ==> 0 < |e.payload| <= e.limit <= MAX_NEGOTIATED) ==> WithinLimits(log + [e])
  {
    assert (log + [e])[..|log|] == log;
  }

  /** Nothing was read from the device and nothing sent to the client. */
  ghost predicate NoDataMoved(s: State, t: State) {
    && t.device == s.device && t.unsent == s.unsent && t.lost == s.lost
    && (t.maxPayload == s.maxPayload || t.maxPayload <= MAX_NEGOTIATED)
    && (s.v.ended ==> t.v.ended)
    && (|| t.forwarder == s.forwarder || (s.forwarder.NotStarted? && t.forwarder.Top?)
        || (s.forwarder.Exiting? && t.forwarder.Signalling?))
    && (t.v.log == s.v.log || exists e :: t.v.log == s.v.log + [e] && !e.SentWrte?)
  }

  lemma NoDataMovedKeeps(s: State, t: State)
    requires DataInv(s) && NoDataMoved(s, t)
    ensures DataInv(t)
  {
    hide Payloads, WithinLimits, Flatten;
    if t.v.log != s.v.log {
      var e :| t.v.log == s.v.log + [e] && !e.SentWrte?;
      PayloadGrows(s.v.log, e);
    }
  }

  lemma OpenerKeepsLog(s: State, step: Step, t: State)
    requires s.doneCloses > 0 ==> s.v.ended
    requires LogInv(s) && OpenerStep(s, step) == Some(t)
    ensures LogInv(t)
  {
    hide QuietAfterClose, OneOpenOkay, CloseIdsEarned, HasClose, HasOpenOkay;
    LogGrows(s.v.log, SentOpenOkay, s.v.localId);
  }

  lemma OpenerKeepsFlow(s: State, step: Step, t: State)
    requires BeforeOkay(s.opener) ==> !HasOpenOkay(s.v.log)
    requires FlowInv(s) && OpenerStep(s, step) == Some(t)
    requires BeforeSpawn(s.opener) ==> s.forwarder.NotStarted?
    ensures FlowInv(t)
  {
    hide Alternating, AllAcked, Paired, HasOpenOkay;
    AckGrows(s.v.log, SentOpenOkay);
    PairGrows(s.v.log, SentOpenOkay);
  }

  lemma OpenerKeepsData(s: State, step: Step, t: State)
    requires BeforeSpawn(s.opener) ==> s.forwarder.NotStarted?
    requires DataInv(s) && OpenerStep(s, step) == Some(t)
    ensures DataInv(t)
  {
    hide DataInv;
    assert NoDataMoved(s, t);
    NoDataMovedKeeps(s, t);
  }

  lemma ForwarderKeepsLog(s: State, step: Step, t: State)
    requires LifeInv(s) && LogInv(s) && FlowInv(s) && ForwarderStep(s, step) == Some(t)
    ensures LogInv(t) && FlowInv(t)
  {
    hide QuietAfterClose, OneOpenOkay, CloseIdsEarned, HasClose, HasOpenOkay, Alternating, AllAcked, Paired;
    if step.ForwardSend? {
      var e := SentWrte(s.forwarder.chunk, s.forwarder.limit);
      LogGrows(s.v.log, e, s.v.localId);
      AckGrows(s.v.log, e);
      PairGrows(s.v.log, e);
    }
  }

  lemma ForwarderKeepsData(s: State, step: Step, t: State)
    requires DataInv(s) && ForwarderStep(s, step) == Some(t)
    ensures DataInv(t)
  {
    hide Payloads, WithinLimits, Flatten;
    if step.ForwardSend? {
      PayloadGrows(s.v.log, SentWrte(s.forwarder.chunk, s.forwarder.limit));
      FlattenSnoc(s.unsent, s.forwarder.chunk);
      FlattenNone();
    }
  }

  lemma FlattenNone()
    ensures Flatten([]) == []
  {
  }

  lemma HandlerKeepsLog(s: State, step: Step, t: State)
    requires LifeInv(s) && LogInv(s) && HandlerStep(s, step) == Some(t)
    ensures LogInv(t)
  {
    hide QuietAfterClose, OneOpenOkay, CloseIdsEarned, HasClose, HasOpenOkay;
    var e := match step case HandleOkay => GotOkay case HandleWrite(data, _) => GotWrte(data) case _ => SentWriteOkay;
    LogGrows(s.v.log, e, s.v.localId);
  }

  lemma HandlerKeepsFlow(s: State, step: Step, t: State)
    requires s.mu.Answering? <==> s.handler.AnsweringWrite?
    requires FlowInv(s) && HandlerStep(s, step) == Some(t)
    ensures FlowInv(t)
  {
    hide Alternating, AllAcked, Paired;
    var e := match step case HandleOkay => GotOkay case HandleWrite(data, _) => GotWrte(data) case _ => SentWriteOkay;
    AckGrows(s.v.log, e);
    PairGrows(s.v.log, e);
  }

  lemma HandlerKeepsData(s: State, step: Step, t: State)
    requires DataInv(s) && HandlerStep(s, step) == Some(t)
    ensures DataInv(t)
  {
    hide DataInv;
    assert NoDataMoved(s, t);
    NoDataMovedKeeps(s, t);
  }

  lemma EndKeepsLog(s: State, step: Step, t: State)
    requires LifeInv(s) && LogInv(s) && EndStep(s, step) == Some(t)
    ensures LogInv(t)
  {
    hide QuietAfterClose, OneOpenOkay, CloseIdsEarned, HasClose, HasOpenOkay;
    if step.EndHand? {
      LogGrows(s.v.log, SentClse(s.mu.id), s.v.localId);
    }
  }

  lemma EndKeepsFlow(s: State, step: Step, t: State)
    requires InEnd(s.mu) ==> AtEnd(s, s.mu.owner)
    requires FlowInv(s) && EndStep(s, step) == Some(t)
    ensures FlowInv(t)
  {
    hide Alternating, AllAcked, Paired;
    if step.EndHand? {
      AckGrows(s.v.log, SentClse(s.mu.id));
      PairGrows(s.v.log, SentClse(s.mu.id));
    }
  }

  lemma EndKeepsData(s: State, step: Step, t: State)
    requires InEnd(s.mu) ==> AtEnd(s, s.mu.owner)
    requires DataInv(s) && EndStep(s, step) == Some(t)
    ensures DataInv(t)
  {
    hide DataInv;
    assert NoDataMoved(s, t);
    NoDataMovedKeeps(s, t);
  }

  ghost predicate Inv(s: State) {
    LifeInv(s) && WaitInv(s) && LogInv(s) && FlowInv(s) && DataInv(s)
  }

  /** What the other invariants need from the first two. */
  lemma InvGives(s: State)
    requires LifeInv(s) && LogInv(s)
    ensures InEnd(s.mu) ==> AtEnd(s, s.mu.owner)
    ensures s.mu.Answering? <==> s.handler.AnsweringWrite?
    ensures BeforeSpawn(s.opener) ==> s.forwarder.NotStarted?
    ensures s.doneCloses > 0 ==> s.v.ended
    ensures BeforeOkay(s.opener) ==> !HasOpenOkay(s.v.log)
  {
    hide HasOpenOkay, QuietAfterClose, OneOpenOkay, CloseIdsEarned, HasClose;
  }

  lemma StepKeeps(s: State, step: Step, t: State)
    requires Inv(s) && Next(s, step) == Some(t)
    ensures Inv(t)
  {
    hide LifeInv, WaitInv, LogInv, FlowInv, DataInv, AtEnd, InEnd, BeforeSpawn, BeforeOkay, HasOpenOkay;
    hide OpenerStep, ForwarderStep, HandlerStep, EndStep;
    InvGives(s);
    match step
    case ForwardTop | PollEnd | PollTimer | DeviceRead(_) | DeviceFail(_) | ForwardSend | SignalDone =>
      ForwarderKeepsLife(s, step, t);
      ForwarderKeepsWait(s, step, t);
      ForwarderKeepsLog(s, step, t);
      ForwarderKeepsData(s, step, t);
    case HandleOkay | HandleWrite(_, _) | AnswerWrite | HandleClose | Negotiate(_) =>
      HandlerKeepsLife(s, step, t);
      HandlerKeepsWait(s, step, t);
      HandlerKeepsLog(s, step, t);
      HandlerKeepsFlow(s, step, t);
      HandlerKeepsData(s, step, t);
    case EndBegin(_) | EndHand | EndClearField | EndFinish =>
      EndKeepsLife(s, step, t);
      EndKeepsWait(s, step, t);
      EndKeepsLog(s, step, t);
      EndKeepsFlow(s, step, t);
      EndKeepsData(s, step, t);
    case _ =>
      OpenerKeepsLife(s, step, t);
      OpenerKeepsWait(s, step, t);
      OpenerKeepsLog(s, step, t);
      OpenerKeepsFlow(s, step, t);
      OpenerKeepsData(s, step, t);
  }

  lemma {:induction false} RunKeeps(s: State, steps: seq<Step>, t: State)
    requires Inv(s) && Run(s, steps) == Some(t)
    ensures Inv(t)
    decreases |steps|
  {
    hide Inv, Next;
    if steps == [] {
    } else {
      StepKeeps(s, steps[0], Next(s, steps[0]).value);
      RunKeeps(Next(s, steps[0]).value, steps[1..], t);
    }
  }

  lemma Invariant(localId: u32, steps: seq<Step>, s: State)
    requires Run(Init(localId), steps) == Some(s)
    ensures Inv(s)
  {
    hide Run;
    RunKeeps(Init(localId), steps, s);
  }

  // ------------------------------------------------------------- what it means

  /**
   * Stop-and-wait both ways.  Between any two WRTE packets of a service an OKAY for it was handled.  The WRTE
   * packets passed on to the device and the OKAYs that answer them pair off: between a packet and its answer at
   * most the OKAY of the open lies, and only the packet being handled is without an answer.
   */
  lemma StopAndWait(localId: u32, steps: seq<Step>, s: State)
    requires Run(Init(localId), steps) == Some(s)
    ensures forall i, j :: 0 <= i < j < |s.v.log| && s.v.log[i].SentWrte? && s.v.log[j].SentWrte? ==>
              exists k :: i < k < j && s.v.log[k].GotOkay?
    ensures forall i :: 0 <= i < |s.v.log| && s.v.log[i].GotWrte? ==>
              (exists j :: AnswerOf(s.v.log, i, j)) || (s.handler.AnsweringWrite? && OwedAt(s.v.log, i))
    ensures forall j :: 0 <= j < |s.v.log| && s.v.log[j].SentWriteOkay? ==> exists i :: AnswerOf(s.v.log, i, j)
    ensures WritesIn(s.v.log) == AnswersIn(s.v.log) + if s.handler.AnsweringWrite? then 1 else 0
  {
    hide Run, LogInv, DataInv, AnswerOf, OwedAt;
    Invariant(localId, steps, s);
  }

  /**
   * What reaches the client is, in order, what was read from the device.  At most one read is lost: to an end of the
   * service, or to an error that came with its bytes and made the forwarder leave.
   */
  lemma Conservation(localId: u32, steps: seq<Step>, s: State)
    requires Run(Init(localId), steps) == Some(s)
    ensures s.device == Payloads(s.v.log) + Flatten(s.unsent) + InFlight(s) + s.lost
    ensures Payloads(s.v.log) <= s.device
    ensures |s.unsent| <= 1 && (s.unsent != [] ==> s.v.ended && InFlight(s) == [] && s.lost == [])
    ensures s.lost != [] ==> InFlight(s) == [] && (s.forwarder.Exiting? || s.forwarder.Signalling? || s.forwarder.Stopped?)
    ensures forall i :: 0 <= i < |s.v.log| && s.v.log[i].SentWrte? ==>
              0 < |s.v.log[i].payload| <= s.v.log[i].limit <= 65535
  {
    hide Run, LifeInv, LogInv, FlowInv, Payloads, Flatten;
    Invariant(localId, steps, s);
  }

  /** One CLSE at most; after it at most the OKAY of a racing open; its id is earned; channels close once. */
  lemma CloseLifeCycle(localId: u32, steps: seq<Step>, s: State)
    requires Run(Init(localId), steps) == Some(s)
    ensures s.v.ended ==> !s.v.transport
    ensures forall i, j :: 0 <= i < j < |s.v.log| && s.v.log[i].SentClse? ==> s.v.log[j].SentOpenOkay?
    ensures forall i, j :: 0 <= i < j < |s.v.log| && s.v.log[i].SentOpenOkay? ==> !s.v.log[j].SentOpenOkay?
    ensures forall j :: 0 <= j < |s.v.log| && s.v.log[j].SentClse? && s.v.log[j].id != 0 ==> HasOpenOkay(s.v.log[..j])
    ensures s.v.endCloses <= 1 && s.doneCloses <= 1
  {
    hide Run;
    Invariant(localId, steps, s);
  }

  /** No transport is closed twice, and none is left open once the opener is done. */
  lemma TransportClosedOnce(localId: u32, steps: seq<Step>, s: State)
    requires Run(Init(localId), steps) == Some(s)
    ensures s.v.transportCloses <= s.obtained <= 1
    ensures s.opener.Finished? ==> s.v.transportCloses == s.obtained
  {
    hide Run, LogInv, FlowInv, DataInv;
    Invariant(localId, steps, s);
  }

  /** The open path dereferences a nil transport exactly when End has cleared the field before the access. */
  lemma OpenPathPanics(localId: u32, steps: seq<Step>, s: State, step: Step, t: State)
    requires Run(Init(localId), steps) == Some(s) && Next(s, step) == Some(t)
    requires step.SendName? || step.ReadReply? || step.ReadFailure?
    ensures !s.panicked && (t.panicked <==> s.v.ended || s.mu.Cleared?)
  {
    hide Run, LogInv, FlowInv, DataInv;
    Invariant(localId, steps, s);
  }

  /**
   * The OKAY of an open follows the CLSE exactly when End had already handed it over; with the mutex free, that is
   * exactly when the service has ended.
   */
  lemma OpenOkayLate(localId: u32, steps: seq<Step>, s: State, t: State)
    requires Run(Init(localId), steps) == Some(s) && Next(s, HandOkay) == Some(t)
    ensures t.v.log == s.v.log + [SentOpenOkay]
    ensures HasClose(s.v.log) <==> s.v.ended || s.mu.Closed? || s.mu.Cleared?
    ensures s.mu.Free? ==> (HasClose(s.v.log) <==> s.v.ended)
  {
    hide Run, LifeInv, FlowInv, DataInv;
    Invariant(localId, steps, s);
  }

  /**
   * A CLSE with id 0, which is meant for a failed open, follows the OKAY of a successful one exactly when End read
   * the id as 0 and the opener is past its OKAY and not yet leaving.
   */
  lemma ZeroCloseAfterOkay(localId: u32, steps: seq<Step>, s: State, t: State)
    requires Run(Init(localId), steps) == Some(s) && Next(s, EndHand) == Some(t)
    ensures t.v.log == s.v.log + [SentClse(s.mu.id)]
    ensures s.mu.id == 0 && HasOpenOkay(s.v.log)
       <==> s.mu.id == 0 && (s.opener.SettingOpened? || s.opener.Spawning? || s.opener.Waiting?)
  {
    hide Run, FlowInv, DataInv, HasOpenOkay, HasClose;
    Invariant(localId, steps, s);
  }

  /** End reads the id as 0 exactly when the open path has not yet set `opened`. */
  lemma ZeroIdRead(localId: u32, steps: seq<Step>, s: State, owner: Goroutine, t: State)
    requires localId != 0 && Run(Init(localId), steps) == Some(s)
    requires !s.v.ended && Next(s, EndBegin(owner)) == Some(t)
    ensures t.mu.Closing? && (t.mu.id == 0 <==> !s.v.isOpen)
    ensures HasOpenOkay(s.v.log) ==> (t.mu.id == 0 <==> s.opener.SettingOpened?)
  {
    hide Run, FlowInv, DataInv, HasOpenOkay, HasClose;
    Invariant(localId, steps, s);
    LocalIdKept(Init(localId), steps, s);
  }

  lemma {:induction false} LocalIdKept(s: State, steps: seq<Step>, t: State)
    requires Run(s, steps) == Some(t)
    ensures t.v.localId == s.v.localId
    decreases |steps|
  {
    hide Next;
    if steps == [] {
    } else {
      StepFrame(s, steps[0], Next(s, steps[0]).value);
      LocalIdKept(Next(s, steps[0]).value, steps[1..], t);
    }
  }

  /** What the opener does next, where the device and the handshake fail if they can. */
  function OpenerMove(o: Opener): Step {
    match o
    case Dialling => Dial(false)
    case Installing => Install
    case ClosingLate => CloseLate
    case Naming => SendName(false)
    case AwaitingReply => ReadReply(ReplyError)
    case ReadingFailure => ReadFailure
    case SendingOkay => HandOkay
    case SettingOpened => SetOpened
    case Spawning => Spawn
    case Waiting => WaitDone
    case Removing => Remove
    case _ => EndBegin(OpenerG)
  }

  /**
   * The service will not end by itself: its forwarder waits for an OKAY, or is about to, or the payload limit is 0 and
   * it reads nothing; and nobody is ending the service.
   */
  predicate Awaits(s: State) {
    && !s.v.ended && !InEnd(s.mu) && !s.handler.ClosingService?
    && (|| AwaitsOkay(s)
        || (s.maxPayload == 0 &&
            (|| s.opener.SendingOkay? || s.opener.SettingOpened? || s.opener.Spawning?
             || s.forwarder.Top? || s.forwarder.Polling? || s.forwarder == Reading(0))))
  }

  predicate AwaitsOkay(s: State) {
    s.forwarder.Sending? || ((s.forwarder.Top? || s.forwarder.Polling?) && s.v.needAck)
  }

  /** Neither a packet of the client nor an end of the socket. */
  predicate Alone(step: Step) {
    !IsPacket(step) && !step.Negotiate? && step != EndBegin(SocketG)
  }

  predicate AllAlone(steps: seq<Step>) {
    forall k :: 0 <= k < |steps| ==> Alone(steps[k])
  }

  /** What brings a waiting opener on. */
  function WaitingMove(s: State): Step {
    if s.v.ended then
      match s.forwarder
      case Top => ForwardTop
      case Polling => PollEnd
      case Reading(_) => DeviceFail([])
      case Sending(_, _) => ForwardSend
      case Exiting => EndBegin(ForwarderG)
      case Signalling => SignalDone
      case _ => WaitDone
    else if s.handler.ClosingService? then EndBegin(HandlerG)
    else if Awaits(s) then EndBegin(SocketG)
    else
      match s.forwarder
      case Top => ForwardTop
      case Polling => PollTimer
      case Reading(limit) => if limit == 0 then DeviceRead([]) else DeviceFail([])
      case _ => EndBegin(ForwarderG)
  }

  /** A step that brings the service closer to its end. */
  function Closer(s: State): Step {
    if s.mu.Closing? then EndHand
    else if s.mu.Closed? then EndClearField
    else if s.mu.Cleared? then EndFinish
    else if s.mu.Answering? then AnswerWrite
    else if s.opener.Waiting? then WaitingMove(s)
    else OpenerMove(s.opener)
  }

  function OpenerDistance(o: Opener): nat {
    match o
    case Dialling => 11 case Installing => 10 case ClosingLate => 9 case Naming => 9 case AwaitingReply => 8
    case ReadingFailure => 7 case SendingOkay => 6 case SettingOpened => 5 case Spawning => 4 case Waiting => 3
    case Removing => 2 case Ending => 1 case Finished => 0
  }

  function ForwarderDistance(f: Forwarder): nat {
    match f
    case NotStarted => 0 case Top => 4 case Polling => 5 case Reading(limit) => if limit == 0 then 5 else 3 case Sending(_, _) => 5
    case Exiting => 2 case Signalling => 1 case Stopped => 0
  }

  function Distance(s: State): nat {
    10 * OpenerDistance(s.opener) + ForwarderDistance(s.forwarder)
    + if s.v.ended then 0
      else match s.mu case Cleared(_) => 1 case Closed(_) => 2 case Closing(_, _) => 3 case Free => 4 case Answering => 5
  }

  /** No panic so far and none to come, unless something else ends the service first. */
  predicate Healthy(s: State) {
    !s.panicked && (BeforeSpawn(s.opener) ==> !s.v.ended && !InEnd(s.mu))
  }

  /** The step brings the service closer, panics no more than it must, and is one of its own unless it needs help. */
  predicate Improved(s: State, step: Step, t: State) {
    && Distance(t) < Distance(s)
    && (Healthy(s) ==> Healthy(t))
    && (!Awaits(s) ==> Alone(step) && !Awaits(t))
  }

  lemma EndingGetsCloser(s: State)
    requires LifeInv(s) && WaitInv(s) && InEnd(s.mu)
    ensures EndStep(s, Closer(s)).Some?
    ensures Improved(s, Closer(s), EndStep(s, Closer(s)).value)
  {
  }

  lemma AnsweringGetsCloser(s: State)
    requires LifeInv(s) && WaitInv(s) && s.mu.Answering?
    ensures HandlerStep(s, Closer(s)).Some?
    ensures Improved(s, Closer(s), HandlerStep(s, Closer(s)).value)
  {
  }

  lemma EndedGetsCloser(s: State)
    requires LifeInv(s) && WaitInv(s) && s.mu.Free? && s.opener.Waiting? && s.v.ended
    ensures Next(s, WaitingMove(s)).Some?
    ensures Improved(s, WaitingMove(s), Next(s, WaitingMove(s)).value)
  {
  }

  lemma WaitingGetsCloser(s: State)
    requires LifeInv(s) && WaitInv(s) && s.mu.Free? && s.opener.Waiting? && !s.v.ended
    ensures Next(s, WaitingMove(s)).Some?
    ensures Improved(s, WaitingMove(s), Next(s, WaitingMove(s)).value)
  {
  }

  lemma OpeningGetsCloser(s: State)
    requires LifeInv(s) && WaitInv(s) && s.mu.Free? && BeforeSpawn(s.opener)
    ensures OpenerStep(s, OpenerMove(s.opener)).Some?
    ensures Improved(s, OpenerMove(s.opener), OpenerStep(s, OpenerMove(s.opener)).value)
  {
  }

  lemma LeavingGetsCloser(s: State)
    requires LifeInv(s) && WaitInv(s) && s.mu.Free? && (s.opener.Removing? || s.opener.Ending?)
    ensures Next(s, OpenerMove(s.opener)).Some?
    ensures Improved(s, OpenerMove(s.opener), Next(s, OpenerMove(s.opener)).value)
  {
  }

  lemma CloserGetsCloser(s: State)
    requires LifeInv(s) && WaitInv(s) && !s.opener.Finished?
    ensures Next(s, Closer(s)).Some?
    ensures Improved(s, Closer(s), Next(s, Closer(s)).value)
  {
    hide LifeInv, WaitInv, OpenerStep, ForwarderStep, HandlerStep, EndStep, WaitingMove, Improved;
    if InEnd(s.mu) {
      EndingGetsCloser(s);
    } else if s.mu.Answering? {
      AnsweringGetsCloser(s);
    } else if s.opener.Waiting? && s.v.ended {
      EndedGetsCloser(s);
    } else if s.opener.Waiting? {
      WaitingGetsCloser(s);
    } else if BeforeSpawn(s.opener) {
      OpeningGetsCloser(s);
    } else {
      LeavingGetsCloser(s);
    }
  }

  lemma {:induction false} CanFinish(s: State) returns (steps: seq<Step>, t: State)
    requires Inv(s)
    ensures Inv(t) && Run(s, steps) == Some(t) && t.opener.Finished? && (Healthy(s) ==> Healthy(t))
    ensures !Awaits(s) ==> AllAlone(steps)
    decreases Distance(s)
  {
    hide Next, LifeInv, WaitInv, LogInv, FlowInv, DataInv, Closer, Distance, Healthy, Awaits, Alone;
    if s.opener.Finished? {
      steps, t := [], s;
    } else {
      CloserGetsCloser(s);
      var m := Next(s, Closer(s)).value;
      StepKeeps(s, Closer(s), m);
      var more;
      more, t := CanFinish(m);
      steps := [Closer(s)] + more;
      assert steps[1..] == more;
    }
  }

  /**
   * From every reachable state some continuation finishes the opener, with every transport closed, and without a panic
   * unless one happened or an end overtook the open.  It takes help from outside, that is an end of the socket still to
   * come, only if the service awaits something.
   */
  lemma EveryRunCanFinish(localId: u32, steps: seq<Step>, s: State) returns (more: seq<Step>, t: State)
    requires Run(Init(localId), steps) == Some(s)
    ensures Run(s, more) == Some(t) && t.opener.Finished? && t.v.ended && t.v.transportCloses == t.obtained
    ensures !s.panicked && (BeforeSpawn(s.opener) ==> !s.v.ended && !InEnd(s.mu)) ==> !t.panicked
    ensures !Awaits(s) ==> AllAlone(more)
  {
    hide Run, Next, WaitInv, LogInv, FlowInv, DataInv, Awaits, Alone;
    Invariant(localId, steps, s);
    more, t := CanFinish(s);
  }

  lemma AwaitsKept(s: State, step: Step, t: State)
    requires LifeInv(s) && WaitInv(s) && Awaits(s) && Next(s, step) == Some(t)
    requires Alone(step) || step.HandleWrite? || (step.HandleOkay? && s.maxPayload == 0)
    ensures Awaits(t)
    ensures Alone(step) && AwaitsOkay(s) ==> AwaitsOkay(t)
  {
    hide OpenerStep, ForwarderStep, HandlerStep, EndStep, LifeInv, WaitInv, Awaits, AwaitsOkay, Alone;
    match step
    case ForwardTop | PollEnd | PollTimer | DeviceRead(_) | DeviceFail(_) | ForwardSend | SignalDone =>
      ForwarderAwaits(s, step, t);
    case HandleOkay | HandleWrite(_, _) | AnswerWrite | HandleClose | Negotiate(_) => HandlerAwaits(s, step, t);
    case EndBegin(_) | EndHand | EndClearField | EndFinish => NobodyEnds(s, step);
    case _ => OpenerAwaits(s, step, t);
  }

  lemma OpenerAwaits(s: State, step: Step, t: State)
    requires LifeInv(s) && WaitInv(s) && Awaits(s) && OpenerStep(s, step) == Some(t)
    ensures Awaits(t) && (AwaitsOkay(s) ==> AwaitsOkay(t))
  {
  }

  lemma ForwarderAwaits(s: State, step: Step, t: State)
    requires LifeInv(s) && WaitInv(s) && Awaits(s) && ForwarderStep(s, step) == Some(t)
    ensures Awaits(t) && (AwaitsOkay(s) ==> AwaitsOkay(t))
  {
  }

  lemma HandlerAwaits(s: State, step: Step, t: State)
    requires Awaits(s) && HandlerStep(s, step) == Some(t)
    requires Alone(step) || step.HandleWrite? || (step.HandleOkay? && s.maxPayload == 0)
    ensures Awaits(t) && (Alone(step) && AwaitsOkay(s) ==> AwaitsOkay(t))
  {
  }

  lemma NobodyEnds(s: State, step: Step)
    requires LifeInv(s) && WaitInv(s) && Awaits(s) && Alone(step)
    ensures EndStep(s, step).None?
  {
  }

  /** What it means to await something: the opener does not finish, and its transport is still open. */
  lemma AwaitsMeans(s: State)
    requires LifeInv(s) && WaitInv(s) && Awaits(s)
    ensures !s.opener.Finished? && s.v.transport && s.v.transportCloses == 0 && s.obtained == 1
  {
  }

  lemma {:induction false} AwaitsForever(s: State, more: seq<Step>, t: State)
    requires Inv(s) && Awaits(s) && AllAlone(more) && Run(s, more) == Some(t)
    ensures Inv(t) && Awaits(t)
    decreases |more|
  {
    hide Next, LifeInv, WaitInv, LogInv, FlowInv, DataInv, Awaits, Alone;
    if more == [] {
    } else {
      var m := Next(s, more[0]).value;
      StepKeeps(s, more[0], m);
      AwaitsKept(s, more[0], m);
      AwaitsForever(m, more[1..], t);
    }
  }

  ghost predicate FinishesAlone(s: State, more: seq<Step>) {
    AllAlone(more) && Run(s, more).Some? && Run(s, more).value.opener.Finished?
  }

  /** A service can finish without the client and the socket exactly when it awaits nothing. */
  lemma FinishesAloneUnlessAwaiting(localId: u32, steps: seq<Step>, s: State)
    requires Run(Init(localId), steps) == Some(s)
    ensures (exists more :: FinishesAlone(s, more)) <==> !Awaits(s)
  {
    hide Run, Next, LogInv, FlowInv, DataInv, Awaits, AllAlone;
    Invariant(localId, steps, s);
    if Awaits(s) {
      forall more | AllAlone(more) && Run(s, more).Some?
        ensures !FinishesAlone(s, more)
      {
        AwaitsForever(s, more, Run(s, more).value);
        AwaitsMeans(Run(s, more).value);
      }
    } else {
      var more, t := CanFinish(s);
      assert FinishesAlone(s, more);
    }
  }

  lemma {:induction false} Then(s: State, steps: seq<Step>, t: State, step: Step)
    requires Run(s, steps) == Some(t)
    ensures Run(s, steps + [step]) == Next(t, step)
    decreases |steps|
  {
    hide Next;
    if steps == [] {
      assert [step][1..] == [];
    } else {
      Then(Next(s, steps[0]).value, steps[1..], t, step);
      assert (steps + [step])[1..] == steps[1..] + [step];
    }
  }

  /** Such a panic does happen: the socket ends the service after the transport was stored, and has not even set `ended`. */
  lemma PanicHappens(localId: u32) returns (steps: seq<Step>, s: State)
    ensures Run(Init(localId), steps) == Some(s) && s.panicked && !s.v.ended
  {
    hide Run;
    steps, s := [], Init(localId);
    EmptyRun(s);
    steps, s := Extend(localId, steps, s, Dial(true));
    steps, s := Extend(localId, steps, s, Install);
    steps, s := Extend(localId, steps, s, EndBegin(SocketG));
    steps, s := Extend(localId, steps, s, EndHand);
    steps, s := Extend(localId, steps, s, EndClearField);
    steps, s := Extend(localId, steps, s, SendName(true));
  }

  /** A client can see the close of a stream before its open, and a close with id 0 after its open. */
  lemma OpenAndCloseCross(localId: u32, closeFirst: bool) returns (steps: seq<Step>, s: State)
    ensures Run(Init(localId), steps) == Some(s)
    ensures s.v.log == if closeFirst then [SentClse(0), SentOpenOkay] else [SentOpenOkay, SentClse(0)]
  {
    hide Run;
    steps, s := [], Init(localId);
    EmptyRun(s);
    steps, s := Extend(localId, steps, s, Dial(true));
    steps, s := Extend(localId, steps, s, Install);
    steps, s := Extend(localId, steps, s, SendName(true));
    steps, s := Extend(localId, steps, s, ReadReply(ReplyOkay));
    if closeFirst {
      steps, s := Extend(localId, steps, s, EndBegin(SocketG));
      steps, s := Extend(localId, steps, s, EndHand);
      steps, s := Extend(localId, steps, s, HandOkay);
    } else {
      steps, s := Extend(localId, steps, s, HandOkay);
      steps, s := Extend(localId, steps, s, EndBegin(SocketG));
      steps, s := Extend(localId, steps, s, EndHand);
    }
  }

  lemma Extend(localId: u32, steps: seq<Step>, s: State, step: Step) returns (more: seq<Step>, t: State)
    requires Run(Init(localId), steps) == Some(s) && Next(s, step).Some?
    ensures Run(Init(localId), more) == Some(t) && Next(s, step) == Some(t)
  {
    hide Run, Next;
    more, t := steps + [step], Next(s, step).value;
    Then(Init(localId), steps, s, step);
  }

  lemma EmptyRun(s: State)
    ensures Run(s, []) == Some(s)
  {
  }

  ghost predicate Reachable(localId: u32, s: State) {
    exists steps :: Run(Init(localId), steps) == Some(s)
  }

  lemma ReachableStart(localId: u32, maxPayload: nat)
    requires maxPayload <= MAX_NEGOTIATED
    ensures Reachable(localId, Init(localId).(maxPayload := maxPayload))
  {
    hide Run;
    EmptyRun(Init(localId));
    var _, _ := Extend(localId, [], Init(localId), Negotiate(maxPayload));
  }

  lemma ReachableStep(localId: u32, s: State, step: Step, t: State)
    requires Reachable(localId, s) && Next(s, step) == Some(t)
    ensures Reachable(localId, t)
  {
    hide Run, Next;
    var steps :| Run(Init(localId), steps) == Some(s);
    var _, _ := Extend(localId, steps, s, step);
  }
}
