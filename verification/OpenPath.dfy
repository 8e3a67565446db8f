/**
 * What the open path and the forwarder of a service owe to the device and to the client, over the list of steps taken
 * (tcpusb/service.go).
 */
module OpenPath {
  import opened Bytes
  import opened Wrappers
  import opened ServiceCore
  import opened ServiceRuns

  // --------------------------------------------------------- the steps of the opener

  predicate IsOpenerStep(step: Step) {
    || step.Dial? || step.Install? || step.CloseLate? || step.SendName? || step.ReadReply? || step.ReadFailure?
    || step.HandOkay? || step.SetOpened? || step.Spawn? || step.WaitDone? || step.Remove?
  }

  function OpenerSteps(steps: seq<Step>): seq<Step> {
    if steps == [] then []
    else
      var last := steps[|steps| - 1];
      OpenerSteps(steps[..|steps| - 1]) + if IsOpenerStep(last) then [last] else []
  }

  const NAMED: seq<Step> := [Dial(true), Install]
  const ASKED: seq<Step> := [Dial(true), Install, SendName(true)]
  const GRANTED: seq<Step> := [Dial(true), Install, SendName(true), ReadReply(ReplyOkay)]
  const SERVED: seq<Step> := [Dial(true), Install, SendName(true), ReadReply(ReplyOkay), HandOkay, SetOpened, Spawn]

  /** The ways of an open path that is over, up to the removal from the table; a panic cuts one short. */
  predicate GaveUp(trace: seq<Step>, panicked: bool) {
    || trace == [Dial(false)]
    || trace == NAMED + [CloseLate]
    || trace == NAMED + [SendName(false)]
    || trace == ASKED + [ReadReply(ReplyOther)]
    || trace == ASKED + [ReadReply(ReplyError)]
    || trace == ASKED + [ReadReply(ReplyFail), ReadFailure]
    || trace == SERVED + [WaitDone]
    || (panicked && trace == NAMED + [SendName(true)])
    || (panicked && (trace == ASKED + [ReadReply(ReplyOkay)] || trace == ASKED + [ReadReply(ReplyFail)]))
  }

  /** Where the opener stands says what it has done. */
  predicate Did(o: Opener, trace: seq<Step>, panicked: bool) {
    match o
    case Dialling => trace == []
    case Installing => trace == [Dial(true)]
    case ClosingLate => trace == NAMED
    case Naming => trace == NAMED
    case AwaitingReply => trace == ASKED
    case ReadingFailure => trace == ASKED + [ReadReply(ReplyFail)]
    case SendingOkay => trace == GRANTED
    case SettingOpened => trace == GRANTED + [HandOkay]
    case Spawning => trace == GRANTED + [HandOkay, SetOpened]
    case Waiting => trace == SERVED
    case Removing => GaveUp(trace, panicked)
    case _ => trace != [] && trace[|trace| - 1] == Remove && GaveUp(trace[..|trace| - 1], panicked)
  }

  predicate NoWrte(log: seq<Event>) {
    forall k :: 0 <= k < |log| ==> !log[k].SentWrte?
  }

  predicate Told(steps: seq<Step>, s: State) {
    var trace := OpenerSteps(steps);
    && Did(s.opener, trace, s.panicked)
    && (HasOpenOkay(s.v.log) <==> HandOkay in trace)
    && (s.forwarder.NotStarted? <==> Spawn !in trace)
    && (s.forwarder.NotStarted? ==> NoWrte(s.v.log))
  }

  lemma StepsGrow(steps: seq<Step>, step: Step)
    ensures OpenerSteps(steps + [step]) == OpenerSteps(steps) + if IsOpenerStep(step) then [step] else []
  {
    assert (steps + [step])[..|steps|] == steps;
  }

  lemma OpenOkayGrows(log: seq<Event>, e: Event)
    ensures HasOpenOkay(log + [e]) <==> HasOpenOkay(log) || e.SentOpenOkay?
    ensures NoWrte(log + [e]) <==> NoWrte(log) && !e.SentWrte?
  {
    var more := log + [e];
    assert more[|log|] == e && forall i :: 0 <= i < |log| ==> more[i] == log[i];
  }

  lemma OpenerDid(trace: seq<Step>, s: State, step: Step, t: State)
    requires LifeInv(s) && Did(s.opener, trace, s.panicked) && OpenerStep(s, step) == Some(t) && IsOpenerStep(step)
    ensures Did(t.opener, trace + [step], t.panicked)
  {
    var more := trace + [step];
    assert more[..|more| - 1] == trace;
  }

  lemma OpenerTold(steps: seq<Step>, s: State, step: Step, t: State)
    requires LifeInv(s) && Told(steps, s) && OpenerStep(s, step) == Some(t) && IsOpenerStep(step)
    ensures Told(steps + [step], t)
  {
    hide HasOpenOkay, NoWrte, OpenerSteps, Did, LifeInv;
    StepsGrow(steps, step);
    OpenerDid(OpenerSteps(steps), s, step, t);
    OpenOkayGrows(s.v.log, SentOpenOkay);
    assert step.Spawn? ==> !s.opener.Waiting?;
  }

  /** What no other goroutine touches; the opener itself only returns from its End. */
  ghost predicate OpenerUntouched(s: State, t: State) {
    && t.panicked == s.panicked
    && (t.opener == s.opener || (s.opener.Ending? && t.opener.Finished?))
    && (t.forwarder.NotStarted? <==> s.forwarder.NotStarted?)
    && (t.v.log == s.v.log || exists e ::
          t.v.log == s.v.log + [e] && !e.SentOpenOkay? && (e.SentWrte? ==> !s.forwarder.NotStarted?))
  }

  lemma UntouchedTold(steps: seq<Step>, s: State, step: Step, t: State)
    requires Told(steps, s) && !IsOpenerStep(step) && OpenerUntouched(s, t)
    ensures Told(steps + [step], t)
  {
    hide HasOpenOkay, NoWrte, OpenerSteps;
    StepsGrow(steps, step);
    if t.v.log != s.v.log {
      var e :| t.v.log == s.v.log + [e] && !e.SentOpenOkay? && (e.SentWrte? ==> !s.forwarder.NotStarted?);
      OpenOkayGrows(s.v.log, e);
    }
  }

  lemma ForwarderUntouched(s: State, step: Step, t: State)
    requires ForwarderStep(s, step) == Some(t)
    ensures OpenerUntouched(s, t) && !IsOpenerStep(step)
  {
  }

  lemma HandlerUntouched(s: State, step: Step, t: State)
    requires HandlerStep(s, step) == Some(t)
    ensures OpenerUntouched(s, t) && !IsOpenerStep(step)
  {
  }

  lemma EndUntouched(s: State, step: Step, t: State)
    requires LifeInv(s) && EndStep(s, step) == Some(t)
    ensures OpenerUntouched(s, t) && !IsOpenerStep(step)
  {
  }

  lemma StepTold(steps: seq<Step>, s: State, step: Step, t: State)
    requires LifeInv(s) && Told(steps, s) && Next(s, step) == Some(t)
    ensures Told(steps + [step], t)
  {
    hide Told, OpenerUntouched, LifeInv, OpenerStep, ForwarderStep, HandlerStep, EndStep;
    match step
    case ForwardTop | PollEnd | PollTimer | DeviceRead(_) | DeviceFail(_) | ForwardSend | SignalDone =>
      ForwarderUntouched(s, step, t);
      UntouchedTold(steps, s, step, t);
    case HandleOkay | HandleWrite(_, _) | AnswerWrite | HandleClose | Negotiate(_) =>
      HandlerUntouched(s, step, t);
      UntouchedTold(steps, s, step, t);
    case EndBegin(_) | EndHand | EndClearField | EndFinish =>
      EndUntouched(s, step, t);
      UntouchedTold(steps, s, step, t);
    case _ => OpenerTold(steps, s, step, t);
  }

  lemma {:induction false} RunTold(done: seq<Step>, s: State, more: seq<Step>, t: State)
    requires Inv(s) && Told(done, s) && Run(s, more) == Some(t)
    ensures Told(done + more, t)
    decreases |more|
  {
    hide Told, Next, LifeInv, WaitInv, LogInv, FlowInv, DataInv;
    if more == [] {
      assert done + more == done;
    } else {
      var m := Next(s, more[0]).value;
      StepTold(done, s, more[0], m);
      StepKeeps(s, more[0], m);
      RunTold(done + [more[0]], m, more[1..], t);
      assert done + [more[0]] + more[1..] == done + more;
    }
  }

  lemma AllTold(localId: u32, steps: seq<Step>, s: State)
    requires Run(Init(localId), steps) == Some(s)
    ensures Told(steps, s)
  {
    hide Run;
    EmptyRun(Init(localId));
    Invariant(localId, [], Init(localId));
    RunTold([], Init(localId), steps, s);
    assert [] + steps == steps;
  }

  // ----------------------------------------------------------------- what it means

  /** The open path of every run is a beginning of one of these ways, whatever else happens around it. */
  lemma OpenPathIs(localId: u32, steps: seq<Step>, s: State)
    requires Run(Init(localId), steps) == Some(s)
    ensures Did(s.opener, OpenerSteps(steps), s.panicked)
  {
    hide Run, OpenerSteps, Did;
    AllTold(localId, steps, s);
  }

  lemma {:induction false} OpenerStepsIn(steps: seq<Step>, step: Step)
    requires IsOpenerStep(step)
    ensures step in OpenerSteps(steps) <==> step in steps
  {
    if steps == [] {
    } else {
      OpenerStepsIn(steps[..|steps| - 1], step);
      assert steps == steps[..|steps| - 1] + [steps[|steps| - 1]];
    }
  }

  /** The OKAY of an open was earned: the device was dialled, took the name of the service and answered OKAY. */
  lemma OpenOkayEarned(localId: u32, steps: seq<Step>, s: State)
    requires Run(Init(localId), steps) == Some(s) && HasOpenOkay(s.v.log)
    ensures Dial(true) in steps && Install in steps && SendName(true) in steps && ReadReply(ReplyOkay) in steps
  {
    hide Run, OpenerSteps, HasOpenOkay, NoWrte, Did;
    AllTold(localId, steps, s);
    var trace := OpenerSteps(steps);
    OkayInTrace(s.opener, trace, s.panicked);
    assert trace[0] == GRANTED[0] && trace[1] == GRANTED[1] && trace[2] == GRANTED[2] && trace[3] == GRANTED[3];
    OpenerStepsIn(steps, Dial(true));
    OpenerStepsIn(steps, Install);
    OpenerStepsIn(steps, SendName(true));
    OpenerStepsIn(steps, ReadReply(ReplyOkay));
  }

  /** No way goes on to the OKAY, or to the forwarder, but over an OKAY of the device. */
  lemma OkayInTrace(o: Opener, trace: seq<Step>, panicked: bool)
    requires Did(o, trace, panicked)
    ensures HandOkay in trace || Spawn in trace ==> GRANTED <= trace
    ensures HandOkay in trace || Spawn in trace ==> forall r: Reply :: ReadReply(r) in trace ==> r.ReplyOkay?
  {
  }

  /** The device was asked and did not answer OKAY. */
  predicate Denied(steps: seq<Step>) {
    exists k :: 0 <= k < |steps| && steps[k].ReadReply? && !steps[k].reply.ReplyOkay?
  }

  /** A stream that the device denied is never acknowledged, carries nothing, and is closed with id 0, however it goes on. */
  lemma DeniedStaysClosed(localId: u32, steps: seq<Step>, s: State, more: seq<Step>, t: State)
    requires Run(Init(localId), steps) == Some(s) && Denied(steps) && Run(s, more) == Some(t)
    ensures forall k :: 0 <= k < |t.v.log| ==> !t.v.log[k].SentOpenOkay? && !t.v.log[k].SentWrte?
    ensures forall k :: 0 <= k < |t.v.log| && t.v.log[k].SentClse? ==> t.v.log[k].id == 0
  {
    hide Run, OpenerSteps, Next, Did, LifeInv, WaitInv, FlowInv, DataInv, QuietAfterClose, OneOpenOkay, HasClose;
    Invariant(localId, steps, s);
    RunKeeps(s, more, t);
    AllTold(localId, steps, s);
    RunTold(steps, s, more, t);
    var trace := OpenerSteps(steps + more);
    var k :| 0 <= k < |steps| && steps[k].ReadReply? && !steps[k].reply.ReplyOkay?;
    assert (steps + more)[k] == steps[k];
    OpenerStepsIn(steps + more, steps[k]);
    OkayInTrace(t.opener, trace, t.panicked);
    assert !HasOpenOkay(t.v.log);
    forall j | 0 <= j < |t.v.log| && t.v.log[j].SentClse?
      ensures t.v.log[j].id == 0
    {
      assert HasOpenOkay(t.v.log[..j]) ==> HasOpenOkay(t.v.log);
    }
  }

  // -------------------------------------------------------------- the payload limit

  /** The limit the client has asked for last, 65535 at most; 4096 before that. */
  function LimitAfter(steps: seq<Step>): nat {
    if steps == [] then 4096
    else
      var last := steps[|steps| - 1];
      if last.Negotiate? then Min(last.size, 65535) else LimitAfter(steps[..|steps| - 1])
  }

  /** The limit that was in force when the forwarder began some round of its loop. */
  predicate Sampled(steps: seq<Step>, limit: nat) {
    exists n :: 0 <= n < |steps| && steps[n].ForwardTop? && limit == LimitAfter(steps[..n])
  }

  predicate Limited(steps: seq<Step>, s: State) {
    && s.maxPayload == LimitAfter(steps)
    && (s.forwarder.Reading? ==> Sampled(steps, s.forwarder.limit))
    && (s.forwarder.Sending? ==> Sampled(steps, s.forwarder.limit))
    && forall k :: 0 <= k < |s.v.log| && s.v.log[k].SentWrte? ==> Sampled(steps, s.v.log[k].limit)
  }

  lemma SampledStays(steps: seq<Step>, step: Step, limit: nat)
    requires Sampled(steps, limit)
    ensures Sampled(steps + [step], limit)
  {
    var n :| 0 <= n < |steps| && steps[n].ForwardTop? && limit == LimitAfter(steps[..n]);
    assert (steps + [step])[n] == steps[n] && (steps + [step])[..n] == steps[..n];
  }

  lemma SampledNow(steps: seq<Step>)
    ensures Sampled(steps + [ForwardTop], LimitAfter(steps))
  {
    assert (steps + [ForwardTop])[|steps|] == ForwardTop && (steps + [ForwardTop])[..|steps|] == steps;
  }

  lemma LimitGrows(steps: seq<Step>, step: Step)
    ensures LimitAfter(steps + [step]) == if step.Negotiate? then Min(step.size, 65535) else LimitAfter(steps)
  {
    assert (steps + [step])[..|steps|] == steps;
  }

  /** The bytes that a step reads from the device, those that come with an error included. */
  function BytesRead(step: Step): seq<byte> {
    if step.DeviceRead? then step.chunk else if step.DeviceFail? then step.tail else []
  }

  /** What a step can do to the bytes read and to the limits: sample the one in force, or carry one along. */
  ghost predicate LimitsCarried(s: State, step: Step, t: State) {
    && (t.maxPayload == if step.Negotiate? then Min(step.size, 65535) else s.maxPayload)
    && t.device == s.device + BytesRead(step)
    && (t.forwarder.Reading? ==>
        t.forwarder == s.forwarder || (step.ForwardTop? && t.forwarder.limit == Min(s.maxPayload, 65536)))
    && (t.forwarder.Sending? ==>
        t.forwarder == s.forwarder || (s.forwarder.Reading? && t.forwarder.limit == s.forwarder.limit))
    && (t.v.log == s.v.log || exists e ::
          t.v.log == s.v.log + [e] && (e.SentWrte? ==> s.forwarder.Sending? && e.limit == s.forwarder.limit))
  }

  lemma OpenerCarries(s: State, step: Step, t: State)
    requires OpenerStep(s, step) == Some(t)
    ensures LimitsCarried(s, step, t)
  {
  }

  lemma ForwarderCarries(s: State, step: Step, t: State)
    requires ForwarderStep(s, step) == Some(t)
    ensures LimitsCarried(s, step, t)
  {
  }

  lemma HandlerCarries(s: State, step: Step, t: State)
    requires HandlerStep(s, step) == Some(t)
    ensures LimitsCarried(s, step, t)
  {
  }

  lemma EndCarries(s: State, step: Step, t: State)
    requires EndStep(s, step) == Some(t)
    ensures LimitsCarried(s, step, t)
  {
  }

  lemma StepCarries(s: State, step: Step, t: State)
    requires Next(s, step) == Some(t)
    ensures LimitsCarried(s, step, t)
  {
    hide LimitsCarried, OpenerStep, ForwarderStep, HandlerStep, EndStep;
    match step
    case ForwardTop | PollEnd | PollTimer | DeviceRead(_) | DeviceFail(_) | ForwardSend | SignalDone =>
      ForwarderCarries(s, step, t);
    case HandleOkay | HandleWrite(_, _) | AnswerWrite | HandleClose | Negotiate(_) => HandlerCarries(s, step, t);
    case EndBegin(_) | EndHand | EndClearField | EndFinish => EndCarries(s, step, t);
    case _ => OpenerCarries(s, step, t);
  }

  lemma StepLimited(steps: seq<Step>, s: State, step: Step, t: State)
    requires Limited(steps, s) && s.maxPayload <= 65535 && Next(s, step) == Some(t)
    ensures Limited(steps + [step], t)
  {
    hide Next, Sampled, LimitAfter;
    StepCarries(s, step, t);
    LimitGrows(steps, step);
    SampledNow(steps);
    forall limit: nat | Sampled(steps, limit)
      ensures Sampled(steps + [step], limit)
    {
      SampledStays(steps, step, limit);
    }
  }

  lemma LimitBounded(s: State)
    requires Inv(s)
    ensures s.maxPayload <= 65535
  {
    hide LifeInv, WaitInv, LogInv, FlowInv, Payloads, Flatten;
  }

  lemma {:induction false} RunLimited(done: seq<Step>, s: State, more: seq<Step>, t: State)
    requires Inv(s) && Limited(done, s) && Run(s, more) == Some(t)
    ensures Limited(done + more, t)
    decreases |more|
  {
    hide Limited, Next, Inv;
    if more == [] {
      assert done + more == done;
    } else {
      var m := Next(s, more[0]).value;
      LimitBounded(s);
      StepLimited(done, s, more[0], m);
      StepKeeps(s, more[0], m);
      RunLimited(done + [more[0]], m, more[1..], t);
      assert done + [more[0]] + more[1..] == done + more;
    }
  }

  /** Every payload is at most as long as the client allowed when the forwarder began that round. */
  lemma PayloadsAllowed(localId: u32, steps: seq<Step>, s: State)
    requires Run(Init(localId), steps) == Some(s)
    ensures s.maxPayload == LimitAfter(steps)
    ensures forall k :: 0 <= k < |s.v.log| && s.v.log[k].SentWrte? ==>
              exists n :: 0 <= n < |steps| && steps[n].ForwardTop? && 0 < |s.v.log[k].payload| <= LimitAfter(steps[..n])
    ensures s.forwarder.Reading? ==>
              exists n :: 0 <= n < |steps| && steps[n].ForwardTop? && s.forwarder.limit == LimitAfter(steps[..n])
  {
    hide Run, LimitAfter, LifeInv, WaitInv, LogInv, FlowInv, Payloads, Flatten;
    EmptyRun(Init(localId));
    Invariant(localId, [], Init(localId));
    Invariant(localId, steps, s);
    assert LimitAfter([]) == 4096 by { NoLimitYet(); }
    RunLimited([], Init(localId), steps, s);
    assert [] + steps == steps;
  }

  lemma NoLimitYet()
    ensures LimitAfter([]) == 4096
  {
  }

  // ----------------------------------------------------------- what the device sent

  /** All the bytes that reads of the device have returned, those that came with an error included. */
  function ReadIn(steps: seq<Step>): seq<byte> {
    if steps == [] then []
    else
      var last := steps[|steps| - 1];
      ReadIn(steps[..|steps| - 1])
      + if last.DeviceRead? then last.chunk else if last.DeviceFail? then last.tail else []
  }

  lemma ReadGrows(steps: seq<Step>, step: Step)
    ensures ReadIn(steps + [step]) ==
            ReadIn(steps) + if step.DeviceRead? then step.chunk else if step.DeviceFail? then step.tail else []
  {
    assert (steps + [step])[..|steps|] == steps;
  }

  lemma StepReads(s: State, step: Step, t: State)
    requires Next(s, step) == Some(t)
    ensures t.device == s.device + if step.DeviceRead? then step.chunk else if step.DeviceFail? then step.tail else []
  {
    hide Next;
    StepCarries(s, step, t);
  }

  lemma {:induction false} RunReads(done: seq<Step>, s: State, more: seq<Step>, t: State)
    requires s.device == ReadIn(done) && Run(s, more) == Some(t)
    ensures t.device == ReadIn(done + more)
    decreases |more|
  {
    hide Next, ReadIn;
    if more == [] {
      assert done + more == done;
    } else {
      var m := Next(s, more[0]).value;
      StepReads(s, more[0], m);
      ReadGrows(done, more[0]);
      RunReads(done + [more[0]], m, more[1..], t);
      assert done + [more[0]] + more[1..] == done + more;
    }
  }

  /** What was sent to the client is, in order, a prefix of what reads of the device have returned. */
  lemma SentIsRead(localId: u32, steps: seq<Step>, s: State)
    requires Run(Init(localId), steps) == Some(s)
    ensures s.device == ReadIn(steps)
    ensures Payloads(s.v.log) <= ReadIn(steps)
  {
    hide Run, Payloads, Flatten;
    RunReads([], Init(localId), steps, s);
    assert [] + steps == steps;
    Conservation(localId, steps, s);
  }
}
