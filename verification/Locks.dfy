/** The lock discipline of the bridge: any number of goroutines over any number of services. */
module LockOrder {

  datatype Lock = MapMu | ServiceMu(id: nat) | WriteMu | SocketMu

  /** The order in which the program nests its mutexes. */
  function Rank(l: Lock): nat {
    match l
    case MapMu => 0
    case ServiceMu(_) => 1
    case WriteMu => 2
    case SocketMu => 3
  }

  /** ServiceMap.mu is a reader-writer mutex, the others are only taken for writing; Send is a write to the client or to the device. */
  datatype Op = Acquire(lock: Lock, shared: bool) | Release(lock: Lock) | Send(device: bool)

  // --------------------------------------------- the lock traces of the routines

  function Around(l: Lock, inner: seq<Op>): seq<Op> {
    [Acquire(l, false)] + inner + [Release(l)]
  }

  /** How a critical section uses Socket.Write: not at all, on a socket that has ended, or on one that has not. */
  datatype Writing = NoWrite | Refused | Sends

  /** Socket.Write: writeMu for the whole write, Socket.mu only around the test of ended. */
  function SocketWrite(w: Writing): seq<Op> {
    match w
    case NoWrite => []
    case Refused => Around(WriteMu, Around(SocketMu, []))
    case Sends => Around(WriteMu, Around(SocketMu, []) + [Send(false)])
  }

  /** Service.End, which hands its CLSE to Socket.Write unless the service had ended. */
  function ServiceEnd(id: nat, w: Writing): seq<Op> {
    Around(ServiceMu(id), SocketWrite(w))
  }

  /** The calls of End made by ServiceMap.End. */
  function ServiceEnds(ids: seq<(nat, Writing)>): seq<Op> {
    if ids == [] then [] else ServiceEnd(ids[0].0, ids[0].1) + ServiceEnds(ids[1..])
  }

  /** Everything a goroutine of the bridge can do with locks between two points where it holds none. */
  datatype Routine =
    | FieldAccess                          // handle, MaxPayload, the handlers' reads and writes of Socket fields
    | WritePacket(w: Writing)              // Socket.Write from a Socket handler or from the open path
    | MapRead                              // ServiceMap.Get, ServiceMap.Count
    | MapChange                            // ServiceMap.Insert, ServiceMap.Remove
    | EndMap(ids: seq<(nat, Writing)>)     // ServiceMap.End
    | EndService(id: nat, w: Writing)      // Service.End
    | ServiceFields(id: nat)               // critical sections that touch only the service's own fields
    | ServiceWrites(id: nat, w: Writing)   // the send of forwardFromDevice; handleWritePacket with an empty packet
    | DeviceWrites(id: nat, w: Writing)    // handleWritePacket, which writes to the device and then to the client
    | ServiceLimit(id: nat)                // the top of the loop of forwardFromDevice, which asks for MaxPayload

  function LocksOf(r: Routine): seq<Op> {
    match r
    case FieldAccess => Around(SocketMu, [])
    case WritePacket(w) => SocketWrite(w)
    case MapRead => [Acquire(MapMu, true), Release(MapMu)]
    case MapChange => Around(MapMu, [])
    case EndMap(ids) => Around(MapMu, ServiceEnds(ids))
    case EndService(id, w) => ServiceEnd(id, w)
    case ServiceFields(id) => Around(ServiceMu(id), [])
    case ServiceWrites(id, w) => Around(ServiceMu(id), SocketWrite(w))
    case DeviceWrites(id, w) => Around(ServiceMu(id), [Send(true)] + SocketWrite(w))
    case ServiceLimit(id) => Around(ServiceMu(id), Around(SocketMu, []))
  }

  /** The traces spelled out. */
  lemma PlainTraces(id: nat)
    ensures LocksOf(FieldAccess) == [Acquire(SocketMu, false), Release(SocketMu)]
    ensures LocksOf(MapRead) == [Acquire(MapMu, true), Release(MapMu)]
    ensures LocksOf(MapChange) == [Acquire(MapMu, false), Release(MapMu)]
    ensures LocksOf(ServiceFields(id)) == [Acquire(ServiceMu(id), false), Release(ServiceMu(id))]
    ensures LocksOf(ServiceLimit(id)) ==
            [Acquire(ServiceMu(id), false), Acquire(SocketMu, false), Release(SocketMu), Release(ServiceMu(id))]
  {
  }

  lemma WriteTraces()
    ensures LocksOf(WritePacket(NoWrite)) == []
    ensures LocksOf(WritePacket(Refused)) ==
            [Acquire(WriteMu, false), Acquire(SocketMu, false), Release(SocketMu), Release(WriteMu)]
    ensures LocksOf(WritePacket(Sends)) ==
            [Acquire(WriteMu, false), Acquire(SocketMu, false), Release(SocketMu), Send(false), Release(WriteMu)]
  {
  }

  /** With the service's mutex around them, and the table's around those of a sweep over one entry. */
  lemma NestedTraces(id: nat, w: Writing)
    ensures var mu, write := ServiceMu(id), LocksOf(WritePacket(w));
            && LocksOf(EndService(id, w)) == [Acquire(mu, false)] + write + [Release(mu)]
            && LocksOf(ServiceWrites(id, w)) == [Acquire(mu, false)] + write + [Release(mu)]
            && LocksOf(DeviceWrites(id, w)) == [Acquire(mu, false)] + ([Send(true)] + write) + [Release(mu)]
    ensures LocksOf(EndMap([(id, w)])) == [Acquire(MapMu, false)] + LocksOf(EndService(id, w)) + [Release(MapMu)]
  {
    hide SocketWrite;
    assert [(id, w)][1..] == [];
    assert ServiceEnds([(id, w)]) == ServiceEnd(id, w) + [];
  }

  // ------------------------------------------------------------------ all the runs

  datatype Hold = Hold(lock: Lock, shared: bool)

  /** The locks held, oldest first, and the lock operations still to do. */
  datatype Goroutine = Goroutine(held: seq<Hold>, todo: seq<Op>)

  type State = seq<Goroutine>

  datatype Step = Go(routine: Routine) | Call(who: nat, routine: Routine) | Do(who: nat)

  /** Whether goroutine j, by what it holds, keeps lock l from being acquired. */
  predicate Holds(g: Goroutine, l: Lock, shared: bool) {
    exists k :: 0 <= k < |g.held| && g.held[k].lock == l && !(shared && g.held[k].shared)
  }

  predicate Wants(g: Goroutine) {
    g.todo != [] && g.todo[0].Acquire?
  }

  /** A writer that waits for a reader-writer mutex also holds back later readers. */
  predicate HoldsBack(g: Goroutine, l: Lock, shared: bool) {
    shared && Wants(g) && g.todo[0].lock == l && !g.todo[0].shared
  }

  /** Goroutine i cannot go on before goroutine j does. */
  predicate WaitsFor(s: State, i: nat, j: nat) {
    i < |s| && j < |s| && Wants(s[i])
    && (Holds(s[j], s[i].todo[0].lock, s[i].todo[0].shared) || HoldsBack(s[j], s[i].todo[0].lock, s[i].todo[0].shared))
  }

  function Advance(g: Goroutine): Goroutine
    requires g.todo != []
  {
    match g.todo[0]
    case Acquire(l, shared) => Goroutine(g.held + [Hold(l, shared)], g.todo[1..])
    case Release(l) =>
      if g.held != [] && g.held[|g.held| - 1].lock == l then Goroutine(g.held[..|g.held| - 1], g.todo[1..])
      else Goroutine(g.held, g.todo[1..])
    case Send(_) => Goroutine(g.held, g.todo[1..])
  }

  ghost predicate Enabled(s: State, who: nat) {
    who < |s| && s[who].todo != [] && forall j :: 0 <= j < |s| && j != who ==> !WaitsFor(s, who, j)
  }

  /** Whether a waiting writer is given preference over new readers is left open: both behaviours are runs. */
  ghost predicate CanDo(s: State, who: nat) {
    who < |s| && s[who].todo != []
    && (Wants(s[who]) ==> forall j :: 0 <= j < |s| && j != who ==> !Holds(s[j], s[who].todo[0].lock, s[who].todo[0].shared))
  }

  ghost predicate Next(s: State, step: Step, t: State) {
    match step
    case Go(r) => t == s + [Goroutine([], LocksOf(r))]
    case Call(who, r) => who < |s| && s[who].todo == [] && t == s[who := s[who].(todo := LocksOf(r))]
    case Do(who) => CanDo(s, who) && t == s[who := Advance(s[who])]
  }

  ghost predicate IsRun(states: seq<State>, steps: seq<Step>) {
    && |states| == |steps| + 1
    && states[0] == []
    && forall k :: 0 <= k < |steps| ==> Next(states[k], steps[k], states[k + 1])
  }

  // -------------------------------------------------------------------- discipline

  predicate Above(l: Lock, held: seq<Hold>) {
    forall k :: 0 <= k < |held| ==> Rank(held[k].lock) < Rank(l)
  }

  /** Locks are taken in strictly increasing rank, released in reverse order, and all released at the end; each kind of write has its mutex. */
  predicate Disciplined(held: seq<Hold>, todo: seq<Op>)
    decreases |todo|
  {
    if todo == [] then held == []
    else
      match todo[0]
      case Acquire(l, shared) => Above(l, held) && Disciplined(held + [Hold(l, shared)], todo[1..])
      case Release(l) => held != [] && held[|held| - 1].lock == l && Disciplined(held[..|held| - 1], todo[1..])
      case Send(device) =>
        && held != [] && Disciplined(held, todo[1..])
        && if device then held[|held| - 1].lock.ServiceMu? else held[|held| - 1].lock == WriteMu
  }

  /** A stretch that may run under `held`, followed by anything that may. */
  lemma {:induction false} AroundDisciplined(held: seq<Hold>, l: Lock, inner: seq<Op>, after: seq<Op>)
    requires Above(l, held)
    requires Disciplined(held + [Hold(l, false)], inner + [Release(l)] + after)
    ensures Disciplined(held, Around(l, inner) + after)
  {
    var all := Around(l, inner) + after;
    assert all[0] == Acquire(l, false) && all[1..] == inner + [Release(l)] + after;
  }

  lemma {:induction false} LeafDisciplined(held: seq<Hold>, l: Lock, after: seq<Op>)
    requires Above(l, held) && Disciplined(held, after)
    ensures Disciplined(held, Around(l, []) + after)
  {
    var top := held + [Hold(l, false)];
    var tail := [] + [Release(l)] + after;
    assert tail[0] == Release(l) && tail[1..] == after;
    assert top[..|top| - 1] == held && top[|top| - 1].lock == l;
    AroundDisciplined(held, l, [], after);
  }

  lemma {:induction false} ReleaseDisciplined(held: seq<Hold>, l: Lock, after: seq<Op>)
    requires Disciplined(held, after)
    ensures Disciplined(held + [Hold(l, false)], [Release(l)] + after)
  {
    var top, tail := held + [Hold(l, false)], [Release(l)] + after;
    assert tail[0] == Release(l) && tail[1..] == after;
    assert top[..|top| - 1] == held;
  }

  lemma {:induction false} SendDisciplined(held: seq<Hold>, after: seq<Op>)
    requires Disciplined(held, after)
    ensures Disciplined(held + [Hold(WriteMu, false)], [Send(false)] + ([Release(WriteMu)] + after))
  {
    var tail := [Send(false)] + ([Release(WriteMu)] + after);
    ReleaseDisciplined(held, WriteMu, after);
    assert tail[0] == Send(false) && tail[1..] == [Release(WriteMu)] + after;
  }

  lemma {:induction false} WriteDisciplined(held: seq<Hold>, w: Writing, after: seq<Op>)
    requires Above(WriteMu, held) && Disciplined(held, after)
    ensures Disciplined(held, SocketWrite(w) + after)
  {
    hide Around;
    var top := held + [Hold(WriteMu, false)];
    match w
    case NoWrite => assert SocketWrite(w) + after == after;
    case Refused =>
      var tail := [Release(WriteMu)] + after;
      ReleaseDisciplined(held, WriteMu, after);
      LeafDisciplined(top, SocketMu, tail);
      assert Around(SocketMu, []) + tail == Around(SocketMu, []) + [Release(WriteMu)] + after;
      AroundDisciplined(held, WriteMu, Around(SocketMu, []), after);
    case Sends =>
      var tail := [Send(false)] + ([Release(WriteMu)] + after);
      SendDisciplined(held, after);
      LeafDisciplined(top, SocketMu, tail);
      assert Around(SocketMu, []) + tail == (Around(SocketMu, []) + [Send(false)]) + [Release(WriteMu)] + after;
      AroundDisciplined(held, WriteMu, Around(SocketMu, []) + [Send(false)], after);
  }

  lemma {:induction false} ServiceDisciplined(held: seq<Hold>, id: nat, w: Writing, after: seq<Op>)
    requires Above(ServiceMu(id), held) && Disciplined(held, after)
    ensures Disciplined(held, Around(ServiceMu(id), SocketWrite(w)) + after)
    ensures Disciplined(held, Around(ServiceMu(id), Around(SocketMu, [])) + after)
    ensures Disciplined(held, Around(ServiceMu(id), [Send(true)] + SocketWrite(w)) + after)
  {
    hide Around, SocketWrite;
    var l := ServiceMu(id);
    var top, tail := held + [Hold(l, false)], [Release(l)] + after;
    ReleaseDisciplined(held, l, after);
    WriteDisciplined(top, w, tail);
    assert SocketWrite(w) + tail == SocketWrite(w) + [Release(l)] + after;
    AroundDisciplined(held, l, SocketWrite(w), after);
    var sending := [Send(true)] + SocketWrite(w) + [Release(l)] + after;
    assert sending[1..] == SocketWrite(w) + tail;
    AroundDisciplined(held, l, [Send(true)] + SocketWrite(w), after);
    LeafDisciplined(top, SocketMu, tail);
    assert Around(SocketMu, []) + tail == Around(SocketMu, []) + [Release(l)] + after;
    AroundDisciplined(held, l, Around(SocketMu, []), after);
  }

  lemma {:induction false} EndsDisciplined(held: seq<Hold>, ids: seq<(nat, Writing)>, after: seq<Op>)
    requires held == [Hold(MapMu, false)] && Disciplined(held, after)
    ensures Disciplined(held, ServiceEnds(ids) + after)
  {
    if ids == [] {
      assert ServiceEnds(ids) + after == after;
    } else {
      EndsDisciplined(held, ids[1..], after);
      var rest := ServiceEnds(ids[1..]) + after;
      ServiceDisciplined(held, ids[0].0, ids[0].1, rest);
      assert ServiceEnds(ids) + after == ServiceEnd(ids[0].0, ids[0].1) + rest;
    }
  }

  lemma {:induction false} EndMapDisciplined(ids: seq<(nat, Writing)>)
    ensures Disciplined([], Around(MapMu, ServiceEnds(ids)))
  {
    hide Around, ServiceEnds;
    var held := [] + [Hold(MapMu, false)];
    ReleaseDisciplined([], MapMu, []);
    EndsDisciplined(held, ids, [Release(MapMu)] + []);
    assert ServiceEnds(ids) + ([Release(MapMu)] + []) == ServiceEnds(ids) + [Release(MapMu)] + [];
    AroundDisciplined([], MapMu, ServiceEnds(ids), []);
    assert Around(MapMu, ServiceEnds(ids)) + [] == Around(MapMu, ServiceEnds(ids));
  }

  lemma NothingHeld()
    ensures Disciplined([], [])
  {
  }

  lemma {:induction false} SharedDisciplined()
    ensures Disciplined([], [Acquire(MapMu, true), Release(MapMu)])
  {
    var h := [Hold(MapMu, true)];
    assert [Release(MapMu)][1..] == [] && h[..0] == [];
    assert Disciplined(h, [Release(MapMu)]);
    assert [Acquire(MapMu, true), Release(MapMu)][1..] == [Release(MapMu)] && [] + h == h;
  }

  /** Every routine of the bridge keeps the discipline. */
  lemma {:induction false} RoutinesDisciplined(r: Routine)
    ensures Disciplined([], LocksOf(r))
  {
    hide Disciplined, Around;
    NothingHeld();
    assert LocksOf(r) + [] == LocksOf(r);
    match r
    case FieldAccess => LeafDisciplined([], SocketMu, []);
    case WritePacket(w) => WriteDisciplined([], w, []);
    case MapRead => SharedDisciplined();
    case MapChange => LeafDisciplined([], MapMu, []);
    case EndMap(ids) => EndMapDisciplined(ids);
    case EndService(id, w) => ServiceDisciplined([], id, w, []);
    case ServiceFields(id) => ServiceDisciplined([], id, NoWrite, []);
    case ServiceWrites(id, w) => ServiceDisciplined([], id, w, []);
    case DeviceWrites(id, w) => ServiceDisciplined([], id, w, []);
    case ServiceLimit(id) => ServiceDisciplined([], id, NoWrite, []);
  }

  predicate Increasing(held: seq<Hold>) {
    forall a, b :: 0 <= a < b < |held| ==> Rank(held[a].lock) < Rank(held[b].lock)
  }

  predicate Orderly(g: Goroutine) {
    Increasing(g.held) && Disciplined(g.held, g.todo)
  }

  ghost predicate AllOrderly(s: State) {
    forall i :: 0 <= i < |s| ==> Orderly(s[i])
  }

  lemma {:induction false} StepKeepsOrder(s: State, step: Step, t: State)
    requires AllOrderly(s) && Next(s, step, t)
    ensures AllOrderly(t)
  {
    match step
    case Go(r) => RoutinesDisciplined(r);
    case Call(who, r) => RoutinesDisciplined(r);
    case Do(who) => assert Orderly(Advance(s[who]));
  }

  lemma {:induction false} RunsAreOrderly(states: seq<State>, steps: seq<Step>, k: nat)
    requires IsRun(states, steps) && k <= |steps|
    ensures AllOrderly(states[k])
  {
    hide Next, Orderly;
    if k == 0 {
    } else {
      RunsAreOrderly(states, steps, k - 1);
      StepKeepsOrder(states[k - 1], steps[k - 1], states[k]);
    }
  }

  // ----------------------------------------------------------------- what it means

  /** No goroutine ever holds two service mutexes, or any mutex twice. */
  lemma OneServiceLock(states: seq<State>, steps: seq<Step>, k: nat, i: nat)
    requires IsRun(states, steps) && k <= |steps| && i < |states[k]|
    ensures forall a, b :: 0 <= a < b < |states[k][i].held| ==>
              && states[k][i].held[a].lock != states[k][i].held[b].lock
              && !(states[k][i].held[a].lock.ServiceMu? && states[k][i].held[b].lock.ServiceMu?)
  {
    RunsAreOrderly(states, steps, k);
    assert Orderly(states[k][i]);
  }

  /** Nobody else holds a mutex that is held for writing. */
  ghost predicate Exclusive(s: State) {
    forall i, j, a, b ::
      0 <= i < |s| && 0 <= j < |s| && i != j && 0 <= a < |s[i].held| && 0 <= b < |s[j].held| ==>
      s[i].held[a].lock == s[j].held[b].lock ==> s[i].held[a].shared && s[j].held[b].shared
  }

  lemma DoKeepsExclusive(s: State, who: nat, t: State)
    requires Exclusive(s) && CanDo(s, who) && t == s[who := Advance(s[who])]
    ensures Exclusive(t)
  {
    if Wants(s[who]) {
      var op := s[who].todo[0];
      forall j, b | 0 <= j < |s| && j != who && 0 <= b < |s[j].held| && s[j].held[b].lock == op.lock
        ensures op.shared && s[j].held[b].shared
      {
        assert !Holds(s[j], op.lock, op.shared);
      }
    }
  }

  lemma StepKeepsExclusive(s: State, step: Step, t: State)
    requires Exclusive(s) && Next(s, step, t)
    ensures Exclusive(t)
  {
    hide Advance, CanDo;
    match step
    case Go(r) =>
    case Call(who, r) =>
    case Do(who) => DoKeepsExclusive(s, who, t);
  }

  /** In every run a mutex that one goroutine holds for writing is held by no other. */
  lemma {:induction false} MutualExclusion(states: seq<State>, steps: seq<Step>, k: nat)
    requires IsRun(states, steps) && k <= |steps|
    ensures Exclusive(states[k])
  {
    hide Next, Exclusive;
    if k == 0 {
      assert Exclusive([]) by { NobodyHolds(); }
    } else {
      MutualExclusion(states, steps, k - 1);
      StepKeepsExclusive(states[k - 1], steps[k - 1], states[k]);
    }
  }

  lemma NobodyHolds()
    ensures Exclusive([])
  {
  }

  /** How high in the order the lock stands that a goroutine waits for; writers stand above readers. */
  function Level(g: Goroutine): nat
    requires Wants(g)
  {
    2 * Rank(g.todo[0].lock) + if g.todo[0].shared then 0 else 1
  }

  /** A goroutine that is waited for either can go on or waits for something higher. */
  lemma {:induction false} WaitingClimbs(s: State, i: nat, j: nat)
    requires AllOrderly(s) && WaitsFor(s, i, j)
    ensures s[j].todo != []
    ensures Wants(s[j]) ==> Level(s[i]) < Level(s[j])
  {
    assert Orderly(s[j]);
  }

  /** Each goroutine of the list waits for the next one. */
  predicate Chain(s: State, path: seq<nat>)
    decreases |path|
  {
    |path| < 2 || (WaitsFor(s, path[0], path[1]) && Chain(s, path[1..]))
  }

  lemma {:induction false} ChainClimbs(s: State, path: seq<nat>)
    requires AllOrderly(s) && |path| >= 2 && Chain(s, path)
    ensures WaitsFor(s, path[0], path[1]) && path[|path| - 1] < |s|
    ensures Wants(s[path[|path| - 1]]) ==> Level(s[path[0]]) < Level(s[path[|path| - 1]])
    decreases |path|
  {
    WaitingClimbs(s, path[0], path[1]);
    if |path| == 2 {
    } else {
      ChainClimbs(s, path[1..]);
    }
  }

  /** No set of goroutines ever waits on each other's locks in a cycle, nor one goroutine on itself. */
  lemma NoCircularWait(states: seq<State>, steps: seq<Step>, k: nat, path: seq<nat>)
    requires IsRun(states, steps) && k <= |steps| && |path| >= 2 && path[0] == path[|path| - 1]
    ensures !Chain(states[k], path)
  {
    hide Orderly;
    RunsAreOrderly(states, steps, k);
    if Chain(states[k], path) {
      ChainClimbs(states[k], path);
    }
  }

  lemma {:induction false} SomeoneCanGo(s: State, i: nat) returns (who: nat)
    requires AllOrderly(s) && i < |s| && s[i].todo != []
    ensures Enabled(s, who)
    decreases if Wants(s[i]) then 8 - Level(s[i]) else 0
  {
    if Enabled(s, i) {
      who := i;
    } else {
      var j :| 0 <= j < |s| && j != i && WaitsFor(s, i, j);
      WaitingClimbs(s, i, j);
      who := SomeoneCanGo(s, j);
    }
  }

  /** As long as a goroutine has a lock operation ahead of it, some goroutine can do its own. */
  lemma LocksNeverStuck(states: seq<State>, steps: seq<Step>, k: nat, i: nat) returns (who: nat)
    requires IsRun(states, steps) && k <= |steps| && i < |states[k]| && states[k][i].todo != []
    ensures Enabled(states[k], who) && CanDo(states[k], who)
  {
    hide Orderly;
    RunsAreOrderly(states, steps, k);
    who := SomeoneCanGo(states[k], i);
    var s := states[k];
    assert Wants(s[who]) ==> forall j :: 0 <= j < |s| && Holds(s[j], s[who].todo[0].lock, s[who].todo[0].shared) ==> WaitsFor(s, who, j);
  }
}
