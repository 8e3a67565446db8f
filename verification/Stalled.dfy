/**
 * What a peer that stops reading does to the mutexes of the bridge.  A goroutine inside a write that is not taken keeps
 * its mutexes, and so does everyone who needs one of those.
 */
module StalledWrites {
  import opened LockOrder

  /** Which of the two sides still takes what is written to it. */
  datatype Peers = Peers(client: bool, device: bool)

  predicate Withheld(p: Peers, op: Op) {
    op.Send? && !(if op.device then p.device else p.client)
  }

  /** A step that needs no write that is withheld. */
  ghost predicate QuietStep(p: Peers, s: State, step: Step, t: State) {
    Next(s, step, t) && (step.Do? ==> !Withheld(p, s[step.who].todo[0]))
  }

  ghost predicate IsQuietRun(p: Peers, s: State, states: seq<State>, steps: seq<Step>) {
    && |states| == |steps| + 1 && states[0] == s
    && forall k :: 0 <= k < |steps| ==> QuietStep(p, states[k], steps[k], states[k + 1])
  }

  // ----------------------------------------------------------------- jammed mutexes

  /** Where a goroutine releases a mutex it holds. */
  function FirstRelease(todo: seq<Op>, l: Lock): (n: nat)
    ensures n <= |todo|
  {
    if todo == [] || todo[0] == Release(l) then 0 else 1 + FirstRelease(todo[1..], l)
  }

  predicate HoldsAlone(g: Goroutine, l: Lock) {
    exists k :: 0 <= k < |g.held| && g.held[k] == Hold(l, false)
  }

  /** Its holder comes to a withheld write, or needs another jammed mutex, before it releases it. */
  ghost predicate Jammed(p: Peers, s: State, l: Lock)
    decreases 4 - Rank(l)
  {
    exists j, m :: 0 <= j < |s| && 0 <= m < FirstRelease(s[j].todo, l) && HoldsAlone(s[j], l)
      && (var op := s[j].todo[m];
          Withheld(p, op) || (op.Acquire? && Rank(op.lock) > Rank(l) && Jammed(p, s, op.lock)))
  }

  ghost predicate JamsOn(p: Peers, s: State, op: Op) {
    Withheld(p, op) || (op.Acquire? && Jammed(p, s, op.lock))
  }

  /** The goroutine has a withheld write or a jammed mutex ahead of it. */
  ghost predicate Blocked(p: Peers, s: State, i: nat)
    requires i < |s|
  {
    exists m :: 0 <= m < |s[i].todo| && JamsOn(p, s, s[i].todo[m])
  }

  // ------------------------------------------------------------ the nesting of mutexes

  /** Mutexes are released in the reverse order of their acquisition, and all of them are. */
  lemma {:induction false} ReleasedInReverse(held: seq<Hold>, todo: seq<Op>, a: nat, b: nat)
    requires Increasing(held) && Disciplined(held, todo) && a <= b < |held|
    ensures FirstRelease(todo, held[b].lock) < |todo|
    ensures a < b ==> FirstRelease(todo, held[b].lock) < FirstRelease(todo, held[a].lock)
    decreases |todo|
  {
    match todo[0]
    case Acquire(l, shared) => ReleasedInReverse(held + [Hold(l, shared)], todo[1..], a, b);
    case Send(_) => ReleasedInReverse(held, todo[1..], a, b);
    case Release(l) =>
      if b == |held| - 1 {
      } else {
        ReleasedInReverse(held[..|held| - 1], todo[1..], a, b);
      }
  }

  /** What is acquired under a mutex stands above it, and nothing is written under Socket.mu. */
  lemma {:induction false} AcquiredAbove(held: seq<Hold>, todo: seq<Op>, a: nat, m: nat)
    requires Increasing(held) && Disciplined(held, todo) && a < |held| && m < FirstRelease(todo, held[a].lock)
    ensures todo[m].Acquire? ==> Rank(todo[m].lock) > Rank(held[a].lock)
    ensures todo[m].Send? ==> held[a].lock != SocketMu
    decreases |todo|
  {
    if m == 0 {
    } else {
      match todo[0]
      case Acquire(l, shared) => AcquiredAbove(held + [Hold(l, shared)], todo[1..], a, m - 1);
      case Send(_) => AcquiredAbove(held, todo[1..], a, m - 1);
      case Release(l) =>
        assert a < |held| - 1;
        AcquiredAbove(held[..|held| - 1], todo[1..], a, m - 1);
    }
  }

  /** The holder, the place and the operation that jam a mutex; in an orderly state any such place does. */
  lemma JamAt(p: Peers, s: State, l: Lock, j: nat, m: nat)
    requires AllOrderly(s) && j < |s| && HoldsAlone(s[j], l) && m < FirstRelease(s[j].todo, l) && JamsOn(p, s, s[j].todo[m])
    ensures Jammed(p, s, l)
  {
    assert Orderly(s[j]);
    var k :| 0 <= k < |s[j].held| && s[j].held[k] == Hold(l, false);
    AcquiredAbove(s[j].held, s[j].todo, k, m);
  }

  lemma JamWitness(p: Peers, s: State, l: Lock) returns (j: nat, m: nat)
    requires Jammed(p, s, l)
    ensures j < |s| && HoldsAlone(s[j], l) && m < FirstRelease(s[j].todo, l) && JamsOn(p, s, s[j].todo[m])
    ensures s[j].todo[m].Acquire? ==> Rank(s[j].todo[m].lock) > Rank(l)
  {
    var j0, m0 :| 0 <= j0 < |s| && 0 <= m0 < FirstRelease(s[j0].todo, l) && HoldsAlone(s[j0], l)
      && (var op := s[j0].todo[m0];
          Withheld(p, op) || (op.Acquire? && Rank(op.lock) > Rank(l) && Jammed(p, s, op.lock)));
    j, m := j0, m0;
  }

  // ------------------------------------------------------------------ jams last

  /** Nobody can do an operation that jams. */
  lemma JamsBar(p: Peers, s: State, step: Step, t: State)
    requires AllOrderly(s) && QuietStep(p, s, step, t) && step.Do?
    ensures !JamsOn(p, s, s[step.who].todo[0])
  {
    var who := step.who;
    var op := s[who].todo[0];
    if op.Acquire? && Jammed(p, s, op.lock) {
      var j, m := JamWitness(p, s, op.lock);
      assert Orderly(s[who]);
      assert j != who;
      assert Holds(s[j], op.lock, op.shared);
    }
  }

  /** A holder that takes a step before it comes to its release still holds. */
  lemma StillHolds(g: Goroutine, l: Lock, m: nat)
    requires Orderly(g) && HoldsAlone(g, l) && 0 < m < FirstRelease(g.todo, l)
    ensures HoldsAlone(Advance(g), l)
    ensures m - 1 < FirstRelease(Advance(g).todo, l) && Advance(g).todo[m - 1] == g.todo[m]
  {
    var k :| 0 <= k < |g.held| && g.held[k] == Hold(l, false);
    assert k < |Advance(g).held| && Advance(g).held[k] == Hold(l, false);
  }

  lemma {:induction false} JamLasts(p: Peers, s: State, step: Step, t: State, l: Lock)
    requires AllOrderly(s) && AllOrderly(t) && QuietStep(p, s, step, t) && Jammed(p, s, l)
    ensures Jammed(p, t, l)
    decreases 4 - Rank(l)
  {
    hide Jammed, Orderly;
    var j, m := JamWitness(p, s, l);
    var op := s[j].todo[m];
    if op.Acquire? {
      JamLasts(p, s, step, t, op.lock);
    }
    if step == Do(j) {
      JamsBar(p, s, step, t);
      StillHolds(s[j], l, m);
      JamAt(p, t, l, j, m - 1);
    } else {
      assert t[j] == s[j];
      JamAt(p, t, l, j, m);
    }
  }

  lemma BlockLasts(p: Peers, s: State, step: Step, t: State, i: nat)
    requires AllOrderly(s) && AllOrderly(t) && QuietStep(p, s, step, t) && i < |s| && Blocked(p, s, i)
    ensures i < |t| && Blocked(p, t, i)
  {
    hide Jammed, Orderly;
    var m :| 0 <= m < |s[i].todo| && JamsOn(p, s, s[i].todo[m]);
    var op := s[i].todo[m];
    if op.Acquire? {
      JamLasts(p, s, step, t, op.lock);
    }
    assert JamsOn(p, t, op);
    if step == Do(i) {
      JamsBar(p, s, step, t);
      assert t[i].todo[m - 1] == op;
    } else {
      assert t[i].todo[m] == op;
    }
  }

  lemma {:induction false} BlockedForever(p: Peers, s: State, states: seq<State>, steps: seq<Step>, i: nat, k: nat)
    requires AllOrderly(s) && i < |s| && Blocked(p, s, i) && IsQuietRun(p, s, states, steps) && k <= |steps|
    ensures AllOrderly(states[k]) && i < |states[k]| && Blocked(p, states[k], i)
  {
    hide Blocked, AllOrderly, Next;
    if k == 0 {
    } else {
      BlockedForever(p, s, states, steps, i, k - 1);
      StepKeepsOrder(states[k - 1], steps[k - 1], states[k]);
      BlockLasts(p, states[k - 1], steps[k - 1], states[k], i);
    }
  }

  // --------------------------------------------------------------- readers are brief

  /** The reader-writer mutex is taken for reading only to be released at once. */
  predicate BriefOps(todo: seq<Op>) {
    forall k :: 0 <= k < |todo| && todo[k].Acquire? && todo[k].shared ==>
      k + 1 < |todo| && todo[k + 1] == Release(todo[k].lock)
  }

  predicate Brief(g: Goroutine) {
    && BriefOps(g.todo)
    && forall k :: 0 <= k < |g.held| && g.held[k].shared ==> g.todo != [] && g.todo[0] == Release(g.held[k].lock)
  }

  ghost predicate AllBrief(s: State) {
    forall i :: 0 <= i < |s| ==> Brief(s[i])
  }

  predicate NoReading(todo: seq<Op>) {
    forall k :: 0 <= k < |todo| && todo[k].Acquire? ==> !todo[k].shared
  }

  lemma AroundReadsNothing(l: Lock, inner: seq<Op>)
    requires NoReading(inner)
    ensures NoReading(Around(l, inner))
  {
  }

  lemma WritesReadNothing(w: Writing)
    ensures NoReading(SocketWrite(w)) && NoReading([Send(true)] + SocketWrite(w))
  {
    hide Around;
    AroundReadsNothing(SocketMu, []);
    AroundReadsNothing(WriteMu, Around(SocketMu, []));
    AroundReadsNothing(WriteMu, Around(SocketMu, []) + [Send(false)]);
  }

  lemma {:induction false} EndsReadNothing(ids: seq<(nat, Writing)>)
    ensures NoReading(ServiceEnds(ids))
  {
    hide Around, SocketWrite;
    if ids == [] {
    } else {
      WritesReadNothing(ids[0].1);
      AroundReadsNothing(ServiceMu(ids[0].0), SocketWrite(ids[0].1));
      EndsReadNothing(ids[1..]);
    }
  }

  lemma RoutinesBrief(r: Routine)
    ensures BriefOps(LocksOf(r))
  {
    hide Around, SocketWrite, ServiceEnds;
    match r
    case FieldAccess => AroundReadsNothing(SocketMu, []);
    case WritePacket(w) => WritesReadNothing(w);
    case MapRead =>
    case MapChange => AroundReadsNothing(MapMu, []);
    case EndMap(ids) =>
      EndsReadNothing(ids);
      AroundReadsNothing(MapMu, ServiceEnds(ids));
    case EndService(id, w) =>
      WritesReadNothing(w);
      AroundReadsNothing(ServiceMu(id), SocketWrite(w));
    case ServiceFields(id) => AroundReadsNothing(ServiceMu(id), []);
    case ServiceWrites(id, w) =>
      WritesReadNothing(w);
      AroundReadsNothing(ServiceMu(id), SocketWrite(w));
    case DeviceWrites(id, w) =>
      WritesReadNothing(w);
      AroundReadsNothing(ServiceMu(id), [Send(true)] + SocketWrite(w));
    case ServiceLimit(id) =>
      AroundReadsNothing(SocketMu, []);
      AroundReadsNothing(ServiceMu(id), Around(SocketMu, []));
  }

  lemma StepKeepsBrief(s: State, step: Step, t: State)
    requires AllOrderly(s) && AllBrief(s) && Next(s, step, t)
    ensures AllBrief(t)
  {
    match step
    case Go(r) => RoutinesBrief(r);
    case Call(who, r) =>
      assert Orderly(s[who]);
      RoutinesBrief(r);
    case Do(who) => AdvanceBrief(s[who]);
  }

  lemma AdvanceBrief(g: Goroutine)
    requires Orderly(g) && Brief(g) && g.todo != []
    ensures Brief(Advance(g))
  {
    assert forall k :: 0 <= k < |g.todo| - 1 ==> g.todo[1..][k] == g.todo[k + 1];
  }

  lemma {:induction false} RunsAreBrief(states: seq<State>, steps: seq<Step>, k: nat)
    requires IsRun(states, steps) && k <= |steps|
    ensures AllOrderly(states[k]) && AllBrief(states[k])
  {
    hide Next, Orderly, Brief;
    RunsAreOrderly(states, steps, k);
    if k == 0 {
    } else {
      RunsAreBrief(states, steps, k - 1);
      StepKeepsBrief(states[k - 1], steps[k - 1], states[k]);
    }
  }

  // -------------------------------------------------------- finishing without a jam

  /** Goroutine i can do its next n operations, and releases among them what it acquires first. */
  ghost predicate ClearFor(p: Peers, s: State, i: nat, n: nat)
    requires i < |s|
  {
    && 0 < n <= |s[i].todo|
    && (forall m :: 0 <= m < n ==> !JamsOn(p, s, s[i].todo[m]))
    && (s[i].todo[0].Acquire? ==> FirstRelease(s[i].todo[1..], s[i].todo[0].lock) + 1 < n)
  }

  lemma {:induction false} ReleaseIsThere(todo: seq<Op>, l: Lock)
    requires FirstRelease(todo, l) < |todo|
    ensures todo[FirstRelease(todo, l)] == Release(l)
    decreases |todo|
  {
    if todo[0] == Release(l) {
    } else {
      ReleaseIsThere(todo[1..], l);
    }
  }

  /** The holder of a mutex that is not jammed is clear for its way to the release. */
  lemma HolderIsClear(p: Peers, s: State, j: nat, l: Lock)
    requires AllOrderly(s) && j < |s| && HoldsAlone(s[j], l) && !Jammed(p, s, l)
    ensures ClearFor(p, s, j, FirstRelease(s[j].todo, l) + 1)
    ensures Wants(s[j]) ==> Rank(s[j].todo[0].lock) > Rank(l)
  {
    hide Jammed;
    var g := s[j];
    assert Orderly(g);
    var k :| 0 <= k < |g.held| && g.held[k] == Hold(l, false);
    ReleasedInReverse(g.held, g.todo, k, k);
    ReleaseIsThere(g.todo, l);
    forall m | 0 <= m < FirstRelease(g.todo, l)
      ensures !JamsOn(p, s, g.todo[m])
    {
      if JamsOn(p, s, g.todo[m]) {
        JamAt(p, s, l, j, m);
      }
    }
    if g.todo[0].Acquire? {
      var l' := g.todo[0].lock;
      var top := g.held + [Hold(l', g.todo[0].shared)];
      ReleasedInReverse(top, g.todo[1..], k, |g.held|);
    }
  }

  /** Someone who is clear for the way can take a step: the goroutine itself, or whoever keeps it waiting. */
  lemma {:induction false} Mover(p: Peers, s: State, i: nat, n: nat) returns (who: nat, m: nat)
    requires AllOrderly(s) && AllBrief(s) && i < |s| && ClearFor(p, s, i, n)
    ensures CanDo(s, who) && ((s[who].todo[0].Release? && m == 0) || ClearFor(p, s, who, m))
    decreases if Wants(s[i]) then 4 - Rank(s[i].todo[0].lock) else 0
  {
    hide Jammed, Orderly;
    if CanDo(s, i) {
      who, m := i, n;
    } else {
      var op := s[i].todo[0];
      var j :| 0 <= j < |s| && j != i && Holds(s[j], op.lock, op.shared);
      var k :| 0 <= k < |s[j].held| && s[j].held[k].lock == op.lock && !(op.shared && s[j].held[k].shared);
      if s[j].held[k].shared {
        assert Brief(s[j]);
        who, m := j, 0;
      } else {
        assert s[j].held[k] == Hold(op.lock, false);
        assert !JamsOn(p, s, op);
        HolderIsClear(p, s, j, op.lock);
        who, m := Mover(p, s, j, FirstRelease(s[j].todo, op.lock) + 1);
      }
    }
  }

  /** A step of someone who is clear jams nothing. */
  lemma {:induction false} NothingJams(p: Peers, s: State, who: nat, n: nat, t: State, l: Lock)
    requires AllOrderly(s) && AllOrderly(t) && CanDo(s, who) && (s[who].todo[0].Release? || ClearFor(p, s, who, n))
    requires t == s[who := Advance(s[who])] && Jammed(p, t, l)
    ensures Jammed(p, s, l)
    decreases 4 - Rank(l)
  {
    hide Jammed, Orderly;
    var j, m := JamWitness(p, t, l);
    var op := t[j].todo[m];
    if op.Acquire? {
      NothingJams(p, s, who, n, t, op.lock);
    }
    assert JamsOn(p, s, op);
    if j != who {
      JamAt(p, s, l, j, m);
    } else {
      WasHeld(s[who], l);
      assert s[who].todo[m + 1] == op;
      if HoldsAlone(s[who], l) {
        JamAt(p, s, l, who, m + 1);
      }
    }
  }

  lemma WasHeld(g: Goroutine, l: Lock)
    requires Orderly(g) && g.todo != [] && HoldsAlone(Advance(g), l)
    ensures HoldsAlone(g, l) || g.todo[0] == Acquire(l, false)
    ensures HoldsAlone(g, l) ==> FirstRelease(g.todo, l) == 1 + FirstRelease(Advance(g).todo, l)
  {
    var h := Advance(g);
    var k :| 0 <= k < |h.held| && h.held[k] == Hold(l, false);
    if k < |g.held| {
      assert g.held[k] == Hold(l, false);
    }
  }

  function TotalOps(s: State): nat {
    if s == [] then 0 else |s[0].todo| + TotalOps(s[1..])
  }

  lemma {:induction false} TotalDrops(s: State, who: nat, g: Goroutine)
    requires who < |s| && |g.todo| < |s[who].todo|
    ensures TotalOps(s[who := g]) < TotalOps(s)
    decreases |s|
  {
    var t := s[who := g];
    if who == 0 {
      assert t[1..] == s[1..];
    } else {
      assert t[1..] == s[1..][who - 1 := g];
      TotalDrops(s[1..], who - 1, g);
    }
  }

  /** With nothing jammed ahead, a goroutine is clear for everything it has to do. */
  lemma ClearForAll(p: Peers, s: State, i: nat)
    requires AllOrderly(s) && i < |s| && s[i].todo != [] && !Blocked(p, s, i)
    ensures ClearFor(p, s, i, |s[i].todo|)
  {
    hide Jammed;
    var g := s[i];
    assert Orderly(g);
    if g.todo[0].Acquire? {
      var top := g.held + [Hold(g.todo[0].lock, g.todo[0].shared)];
      ReleasedInReverse(top, g.todo[1..], |g.held|, |g.held|);
    }
  }

  lemma QuietMove(p: Peers, s: State, i: nat) returns (who: nat, t: State)
    requires AllOrderly(s) && AllBrief(s) && i < |s| && s[i].todo != [] && !Blocked(p, s, i)
    ensures QuietStep(p, s, Do(who), t) && AllOrderly(t) && AllBrief(t) && |t| == |s| && !Blocked(p, t, i)
    ensures TotalOps(t) < TotalOps(s)
  {
    hide Jammed, Orderly, Brief;
    ClearForAll(p, s, i);
    var n;
    who, n := Mover(p, s, i, |s[i].todo|);
    t := s[who := Advance(s[who])];
    StepKeepsOrder(s, Do(who), t);
    StepKeepsBrief(s, Do(who), t);
    TotalDrops(s, who, Advance(s[who]));
    forall m | 0 <= m < |t[i].todo|
      ensures !JamsOn(p, t, t[i].todo[m])
    {
      var op := t[i].todo[m];
      assert op == s[i].todo[if who == i then m + 1 else m];
      if op.Acquire? && Jammed(p, t, op.lock) {
        NothingJams(p, s, who, n, t, op.lock);
      }
    }
  }

  ghost predicate FinishesQuietly(p: Peers, s: State, i: nat, states: seq<State>, steps: seq<Step>) {
    && IsQuietRun(p, s, states, steps)
    && i < |states[|steps|]| && states[|steps|][i].todo == []
  }

  lemma {:induction false} FinishQuietly(p: Peers, s: State, i: nat) returns (states: seq<State>, steps: seq<Step>)
    requires AllOrderly(s) && AllBrief(s) && i < |s| && !Blocked(p, s, i)
    ensures FinishesQuietly(p, s, i, states, steps)
    decreases TotalOps(s)
  {
    hide Blocked, AllOrderly, AllBrief, QuietStep;
    if s[i].todo == [] {
      states, steps := [s], [];
    } else {
      var who, t := QuietMove(p, s, i);
      states, steps := FinishQuietly(p, t, i);
      states, steps := [s] + states, [Do(who)] + steps;
      assert forall k :: 1 <= k < |steps| ==> QuietStep(p, states[k], steps[k], states[k + 1]);
    }
  }

  // ----------------------------------------------------------------- what it means

  /**
   * With a peer that takes nothing more, a goroutine can finish what it is doing, with the help of others, exactly when
   * it has neither a withheld write nor a jammed mutex ahead of it.
   */
  lemma FinishesIffNotBlocked(states: seq<State>, steps: seq<Step>, k: nat, p: Peers, i: nat)
    requires IsRun(states, steps) && k <= |steps| && i < |states[k]|
    ensures (exists after, more :: FinishesQuietly(p, states[k], i, after, more)) <==> !Blocked(p, states[k], i)
  {
    hide Blocked, AllOrderly, AllBrief, Next, IsQuietRun;
    RunsAreBrief(states, steps, k);
    var s := states[k];
    if Blocked(p, s, i) {
      forall after, more | IsQuietRun(p, s, after, more)
        ensures !FinishesQuietly(p, s, i, after, more)
      {
        QuietRunLength(p, s, after, more);
        BlockedForever(p, s, after, more, i, |more|);
        BlockedIsBusy(p, after[|more|], i);
      }
    } else {
      var after, more := FinishQuietly(p, s, i);
    }
  }

  lemma QuietRunLength(p: Peers, s: State, states: seq<State>, steps: seq<Step>)
    requires IsQuietRun(p, s, states, steps)
    ensures |states| == |steps| + 1
  {
  }

  lemma BlockedIsBusy(p: Peers, s: State, i: nat)
    requires i < |s| && Blocked(p, s, i)
    ensures s[i].todo != []
  {
  }

  /** Socket.mu is never jammed: nothing is written or acquired under it. */
  lemma SocketMuFree(p: Peers, s: State)
    requires AllOrderly(s)
    ensures !Jammed(p, s, SocketMu)
  {
    hide Jammed;
    if Jammed(p, s, SocketMu) {
      var j, m := JamWitness(p, s, SocketMu);
      assert Orderly(s[j]);
      var k :| 0 <= k < |s[j].held| && s[j].held[k] == Hold(SocketMu, false);
      AcquiredAbove(s[j].held, s[j].todo, k, m);
    }
  }

  /** The goroutine holds writeMu and comes, with its operation m, to a withheld write before it releases it. */
  predicate WritesUnder(p: Peers, g: Goroutine, m: nat)
    requires m < |g.todo|
  {
    HoldsAlone(g, WriteMu) && m < FirstRelease(g.todo, WriteMu) && Withheld(p, g.todo[m])
  }

  /** writeMu is jammed exactly when its holder stands before a write that the client does not take. */
  lemma WriteMuJammed(p: Peers, s: State)
    requires AllOrderly(s)
    ensures Jammed(p, s, WriteMu) <==>
            exists j, m :: 0 <= j < |s| && 0 <= m < |s[j].todo| && WritesUnder(p, s[j], m)
  {
    hide Jammed, Orderly;
    SocketMuFree(p, s);
    if Jammed(p, s, WriteMu) {
      var j, m := JamWitness(p, s, WriteMu);
      assert WritesUnder(p, s[j], m);
    } else if j, m :| 0 <= j < |s| && 0 <= m < |s[j].todo| && WritesUnder(p, s[j], m) {
      JamAt(p, s, WriteMu, j, m);
    }
  }

  // --------------------------------------------------------------- ServiceMap.End

  /** What one call of End by the sweep needs from others. */
  ghost predicate EntryBlocked(p: Peers, s: State, e: (nat, Writing)) {
    || Jammed(p, s, ServiceMu(e.0))
    || (!e.1.NoWrite? && Jammed(p, s, WriteMu))
    || (e.1.Sends? && !p.client)
  }

  ghost predicate OpsBlocked(p: Peers, s: State, todo: seq<Op>) {
    exists m :: 0 <= m < |todo| && JamsOn(p, s, todo[m])
  }

  lemma OpsAppend(p: Peers, s: State, a: seq<Op>, b: seq<Op>)
    ensures OpsBlocked(p, s, a + b) <==> OpsBlocked(p, s, a) || OpsBlocked(p, s, b)
  {
    hide JamsOn;
    var all := a + b;
    assert forall m :: 0 <= m < |a| ==> all[m] == a[m];
    assert forall m :: 0 <= m < |b| ==> all[|a| + m] == b[m];
    if OpsBlocked(p, s, all) {
      var m :| 0 <= m < |all| && JamsOn(p, s, all[m]);
      if m >= |a| {
        assert all[m] == b[m - |a|];
      }
    }
  }

  lemma OneOp(p: Peers, s: State, op: Op)
    ensures OpsBlocked(p, s, [op]) <==> JamsOn(p, s, op)
  {
    hide JamsOn;
    assert [op][0] == op;
  }

  lemma AroundBlocked(p: Peers, s: State, l: Lock, inner: seq<Op>)
    ensures OpsBlocked(p, s, Around(l, inner)) <==> Jammed(p, s, l) || OpsBlocked(p, s, inner)
  {
    hide OpsBlocked, Jammed;
    OneOp(p, s, Acquire(l, false));
    OneOp(p, s, Release(l));
    OpsAppend(p, s, [Acquire(l, false)], inner);
    OpsAppend(p, s, [Acquire(l, false)] + inner, [Release(l)]);
  }

  lemma NoOps(p: Peers, s: State)
    ensures !OpsBlocked(p, s, [])
  {
  }

  lemma WriteBlocked(p: Peers, s: State, w: Writing)
    requires AllOrderly(s)
    ensures OpsBlocked(p, s, SocketWrite(w)) <==> (!w.NoWrite? && Jammed(p, s, WriteMu)) || (w.Sends? && !p.client)
  {
    hide OpsBlocked, Jammed, Around, AllOrderly;
    NoOps(p, s);
    SocketMuFree(p, s);
    AroundBlocked(p, s, SocketMu, []);
    AroundBlocked(p, s, WriteMu, Around(SocketMu, []));
    OneOp(p, s, Send(false));
    OpsAppend(p, s, Around(SocketMu, []), [Send(false)]);
    AroundBlocked(p, s, WriteMu, Around(SocketMu, []) + [Send(false)]);
  }

  lemma {:induction false} EndsBlocked(p: Peers, s: State, ids: seq<(nat, Writing)>)
    requires AllOrderly(s)
    ensures OpsBlocked(p, s, ServiceEnds(ids)) <==> exists k :: 0 <= k < |ids| && EntryBlocked(p, s, ids[k])
  {
    hide OpsBlocked, Jammed, Around, AllOrderly, SocketWrite;
    if ids == [] {
      NoOps(p, s);
    } else {
      EndsBlocked(p, s, ids[1..]);
      WriteBlocked(p, s, ids[0].1);
      AroundBlocked(p, s, ServiceMu(ids[0].0), SocketWrite(ids[0].1));
      OpsAppend(p, s, ServiceEnd(ids[0].0, ids[0].1), ServiceEnds(ids[1..]));
      SomeEntry(p, s, ids);
    }
  }

  lemma SomeEntry(p: Peers, s: State, ids: seq<(nat, Writing)>)
    requires ids != []
    ensures (exists k :: 0 <= k < |ids| && EntryBlocked(p, s, ids[k])) <==>
            EntryBlocked(p, s, ids[0]) || exists k :: 0 <= k < |ids| - 1 && EntryBlocked(p, s, ids[1..][k])
  {
    hide EntryBlocked;
    if k :| 0 <= k < |ids| && EntryBlocked(p, s, ids[k]) {
      if k > 0 {
        assert ids[1..][k - 1] == ids[k];
      }
    }
    if k :| 0 <= k < |ids| - 1 && EntryBlocked(p, s, ids[1..][k]) {
      assert ids[k + 1] == ids[1..][k];
    }
  }

  /**
   * ServiceMap.End, and with it Socket.End and Server.Close, can finish exactly when neither the mutex of the table nor,
   * for any entry, the mutex of its service is jammed, nor writeMu if a CLSE is still due, even one that is refused.
   */
  lemma SweepFinishesIff(states: seq<State>, steps: seq<Step>, k: nat, p: Peers, i: nat, ids: seq<(nat, Writing)>)
    requires IsRun(states, steps) && k <= |steps| && i < |states[k]|
    requires states[k][i] == Goroutine([], LocksOf(EndMap(ids)))
    ensures (exists after, more :: FinishesQuietly(p, states[k], i, after, more)) <==>
            !Jammed(p, states[k], MapMu) && forall n :: 0 <= n < |ids| ==> !EntryBlocked(p, states[k], ids[n])
  {
    hide Jammed, AllOrderly, Next, FinishesQuietly, ServiceEnds, Around, EntryBlocked, JamsOn;
    RunsAreOrderly(states, steps, k);
    FinishesIffNotBlocked(states, steps, k, p, i);
    EndsBlocked(p, states[k], ids);
    AroundBlocked(p, states[k], MapMu, ServiceEnds(ids));
  }

  lemma OneMore(states: seq<State>, steps: seq<Step>, step: Step, t: State)
    requires IsRun(states, steps) && Next(states[|steps|], step, t)
    ensures IsRun(states + [t], steps + [step])
  {
    hide Next;
    var states', steps' := states + [t], steps + [step];
    assert forall k :: 0 <= k < |states| ==> states'[k] == states[k];
    assert forall k :: 0 <= k < |steps| ==> steps'[k] == steps[k];
    assert states'[|steps|] == states[|steps|] && states'[|steps| + 1] == t && steps'[|steps|] == step;
  }

  /** It does hang: a forwarder stands in a write that the client does not take, and someone ends the socket. */
  lemma HangHappens(id: nat) returns (states: seq<State>, steps: seq<Step>, sweep: nat)
    ensures IsRun(states, steps) && sweep < |states[|steps|]|
    ensures states[|steps|][sweep] == Goroutine([], LocksOf(EndMap([(id, Refused)])))
    ensures forall p: Peers :: !p.client ==> Blocked(p, states[|steps|], sweep)
  {
    hide IsRun, Next, Blocked;
    var todo := LocksOf(ServiceWrites(id, Sends));
    var held := [Hold(ServiceMu(id), false), Hold(WriteMu, false)];
    WriteOps(id);
    states, steps := [[]], [];
    assert IsRun(states, steps) by { NoStepsYet(); }
    var g := Goroutine([], todo);
    states, steps := Started(states, steps, ServiceWrites(id, Sends));
    states, steps, g := Alone(states, steps, g);
    states, steps, g := Alone(states, steps, g);
    states, steps, g := Alone(states, steps, g);
    states, steps, g := Alone(states, steps, g);
    assert g == Goroutine(held, [Send(false), Release(WriteMu), Release(ServiceMu(id))]);
    states, steps := Started(states, steps, EndMap([(id, Refused)]));
    sweep := 1;
    forall p: Peers | !p.client
      ensures Blocked(p, states[|steps|], 1)
    {
      SweepBlocked(p, states[|steps|], id);
    }
  }

  lemma NoStepsYet()
    ensures IsRun([[]], [])
  {
  }

  lemma WriteOps(id: nat)
    ensures LocksOf(ServiceWrites(id, Sends)) ==
            [Acquire(ServiceMu(id), false), Acquire(WriteMu, false), Acquire(SocketMu, false), Release(SocketMu), Send(false),
             Release(WriteMu), Release(ServiceMu(id))]
  {
  }

  lemma Started(states: seq<State>, steps: seq<Step>, r: Routine) returns (states': seq<State>, steps': seq<Step>)
    requires IsRun(states, steps) && |states| == |steps| + 1
    ensures IsRun(states', steps') && |states'| == |steps'| + 1
    ensures states'[|steps'|] == states[|steps|] + [Goroutine([], LocksOf(r))]
  {
    hide IsRun, LocksOf;
    var t := states[|steps|] + [Goroutine([], LocksOf(r))];
    assert Next(states[|steps|], Go(r), t);
    OneMore(states, steps, Go(r), t);
    states', steps' := states + [t], steps + [Go(r)];
  }

  /** A goroutine that is alone can always go on. */
  lemma Alone(states: seq<State>, steps: seq<Step>, g: Goroutine)
    returns (states': seq<State>, steps': seq<Step>, h: Goroutine)
    requires IsRun(states, steps) && |states| == |steps| + 1 && states[|steps|] == [g] && g.todo != []
    ensures h == Advance(g)
    ensures IsRun(states', steps') && |states'| == |steps'| + 1 && states'[|steps'|] == [h]
  {
    hide IsRun, Advance;
    h := Advance(g);
    assert [g][0 := h] == [h];
    assert Next(states[|steps|], Do(0), [h]);
    OneMore(states, steps, Do(0), [h]);
    states', steps' := states + [[h]], steps + [Do(0)];
  }

  lemma SweepBlocked(p: Peers, s: State, id: nat)
    requires !p.client && |s| == 2
    requires s[0] == Goroutine([Hold(ServiceMu(id), false), Hold(WriteMu, false)], [Send(false), Release(WriteMu), Release(ServiceMu(id))])
    requires s[1] == Goroutine([], LocksOf(EndMap([(id, Refused)])))
    ensures Blocked(p, s, 1)
  {
    var l := ServiceMu(id);
    assert s[0].held[0] == Hold(l, false) && s[0].todo[0] == Send(false);
    assert FirstRelease(s[0].todo, l) > 0;
    assert Jammed(p, s, l);
    assert s[1].todo[1] == Acquire(l, false);
  }
}
