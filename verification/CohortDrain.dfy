/** Draining a cohort of connections, as the interleaving of what its owner, the accept loop and the
    connection tasks do.

    A cohort counts its connections in an atomic counter and learns that they are gone from a channel whose
    senders the owner, every handle and every connection hold. Neither registering a connection nor dropping
    one is a single step: the counter moves first and the sender follows. */
module CohortDrain {
  /** A connection: counted but without its sender, held, or already uncounted but still holding its sender. */
  datatype Stage = Counted | Held | Released
  datatype Guard = Guard(stage: Stage, handle: nat, ours: bool)

  datatype Outcome = Finished | Forced(n: nat)
  datatype Phase = Idle | Draining(deadline: bool) | Forcing(n: nat) | Drained(outcome: Outcome)

  /** `alive` is the owner's own sender. A handle or a connection is `ours` when its sender belongs to the
      cohort's channel; `late` records that a handle was asked for after draining had begun. */
  datatype Cohort = Cohort(alive: bool, cancelled: bool, handles: map<nat, bool>, guards: map<nat, Guard>,
                           count: int, phase: Phase, late: bool)

  datatype Step =
    | MakeHandle(h: nat)
    | CloneHandle(h: nat, copy: nat)
    | DropHandle(h: nat)
    | RegisterCount(g: nat, h: nat)
    | RegisterHold(g: nat)
    | ReleaseCount(g: nat)
    | ReleaseSender(g: nat)
    | Cancel
    | Drain(deadline: bool)
    | Expire
    | Resolve

  const FRESH := Cohort(true, false, map[], map[], 0, Idle, false)

  /** Every sender of the cohort's channel is gone. A connection that is being registered has not cloned the
      sender yet, but the handle it registers through is borrowed until it has. */
  ghost predicate Silent(c: Cohort) {
    && !c.alive
    && (forall h <- c.handles :: !c.handles[h])
    && (forall g <- c.guards :: c.guards[g].stage != Counted ==> !c.guards[g].ours)
  }

  ghost predicate Enabled(c: Cohort, s: Step) {
    match s
    case MakeHandle(h) => h !in c.handles
    case CloneHandle(h, copy) => h in c.handles && copy !in c.handles
    case DropHandle(h) => h in c.handles && forall g <- c.guards :: c.guards[g].stage == Counted ==>
          c.guards[g].handle != h
    case RegisterCount(g, h) => h in c.handles && g !in c.guards
    case RegisterHold(g) => g in c.guards && c.guards[g].stage == Counted
    case ReleaseCount(g) => g in c.guards && c.guards[g].stage == Held
    case ReleaseSender(g) => g in c.guards && c.guards[g].stage == Released
    case Cancel => true
    case Drain(_) => c.phase == Idle
    case Expire => c.phase == Draining(true) && c.count >= 0
    case Resolve => (c.phase.Draining? || c.phase.Forcing?) && Silent(c)
  }

  ghost function Take(c: Cohort, s: Step): Cohort
    requires Enabled(c, s)
  {
    match s
    case MakeHandle(h) => c.(handles := c.handles[h := c.alive], late := c.late || !c.alive)
    case CloneHandle(h, copy) => c.(handles := c.handles[copy := c.handles[h]])
    case DropHandle(h) => c.(handles := c.handles - {h})
    case RegisterCount(g, h) => c.(count := c.count + 1, guards := c.guards[g := Guard(Counted, h, c.handles[h])])
    case RegisterHold(g) => c.(guards := c.guards[g := c.guards[g].(stage := Held)])
    case ReleaseCount(g) => c.(count := c.count - 1, guards := c.guards[g := c.guards[g].(stage := Released)])
    case ReleaseSender(g) => c.(guards := c.guards - {g})
    case Cancel => c.(alive := false, cancelled := true)
    case Drain(deadline) => c.(alive := false, phase := Draining(deadline))
    case Expire => c.(alive := false, cancelled := true, phase := Forcing(c.count))
    case Resolve => c.(phase := Drained(if c.phase.Forcing? then Forced(c.phase.n) else Finished))
  }

  /** Any schedule: a step that is not possible when its turn comes does nothing. */
  ghost function Run(c: Cohort, steps: seq<Step>): Cohort
    decreases |steps|
  {
    if steps == [] then c
    else Run(if Enabled(c, steps[0]) then Take(c, steps[0]) else c, steps[1..])
  }

  /** Connections that count as alive. */
  ghost function Live(c: Cohort): set<nat> {
    set g | g in c.guards && c.guards[g].stage != Released
  }

  ghost predicate Inv(c: Cohort) {
    c.count == |Live(c)| && Linked(c)
  }

  ghost predicate Linked(c: Cohort) {
    && (c.phase != Idle || c.cancelled ==> !c.alive)
    && (c.phase.Forcing? || (c.phase.Drained? && c.phase.outcome.Forced?) ==> c.cancelled)
    // a connection on its way in keeps the handle it came through
    && (forall g <- c.guards :: c.guards[g].stage == Counted ==>
          c.guards[g].handle in c.handles && c.handles[c.guards[g].handle] == c.guards[g].ours)
    // only a handle asked for too late is not of the channel
    && (!c.late ==> (forall h <- c.handles :: c.handles[h]) && (forall g <- c.guards :: c.guards[g].ours))
    && (c.phase.Drained? && !c.late ==> c.handles == map[] && c.guards == map[])
    && (c.phase.Drained? ==> Silent(c))
  }

  // ---------------------------------------------------------------- every run

  /** Counting a connection and uncounting it move the counter with the set of live connections. */
  lemma LiveMoves(c: Cohort, s: Step)
    requires Enabled(c, s)
    ensures Live(Take(c, s)) == match s
      case RegisterCount(g, _) => Live(c) + {g}
      case ReleaseCount(g) => Live(c) - {g}
      case _ => Live(c)
  {
  }

  lemma StepCounts(c: Cohort, s: Step)
    requires c.count == |Live(c)| && Enabled(c, s)
    ensures Take(c, s).count == |Live(Take(c, s))|
  {
    LiveMoves(c, s);
    if s.ReleaseCount? {
      assert s.g in Live(c);
    }
  }

  lemma HandleLinked(c: Cohort, s: Step)
    requires Linked(c) && Enabled(c, s) && (s.MakeHandle? || s.CloneHandle? || s.DropHandle?)
    ensures Linked(Take(c, s))
  {
  }

  lemma GuardLinked(c: Cohort, s: Step)
    requires Linked(c) && Enabled(c, s) && (s.RegisterCount? || s.RegisterHold? || s.ReleaseCount? || s.ReleaseSender?)
    ensures Linked(Take(c, s))
  {
  }

  lemma StepLinked(c: Cohort, s: Step)
    requires Linked(c) && Enabled(c, s)
    ensures Linked(Take(c, s))
  {
    if s.MakeHandle? || s.CloneHandle? || s.DropHandle? {
      HandleLinked(c, s);
    } else if s.RegisterCount? || s.RegisterHold? || s.ReleaseCount? || s.ReleaseSender? {
      GuardLinked(c, s);
    } else if s.Resolve? && !c.late {
      EverythingLeft(c);
    }
  }

  /** With all handles of the channel, its silence means that nobody holds anything. */
  lemma EverythingLeft(c: Cohort)
    requires Linked(c) && !c.late && Silent(c)
    ensures c.handles == map[] && c.guards == map[]
  {
    assert forall h :: h !in c.handles;
    assert forall g :: g !in c.guards;
  }

  lemma {:induction false} RunInv(c: Cohort, steps: seq<Step>)
    requires Inv(c)
    ensures Inv(Run(c, steps))
    decreases |steps|
  {
    if steps != [] {
      if Enabled(c, steps[0]) {
        StepCounts(c, steps[0]);
        StepLinked(c, steps[0]);
        RunInv(Take(c, steps[0]), steps[1..]);
      } else {
        RunInv(c, steps[1..]);
      }
    }
  }

  /** In every run the counter is the number of connections alive. */
  lemma CountIsExact(steps: seq<Step>)
    ensures var c := Run(FRESH, steps); c.count == |Live(c)|
  {
    assert Live(FRESH) == {};
    RunInv(FRESH, steps);
  }

  lemma {:induction false} RunAppends(c: Cohort, first: seq<Step>, rest: seq<Step>)
    ensures Run(c, first + rest) == Run(Run(c, first), rest)
    decreases |first|
  {
    if first == [] {
      assert first + rest == rest;
    } else {
      assert (first + rest)[1..] == first[1..] + rest;
      RunAppends(if Enabled(c, first[0]) then Take(c, first[0]) else c, first[1..], rest);
    }
  }

  /** A drain that has resolved resolves for good: as long as no handle is asked for after draining began,
      no connection is alive at that moment or at any later one, and none can come in. */
  lemma DrainedIsFinal(steps: seq<Step>, more: seq<Step>)
    requires Run(FRESH, steps).phase.Drained? && !Run(FRESH, steps + more).late
    ensures Run(FRESH, steps + more).count == 0
    ensures Run(FRESH, steps + more).guards == map[] && Run(FRESH, steps + more).handles == map[]
  {
    assert Live(FRESH) == {};
    RunAppends(FRESH, steps, more);
    DrainedStays(Run(FRESH, steps), more);
    RunInv(FRESH, steps + more);
    assert Live(Run(FRESH, steps + more)) == {};
  }

  lemma {:induction false} DrainedStays(c: Cohort, steps: seq<Step>)
    requires c.phase.Drained?
    ensures Run(c, steps).phase == c.phase
    decreases |steps|
  {
    if steps != [] {
      DrainedStays(if Enabled(c, steps[0]) then Take(c, steps[0]) else c, steps[1..]);
    }
  }

  /** A drain resolves with connections alive only if a handle was asked for after draining began. */
  lemma EscapesOnlyLate(steps: seq<Step>)
    ensures var c := Run(FRESH, steps); (Enabled(c, Resolve) || c.phase.Drained?) && c.count > 0 ==> c.late
  {
    assert Live(FRESH) == {};
    RunInv(FRESH, steps);
    var c := Run(FRESH, steps);
    if Silent(c) && !c.late {
      EverythingLeft(c);
      assert Live(c) == {};
    }
  }

  // ---------------------------------------------------------------- what a stray handle does

  ghost predicate UnderWay(c: Cohort) {
    c.phase.Draining? || c.phase.Forcing?
  }

  /** The cohort has a handle, or a live connection, that is not of its channel. */
  ghost predicate HasStray(c: Cohort) {
    || (exists h <- c.handles :: !c.handles[h])
    || (exists g <- Live(c) :: !c.guards[g].ours)
  }

  /** The continuation asks for no handle, and ends with the drain resolved and connections alive. */
  ghost predicate Escapes(c: Cohort, more: seq<Step>) {
    && (forall i :: 0 <= i < |more| ==> !more[i].MakeHandle?)
    && Run(c, more).phase.Drained? && Run(c, more).count > 0
  }

  ghost function Next(c: Cohort, s: Step): Cohort {
    if Enabled(c, s) then Take(c, s) else c
  }

  /** Nobody is a stray, and once the drain has resolved nobody is left. */
  ghost predicate Familiar(c: Cohort) {
    Inv(c) && !HasStray(c) && (c.phase.Drained? ==> c.handles == map[] && Live(c) == {})
  }

  lemma NoStrayComes(c: Cohort, s: Step)
    requires !HasStray(c) && Enabled(c, s) && !s.MakeHandle?
    ensures !HasStray(Take(c, s))
  {
    var c' := Take(c, s);
    LiveMoves(c, s);
    forall h | h in c'.handles ensures c'.handles[h] {
      assert h in c.handles || s.CloneHandle?;
    }
    forall g | g in Live(c') ensures c'.guards[g].ours {
      assert g in Live(c) || s.RegisterCount?;
    }
  }

  /** When nobody is a stray, a drain that can resolve finds nobody. */
  lemma NobodyLeft(c: Cohort)
    requires Linked(c) && !HasStray(c) && Silent(c)
    ensures c.handles == map[] && Live(c) == {}
  {
    assert forall h :: h !in c.handles;
    assert forall g :: g !in Live(c);
  }

  lemma StepFamiliar(c: Cohort, s: Step)
    requires Familiar(c) && Enabled(c, s) && !s.MakeHandle?
    ensures Familiar(Take(c, s))
  {
    StepCounts(c, s);
    StepLinked(c, s);
    NoStrayComes(c, s);
    LiveMoves(c, s);
    if s.Resolve? {
      NobodyLeft(c);
    }
    hide Linked, HasStray, Live, Silent;
  }

  lemma {:induction false} RunFamiliar(c: Cohort, more: seq<Step>)
    requires Familiar(c) && forall i :: 0 <= i < |more| ==> !more[i].MakeHandle?
    ensures Familiar(Run(c, more))
    decreases |more|
  {
    hide Familiar;
    if more != [] {
      if Enabled(c, more[0]) {
        StepFamiliar(c, more[0]);
      }
      RunFamiliar(Next(c, more[0]), more[1..]);
    }
  }

  /** Ends one connection of the channel, wherever it has got to. */
  ghost function Ending(guard: Guard, g: nat): seq<Step> {
    match guard.stage
    case Counted => [RegisterHold(g), ReleaseCount(g), ReleaseSender(g)]
    case Held => [ReleaseCount(g), ReleaseSender(g)]
    case Released => [ReleaseSender(g)]
  }

  lemma Ended(c: Cohort, g: nat)
    requires g in c.guards
    ensures var d := Run(c, Ending(c.guards[g], g));
            d == c.(guards := c.guards - {g}, count := if c.guards[g].stage == Released then c.count else c.count - 1)
  {
    match c.guards[g].stage {
      case Released =>
        Single(c, ReleaseSender(g));
      case Held =>
        Pair(c, ReleaseCount(g), ReleaseSender(g));
        assert Take(Take(c, ReleaseCount(g)), ReleaseSender(g)).guards == c.guards - {g};
      case Counted =>
        var c1 := Take(c, RegisterHold(g));
        assert [RegisterHold(g), ReleaseCount(g), ReleaseSender(g)][1..] == [ReleaseCount(g), ReleaseSender(g)];
        Pair(c1, ReleaseCount(g), ReleaseSender(g));
        assert Take(Take(c1, ReleaseCount(g)), ReleaseSender(g)).guards == c.guards - {g};
    }
  }

  ghost function StrayHandles(c: Cohort): map<nat, bool> {
    map h | h in c.handles && !c.handles[h] :: false
  }

  ghost function StrayGuards(c: Cohort): map<nat, Guard> {
    map g | g in c.guards && !c.guards[g].ours :: c.guards[g]
  }

  ghost function Holders(c: Cohort): nat {
    |c.guards.Keys| + |c.handles.Keys|
  }

  /** A connection of the channel can end. */
  lemma OneGuardLess(c: Cohort, g: nat)
    requires g in c.guards && c.guards[g].ours
    ensures var d := Run(c, Ending(c.guards[g], g));
            && d.phase == c.phase && StrayHandles(d) == StrayHandles(c) && StrayGuards(d) == StrayGuards(c)
            && Holders(d) < Holders(c)
  {
    Ended(c, g);
    hide Run;
    Smaller(c.guards.Keys, g);
    assert (c.guards - {g}).Keys == c.guards.Keys - {g};
  }

  /** A handle of the channel can go when no connection of the channel is left. */
  lemma OneHandleLess(c: Cohort, h: nat)
    requires Inv(c) && h in c.handles && c.handles[h] && forall g <- c.guards :: !c.guards[g].ours
    ensures var d := Run(c, [DropHandle(h)]);
            && d.phase == c.phase && StrayHandles(d) == StrayHandles(c) && StrayGuards(d) == StrayGuards(c)
            && Holders(d) < Holders(c)
  {
    assert Enabled(c, DropHandle(h));
    Single(c, DropHandle(h));
    hide Run;
    Smaller(c.handles.Keys, h);
    assert (c.handles - {h}).Keys == c.handles.Keys - {h};
  }

  lemma OnlyStrays(c: Cohort)
    requires (forall g <- c.guards :: !c.guards[g].ours) && (forall h <- c.handles :: !c.handles[h])
    ensures c.handles == StrayHandles(c) && c.guards == StrayGuards(c)
  {
  }

  /** Something of the channel is still there. */
  ghost predicate HasOurs(c: Cohort) {
    (exists g :: g in c.guards && c.guards[g].ours) || (exists h :: h in c.handles && c.handles[h])
  }

  /** One thing of the channel can go. */
  lemma OneLess(c: Cohort) returns (first: seq<Step>)
    requires Inv(c) && HasOurs(c)
    ensures forall i :: 0 <= i < |first| ==> !first[i].MakeHandle?
    ensures var d := Run(c, first);
            && Inv(d) && d.phase == c.phase && StrayHandles(d) == StrayHandles(c) && StrayGuards(d) == StrayGuards(c)
            && Holders(d) < Holders(c)
  {
    hide Run, Inv, Holders, StrayHandles, StrayGuards;
    if g :| g in c.guards && c.guards[g].ours {
      first := Ending(c.guards[g], g);
      OneGuardLess(c, g);
    } else {
      var h :| h in c.handles && c.handles[h];
      first := [DropHandle(h)];
      OneHandleLess(c, h);
    }
    RunInv(c, first);
  }

  /** Everything of the channel can go, with every stray staying where it is. */
  lemma WindDown(c: Cohort) returns (more: seq<Step>)
    requires Inv(c)
    ensures forall i :: 0 <= i < |more| ==> !more[i].MakeHandle?
    ensures var d := Run(c, more);
            && Inv(d) && d.phase == c.phase
            && d.handles == StrayHandles(c) && d.guards == StrayGuards(c)
    decreases Holders(c)
  {
    more := [];
    assert Run(c, more) == c;
    if HasOurs(c) {
      hide Run, Inv, Holders, StrayHandles, StrayGuards, HasOurs;
      var first := OneLess(c);
      var rest := WindDown(Run(c, first));
      RunAppends(c, first, rest);
      more := first + rest;
    } else {
      OnlyStrays(c);
    }
  }

  lemma Smaller(s: set<nat>, x: nat)
    requires x in s
    ensures |s - {x}| < |s|
  {
    assert s == (s - {x}) + {x};
  }

  lemma Closes(c: Cohort)
    requires Inv(c) && UnderWay(c) && (forall h <- c.handles :: !c.handles[h])
    requires (forall g <- c.guards :: !c.guards[g].ours)
    ensures Run(c, [Resolve]).phase.Drained? && Run(c, [Resolve]).count == c.count
  {
    assert Silent(c) && Enabled(c, Resolve);
    Single(c, Resolve);
  }

  /** A stray lets the drain resolve over its head. */
  lemma StrayEscapes(c: Cohort) returns (more: seq<Step>)
    requires Inv(c) && UnderWay(c) && HasStray(c)
    ensures Escapes(c, more)
  {
    more := WindDown(c);
    var d := Run(c, more);
    assert !d.alive;
    var last: seq<Step>;
    if h :| h in c.handles && !c.handles[h] {
      var g := Fresh(d.guards.Keys);
      last := [RegisterCount(g, h), RegisterHold(g)];
      Pair(d, RegisterCount(g, h), RegisterHold(g));
    } else {
      last := [];
    }
    var e := Run(d, last);
    RunInv(d, last);
    assert e.count > 0 by {
      if last == [] {
        var g :| g in Live(c) && !c.guards[g].ours;
        assert g in Live(e);
      } else {
        assert last[0].g in Live(e);
      }
    }
    Closes(e);
    hide Run, Inv, HasStray;
    RunAppends(c, more, last);
    RunAppends(c, more + last, [Resolve]);
    more := more + last + [Resolve];
  }

  /** A number not in use. */
  lemma Fresh(s: set<nat>) returns (x: nat)
    ensures x !in s
  {
    x := 0;
    var rest := s;
    while x in s
      invariant rest <= s && forall y :: y in s && y >= x ==> y in rest
      decreases |rest|
    {
      Smaller(rest, x);
      rest := rest - {x};
      x := x + 1;
    }
  }

  /** Exactly when a drain that is under way can resolve with connections alive, if no further handle is asked
      for: when there is a handle or a connection that is not of the cohort's channel. */
  lemma StraysDecide(steps: seq<Step>)
    ensures var c := Run(FRESH, steps);
            UnderWay(c) ==> (HasStray(c) <==> exists more :: Escapes(c, more))
  {
    assert Live(FRESH) == {};
    RunInv(FRESH, steps);
    var c := Run(FRESH, steps);
    if UnderWay(c) {
      if HasStray(c) {
        var more := StrayEscapes(c);
      } else {
        forall more: seq<Step> ensures !Escapes(c, more) {
          if forall i :: 0 <= i < |more| ==> !more[i].MakeHandle? {
            RunFamiliar(c, more);
          }
        }
      }
    }
  }

  /** A handle asked for after draining began lets a connection in that the drain does not wait for. */
  lemma LateHandleEscapes()
    ensures var c := Run(FRESH, [Drain(false), MakeHandle(0), RegisterCount(0, 0), RegisterHold(0), Resolve]);
      c.phase == Drained(Finished) && c.count == 1
  {
    var a := Take(FRESH, Drain(false));
    var b := Take(a, MakeHandle(0));
    var d := Take(b, RegisterCount(0, 0));
    var e := Take(d, RegisterHold(0));
    assert Run(e, [Resolve]) == Run(Take(e, Resolve), []);
    assert Run(d, [RegisterHold(0), Resolve]) == Run(e, [Resolve]);
    assert Run(b, [RegisterCount(0, 0), RegisterHold(0), Resolve]) == Run(d, [RegisterHold(0), Resolve]);
    assert Run(a, [MakeHandle(0), RegisterCount(0, 0), RegisterHold(0), Resolve])
        == Run(b, [RegisterCount(0, 0), RegisterHold(0), Resolve]);
  }

  /** A drain whose deadline passed told every connection to stop and reports how many were alive then. */
  lemma ForcedCounts(steps: seq<Step>)
    ensures var c := Run(FRESH, steps); Enabled(c, Expire) ==> Take(c, Expire).phase == Forcing(|Live(c)|)
    ensures var c := Run(FRESH, steps); c.phase.Drained? && c.phase.outcome.Forced? ==> c.cancelled
    ensures var c := Run(FRESH, steps); c.phase == Draining(true) ==> Enabled(c, Expire)
  {
    assert Live(FRESH) == {};
    RunInv(FRESH, steps);
  }

  /** The last step of a run. */
  lemma RunLast(steps: seq<Step>)
    requires steps != []
    ensures var n := |steps| - 1;
            var c := Run(FRESH, steps[..n]);
            Run(FRESH, steps) == if Enabled(c, steps[n]) then Take(c, steps[n]) else c
  {
    var n := |steps| - 1;
    assert steps == steps[..n] + [steps[n]];
    RunAppends(FRESH, steps[..n], [steps[n]]);
    assert [steps[n]][1..] == [];
  }

  /** Step `k` is the deadline passing, with `n` connections alive. */
  ghost predicate ExpiresAt(steps: seq<Step>, k: nat, n: nat)
    requires k < |steps|
  {
    var c := Run(FRESH, steps[..k]);
    steps[k] == Expire && Enabled(c, Expire) && n == |Live(c)|
  }

  /** Step `k` tells the connections to stop. */
  ghost predicate CancelsAt(steps: seq<Step>, k: nat)
    requires k < |steps|
  {
    steps[k] == Cancel || (steps[k] == Expire && Enabled(Run(FRESH, steps[..k]), Expire))
  }

  lemma Prefixes(steps: seq<Step>)
    requires steps != []
    ensures forall k :: 0 <= k < |steps| - 1 ==> steps[..|steps| - 1][..k] == steps[..k]
  {
  }

  lemma StepCancels(c: Cohort, s: Step)
    ensures (if Enabled(c, s) then Take(c, s) else c).cancelled <==>
              c.cancelled || s == Cancel || (s == Expire && Enabled(c, Expire))
  {
  }

  /** The connections of a cohort have been told to stop exactly if it was cancelled or its deadline passed; and then
      its own sender is gone, so that it waits for nobody who comes later. */
  lemma {:induction false} CancelledExactly(steps: seq<Step>)
    ensures Run(FRESH, steps).cancelled <==> exists k :: 0 <= k < |steps| && CancelsAt(steps, k)
    ensures Run(FRESH, steps).cancelled ==> !Run(FRESH, steps).alive
    decreases |steps|
  {
    RunInv(FRESH, steps);
    if steps != [] {
      var n := |steps| - 1;
      var rest := steps[..n];
      RunLast(steps);
      CancelledExactly(rest);
      Prefixes(steps);
      StepCancels(Run(FRESH, rest), steps[n]);
      hide Run, Enabled, Take;
      assert forall k :: 0 <= k < n ==> CancelsAt(rest, k) == CancelsAt(steps, k);
      if Run(FRESH, rest).cancelled {
        var k :| 0 <= k < n && CancelsAt(rest, k);
        assert CancelsAt(steps, k);
      }
      assert CancelsAt(steps, n) <==> steps[n] == Cancel || (steps[n] == Expire && Enabled(Run(FRESH, rest), Expire));
    }
  }

  /** What a drain is forced with, if its deadline has passed. */
  ghost function ForcedWith(c: Cohort): int {
    match c.phase
    case Forcing(n) => n
    case Drained(Forced(n)) => n
    case _ => -1
  }

  lemma StepForces(c: Cohort, s: Step, n: nat)
    ensures ForcedWith(if Enabled(c, s) then Take(c, s) else c) == n <==>
              ForcedWith(c) == n || (s == Expire && Enabled(c, Expire) && c.count == n)
  {
  }

  /** The outcome of a drain is exact: it is forced with `n` if and only if its deadline passed while `n` connections
      were alive; so one that resolved otherwise resolved before its deadline. */
  lemma {:induction false} OutcomeIsExact(steps: seq<Step>, n: nat)
    ensures ForcedWith(Run(FRESH, steps)) == n <==> exists k :: 0 <= k < |steps| && ExpiresAt(steps, k, n)
    decreases |steps|
  {
    if steps != [] {
      var m := |steps| - 1;
      var rest := steps[..m];
      RunLast(steps);
      OutcomeIsExact(rest, n);
      CountIsExact(rest);
      Prefixes(steps);
      StepForces(Run(FRESH, rest), steps[m], n);
      hide Run, Enabled, Take, Live, ForcedWith;
      assert forall k :: 0 <= k < m ==> ExpiresAt(rest, k, n) == ExpiresAt(steps, k, n);
      if ForcedWith(Run(FRESH, rest)) == n {
        var k :| 0 <= k < m && ExpiresAt(rest, k, n);
        assert ExpiresAt(steps, k, n);
      }
      assert ExpiresAt(steps, m, n) <==>
        steps[m] == Expire && Enabled(Run(FRESH, rest), Expire) && Run(FRESH, rest).count == n;
    }
  }

  // ---------------------------------------------------------------- the object

  /** A cohort as the program has it: what one call does when nothing comes in between is the run of its
      steps. */
  class CohortState {
    var alive: bool
    var cancelled: bool
    var handles: map<nat, bool>
    var guards: map<nat, Guard>
    var count: int
    var phase: Phase
    var late: bool

    ghost function Value(): Cohort
      reads this
    {
      Cohort(alive, cancelled, handles, guards, count, phase, late)
    }

    constructor ()
      ensures Value() == FRESH
    {
      alive, cancelled, handles, guards, count, phase, late := true, false, map[], map[], 0, Idle, false;
    }

    /** A handle after draining began gets the sender of a channel of its own. */
    method Handle(h: nat)
      requires h !in handles
      modifies this
      ensures Value() == Run(old(Value()), [MakeHandle(h)])
    {
      ghost var c := Value();
      handles, late := handles[h := alive], late || !alive;
      Single(c, MakeHandle(h));
    }

    method Register(g: nat, h: nat)
      requires h in handles && g !in guards
      modifies this
      ensures Value() == Run(old(Value()), [RegisterCount(g, h), RegisterHold(g)])
    {
      ghost var c := Value();
      count := count + 1;
      guards := guards[g := Guard(Held, h, handles[h])];
      Pair(c, RegisterCount(g, h), RegisterHold(g));
      assert guards == Take(Take(c, RegisterCount(g, h)), RegisterHold(g)).guards;
    }

    method DropGuard(g: nat)
      requires g in guards && guards[g].stage == Held
      modifies this
      ensures Value() == Run(old(Value()), [ReleaseCount(g), ReleaseSender(g)])
    {
      ghost var c := Value();
      count := count - 1;
      guards := guards - {g};
      Pair(c, ReleaseCount(g), ReleaseSender(g));
      assert guards == Take(Take(c, ReleaseCount(g)), ReleaseSender(g)).guards;
    }

    method CancelAll()
      modifies this
      ensures Value() == Run(old(Value()), [Cancel])
    {
      ghost var c := Value();
      alive, cancelled := false, true;
      Single(c, Cancel);
    }

    method StartDraining(deadline: bool)
      requires phase == Idle
      modifies this
      ensures Value() == Run(old(Value()), [Drain(deadline)])
    {
      ghost var c := Value();
      alive, phase := false, Draining(deadline);
      Single(c, Drain(deadline));
    }
  }

  lemma Single(c: Cohort, s: Step)
    requires Enabled(c, s)
    ensures Run(c, [s]) == Take(c, s)
  {
    assert Run(Take(c, s), []) == Take(c, s);
  }

  lemma Pair(c: Cohort, s: Step, t: Step)
    requires Enabled(c, s) && Enabled(Take(c, s), t)
    ensures Run(c, [s, t]) == Take(Take(c, s), t)
  {
    Single(Take(c, s), t);
    assert [s, t][1..] == [t];
  }
}
