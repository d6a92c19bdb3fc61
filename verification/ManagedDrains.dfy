/** The drains the manager spawns are sound. The host logs what is done with the handle of every cohort and
    when it is cancelled or drained; along every run of the manager that log is: the handle made by the start, dropped
    when the listener has stopped or its task has exited, then, for some udp listeners, the cancellation, and only then
    the drain, once. So what holds of a cohort whose
    handles are all made before draining holds of every cohort of the manager. */
module ManagedDrains {
  import opened Lifecycle
  import opened Manager
  import opened ManagerInvariant
  import opened ManagerFrame
  import ManagerRuns
  import CutOffs
  import CD = CohortDrain

  /** The log of one cohort; the operation under way has stopped the listeners `stopped` and not yet handed them
      to a drain. */
  ghost predicate Orderly(h: Host, c: CohortId, stopped: set<CohortId>)
    requires c in h.steps && c < |h.starts|
  {
    if IsDrained(h, c) then
      exists i ::
        && 0 <= i < |h.drains| && h.drains[i].cohort == c
        && Halted(h, c, [CD.Drain(h.drains[i].deadline.Some?)])
    else if c in stopped then Halted(h, c, [])
    else if c in h.exited then h.steps[c] == [CD.MakeHandle(0), CD.DropHandle(0)]
    else h.steps[c] == [CD.MakeHandle(0)]
  }

  /** A log that goes on with `rest` once the handle has been dropped and, possibly, a udp cohort been cancelled. */
  ghost predicate Halted(h: Host, c: CohortId, rest: seq<CD.Step>)
    requires c in h.steps && c < |h.starts|
  {
    || h.steps[c] == [CD.MakeHandle(0), CD.DropHandle(0)] + rest
    || (h.starts[c].proto == Udp && h.steps[c] == [CD.MakeHandle(0), CD.DropHandle(0), CD.Cancel] + rest)
  }

  ghost predicate Logged(h: Host, stopped: set<CohortId>) {
    && (forall c: CohortId :: c in h.steps <==> c < |h.starts|)
    && (forall c :: c in h.steps ==> Orderly(h, c, stopped))
    && (forall c :: c in stopped ==> c in h.steps && !IsDrained(h, c))
    && (forall c :: c in h.exited ==> c < |h.starts|)
    && (forall i :: 0 <= i < |h.drains| ==> h.drains[i].cohort < |h.starts|)
  }

  // ---------------------------------------------------------------- primitive steps

  lemma AdvanceLogged(h: Host, weather: Weather, stopped: set<CohortId>)
    requires Logged(h, stopped)
    ensures Logged(Advance(h, weather), stopped)
  {
    var h' := Advance(h, weather);
    assert forall c :: IsDrained(h', c) == IsDrained(h, c);
    forall c | c in h'.steps ensures Orderly(h', c, stopped) {
      assert Orderly(h, c, stopped);
    }
  }

  lemma LaunchLogged(w: World, env: Env, id: Id, proto: Proto, endpoint: Endpoint, generation: Generation,
                     stopped: set<CohortId>)
    requires Logged(w.host, stopped)
    ensures Logged(Launch(w, env, id, proto, endpoint, generation).0.host, stopped)
  {
    var h := Advance(w.host, env(w.host.tick));
    AdvanceLogged(w.host, env(w.host.tick), stopped);
    hide Advance;
    var h' := Launch(w, env, id, proto, endpoint, generation).0.host;
    if h' != h {
      assert forall c :: IsDrained(h', c) == IsDrained(h, c);
      forall c | c in h'.steps ensures Orderly(h', c, stopped) {
        if c != |h.starts| { assert Orderly(h, c, stopped); }
      }
    }
  }

  /** Stopping a listener drops the handle of its cohort, unless its task has exited and done so. */
  lemma HaltLogged(w: World, id: Id, proto: Proto, stopped: set<CohortId>)
    requires Logged(w.host, stopped) && ActiveAt(w, id, proto).Some?
    requires var c := ActiveAt(w, id, proto).value.cohort; c < |w.host.starts| && !IsDrained(w.host, c)
    ensures Logged(Halt(w, id, proto).host, stopped + {ActiveAt(w, id, proto).value.cohort})
  {
    var h, h' := w.host, Halt(w, id, proto).host;
    var stopped' := stopped + {ActiveAt(w, id, proto).value.cohort};
    assert forall c :: IsDrained(h', c) == IsDrained(h, c);
    forall c | c in h'.steps ensures Orderly(h', c, stopped') {
      assert Orderly(h, c, stopped);
    }
  }

  /** Only a listener that was stopped is cancelled, and only a udp one. */
  lemma VacateLogged(w: World, id: Id, proto: Proto, stopped: set<CohortId>)
    requires Logged(w.host, stopped) && ActiveAt(w, id, proto).Some?
    requires var c := ActiveAt(w, id, proto).value.cohort;
             && c < |w.host.starts| && !IsDrained(w.host, c) && c !in stopped
             && w.host.starts[c].proto == proto
    ensures Logged(Vacate(w, id, proto).host, stopped + {ActiveAt(w, id, proto).value.cohort})
  {
    HaltLogged(w, id, proto, stopped);
    var a := ActiveAt(w, id, proto).value;
    var h, h' := Halt(w, id, proto).host, Vacate(w, id, proto).host;
    var stopped' := stopped + {a.cohort};
    assert forall c :: IsDrained(h', c) == IsDrained(h, c);
    assert Orderly(w.host, a.cohort, stopped);
    assert h.steps[a.cohort] == [CD.MakeHandle(0), CD.DropHandle(0)];
    hide Halt;
    forall c | c in h'.steps ensures Orderly(h', c, stopped') {
      assert Orderly(h, c, stopped');
    }
  }

  /** A drain may only be spawned for a listener that was stopped. */
  lemma SpawnLogged(w: World, id: Id, proto: Proto, drain: Drain, stopped: set<CohortId>)
    requires Logged(w.host, stopped) && SlotAt(w, id, proto).Some? && drain.cohort in stopped
    ensures Logged(SpawnDrain(w, id, proto, drain).host, stopped - {drain.cohort})
  {
    var h, h' := w.host, SpawnDrain(w, id, proto, drain).host;
    var n := |h.drains|;
    assert h'.drains[n] == drain;
    SpawnDrained(h, h', drain);
    forall c | c in h'.steps ensures Orderly(h', c, stopped - {drain.cohort}) {
      assert Orderly(h, c, stopped);
      if c != drain.cohort && IsDrained(h, c) {
        var i :| 0 <= i < n && h.drains[i].cohort == c && Halted(h, c, [CD.Drain(h.drains[i].deadline.Some?)]);
        assert h'.drains[i] == h.drains[i];
      }
    }
  }

  lemma SpawnDrained(h: Host, h': Host, drain: Drain)
    requires h'.drains == h.drains + [drain]
    ensures forall c :: IsDrained(h', c) <==> IsDrained(h, c) || c == drain.cohort
  {
    var n := |h.drains|;
    assert h'.drains[n] == drain;
    forall c | IsDrained(h, c) ensures IsDrained(h', c) {
      var i :| 0 <= i < n && h.drains[i].cohort == c;
      assert h'.drains[i] == h.drains[i];
    }
    forall c | IsDrained(h', c) && c != drain.cohort ensures IsDrained(h, c) {
      var i :| 0 <= i < |h'.drains| && h'.drains[i].cohort == c;
      assert h'.drains[i] == h.drains[i];
    }
  }

  // ---------------------------------------------------------------- operations

  /** The cohort of a slot is not being drained. */
  lemma ServingIsNotDrained(w: World, id: Id, proto: Proto, hand: set<CohortId>)
    requires Inv(w, hand) && ActiveAt(w, id, proto).Some?
    ensures var c := ActiveAt(w, id, proto).value.cohort;
            c < |w.host.starts| && !IsDrained(w.host, c) && w.host.starts[c].proto == proto
  {
    assert Truthful(w, id, proto);
    assert Holds(w, ActiveAt(w, id, proto).value.cohort);
  }

  /** Stop, then drain. */
  lemma RetireLogged(w: World, id: Id, proto: Proto, deadline: Deadline)
    requires Inv(w, {}) && Logged(w.host, {}) && ActiveAt(w, id, proto).Some?
    ensures var a := ActiveAt(w, id, proto).value;
            Logged(SpawnDrain(Halt(w, id, proto), id, proto, Drain(a.cohort, a.generation, deadline)).host, {})
  {
    var a := ActiveAt(w, id, proto).value;
    ServingIsNotDrained(w, id, proto, {});
    HaltLogged(w, id, proto, {});
    hide Logged, Inv;
    SpawnLogged(Halt(w, id, proto), id, proto, Drain(a.cohort, a.generation, deadline), {} + {a.cohort});
    assert {} + {a.cohort} - {a.cohort} == {};
  }

  lemma RefreshSlotLogged(w: World, id: Id, proto: Proto)
    requires Inv(w, {}) && Logged(w.host, {})
    ensures Logged(RefreshSlot(w, id, proto).host, {})
  {
    hide Logged, Inv, IsDrained;
    if HasExited(w, id, proto) {
      RetireLogged(w, id, proto, w.entries[id].drain.onDelete);
    }
  }

  lemma {:induction false} RefreshIdsLogged(w: World, ids: seq<Id>)
    requires Inv(w, {}) && Logged(w.host, {})
    ensures Logged(RefreshIds(w, ids).host, {})
    decreases |ids|
  {
    hide Logged, Inv, RefreshSlot;
    if ids != [] {
      var w1 := RefreshSlot(w, ids[0], Tcp);
      RefreshSlotInv(w, ids[0], Tcp);
      RefreshSlotLogged(w, ids[0], Tcp);
      RefreshSlotInv(w1, ids[0], Udp);
      RefreshSlotLogged(w1, ids[0], Udp);
      RefreshIdsLogged(RefreshSlot(w1, ids[0], Udp), ids[1..]);
    }
  }

  lemma RefreshLogged(w: World, env: Env)
    requires Inv(w, {}) && Logged(w.host, {})
    ensures Logged(Refresh(w, env).host, {})
  {
    hide Logged, Inv, RefreshIds, Advance, SortedKeys;
    ElapseInv(w, env, {});
    AdvanceLogged(w.host, env(w.host.tick), {});
    RefreshIdsLogged(Elapse(w, env), SortedKeys(Elapse(w, env).entries.Keys));
  }

  lemma ReplaceSlotLogged(w: World, env: Env, id: Id, generation: Generation, spec: Spec, proto: Proto,
                          drain: DrainPolicy)
    requires Inv(w, {}) && Logged(w.host, {}) && ActiveAt(w, id, proto).Some?
    ensures Logged(ReplaceSlot(w, env, id, generation, spec, proto, drain).0.host, {})
  {
    hide Logged, Inv, Advance, CanBind, Log;
    var slot := w.entries[id].slots[proto];
    var prev := slot.active.value;
    var superseded := Drain(prev.cohort, prev.generation, drain.onUpdate);
    ServingIsNotDrained(w, id, proto, {});
    VacateLogged(w, id, proto, {});
    var stopped := {} + {prev.cohort};
    assert stopped - {prev.cohort} == {};
    var w1 := Vacate(w, id, proto);
    LaunchLogged(w1, env, id, proto, spec.endpoint, generation, stopped);
    var (w2, started) := Launch(w1, env, id, proto, spec.endpoint, generation);
    match started {
      case Some(a) =>
        SpawnLogged(Install(w2, id, proto, a, spec.endpoint, spec.material), id, proto, superseded, stopped);
      case None =>
        LaunchLogged(w2, env, id, proto, slot.endpoint, prev.generation, stopped);
        var (w3, restored) := Launch(w2, env, id, proto, slot.endpoint, prev.generation);
        var w4 := SetSlot(w3, id, proto, w3.entries[id].slots[proto].(active := restored, state := SlotState.Failed));
        SpawnLogged(w4, id, proto, superseded, stopped);
    }
  }

  lemma MoveSlotLogged(w: World, env: Env, id: Id, generation: Generation, spec: Spec, proto: Proto,
                       drain: DrainPolicy)
    requires Inv(w, {}) && Logged(w.host, {}) && ActiveAt(w, id, proto).Some?
    ensures Logged(MoveSlot(w, env, id, generation, spec, proto, drain).0.host, {})
  {
    hide Logged, Inv, Advance, CanBind, Log;
    var prev := ActiveAt(w, id, proto).value;
    LaunchLogged(w, env, id, proto, spec.endpoint, generation, {});
    LaunchInv(w, env, id, proto, spec.endpoint, generation, {});
    var (w1, started) := Launch(w, env, id, proto, spec.endpoint, generation);
    if started.Some? {
      ServingIsNotDrained(w1, id, proto, {} + {started.value.cohort});
      HaltLogged(w1, id, proto, {});
      var stopped := {} + {prev.cohort};
      assert stopped - {prev.cohort} == {};
      SpawnLogged(Install(Halt(w1, id, proto), id, proto, started.value, spec.endpoint, spec.material), id, proto,
                  Drain(prev.cohort, prev.generation, drain.onUpdate), stopped);
    }
  }

  lemma ApplyProtoLogged(w: World, env: Env, id: Id, generation: Generation, spec: Spec, proto: Proto,
                         drain: DrainPolicy)
    requires Inv(w, {}) && Logged(w.host, {}) && id in w.entries
    ensures Logged(ApplyProto(w, env, id, generation, spec, proto, drain).0.host, {})
  {
    hide Logged, Inv, ReplaceSlot, MoveSlot, Launch, StopSlot;
    if Wants(spec, proto) {
      match ActiveAt(w, id, proto) {
        case None => LaunchLogged(w, env, id, proto, spec.endpoint, generation, {});
        case Some(_) =>
          ReplaceSlotLogged(w, env, id, generation, spec, proto, drain);
          MoveSlotLogged(w, env, id, generation, spec, proto, drain);
      }
    } else {
      StopSlotLogged(w, id, proto, drain.onDelete);
    }
  }

  lemma StopSlotLogged(w: World, id: Id, proto: Proto, deadline: Deadline)
    requires Inv(w, {}) && Logged(w.host, {})
    ensures Logged(StopSlot(w, id, proto, deadline).0.host, {})
  {
    hide Logged, Inv, Halt;
    if ActiveAt(w, id, proto).Some? {
      RetireLogged(w, id, proto, deadline);
    }
  }

  lemma ApplyLogged(w: World, env: Env, id: Id, generation: Generation, spec: Spec)
    requires Inv(w, {}) && Logged(w.host, {})
    ensures Logged(Apply(w, env, id, generation, spec).0.host, {})
  {
    hide Logged, Inv, Refresh, ApplyProto;
    RefreshInv(w, env);
    RefreshLogged(w, env);
    if spec.tcp || spec.udp {
      var drain := PolicyOf(w, spec);
      UpsertInv(Refresh(w, env), id, drain);
      var w2 := Upsert(Refresh(w, env), id, drain);
      ApplyProtoInv(w2, env, id, generation, spec, Tcp, drain);
      ApplyProtoLogged(w2, env, id, generation, spec, Tcp, drain);
      var w3 := ApplyProto(w2, env, id, generation, spec, Tcp, drain).0;
      ApplyProtoLogged(w3, env, id, generation, spec, Udp, drain);
    }
  }

  lemma RemoveLogged(w: World, env: Env, id: Id)
    requires Inv(w, {}) && Logged(w.host, {})
    ensures Logged(Remove(w, env, id).0.host, {})
  {
    hide Logged, Inv, Refresh, StopSlot;
    RefreshInv(w, env);
    RefreshLogged(w, env);
    var w1 := Refresh(w, env);
    if id in w1.entries {
      var deadline := w1.entries[id].drain.onDelete;
      RemoveProtoInv(w1, id, Tcp, deadline);
      StopSlotLogged(w1, id, Tcp, deadline);
      StopSlotLogged(RemoveProto(w1, id, Tcp, deadline).0, id, Udp, deadline);
    }
  }

  lemma {:induction false} RunLogged(policy: DrainPolicy, env: Env, ops: seq<ManagerRuns.Op>)
    ensures Logged(ManagerRuns.Run(Empty(policy), env, ops).host, {})
  {
    if ops != [] {
      hide Apply, Remove, StopAccept, Refresh, Inv, Logged;
      var n := |ops| - 1;
      RunLogged(policy, env, ops[..n]);
      ManagerRuns.RunInv(policy, env, ops[..n]);
      var w := ManagerRuns.Run(Empty(policy), env, ops[..n]);
      match ops[n] {
        case OpApply(id, generation, spec) => ApplyLogged(w, env, id, generation, spec);
        case OpRemove(id) => RemoveLogged(w, env, id);
        case OpStopAccept(id, proto, deadline) => StopAcceptLogged(w, id, proto, deadline);
        case OpStatus => RefreshLogged(w, env);
      }
    }
  }

  lemma StopAcceptLogged(w: World, id: Id, proto: Proto, deadline: Deadline)
    requires Inv(w, {}) && Logged(w.host, {})
    ensures Logged(StopAccept(w, id, proto, deadline).host, {})
  {
    hide Logged, Inv, Halt;
    if ActiveAt(w, id, proto).Some? {
      RetireLogged(w, id, proto, deadline);
    }
  }

  // ---------------------------------------------------------------- every run

  /** The log of a cohort after the run `ops`. */
  ghost function LogOf(policy: DrainPolicy, env: Env, ops: seq<ManagerRuns.Op>, c: CohortId): seq<CD.Step> {
    StepsOf(ManagerRuns.Run(Empty(policy), env, ops).host, c)
  }

  /** Every step comes when it is possible. */
  ghost predicate Possible(steps: seq<CD.Step>) {
    forall i :: 0 <= i < |steps| ==> CD.Enabled(CD.Run(CD.FRESH, steps[..i]), steps[i])
  }

  /** In every reachable state every cohort ever started has logged, each step when it was possible: its only
      handle made; then, once its task has exited or its slot no longer has it, that handle dropped; then, only if it
      is of a udp listener that a drain task has now, possibly its cancellation; then, exactly if a drain task has it,
      the drain, under the deadline of that task. */
  lemma EveryLogIsOrderly(policy: DrainPolicy, env: Env, ops: seq<ManagerRuns.Op>, c: CohortId)
    requires c < |ManagerRuns.Run(Empty(policy), env, ops).host.starts|
    ensures var w := ManagerRuns.Run(Empty(policy), env, ops);
            var log := LogOf(policy, env, ops, c);
            && Possible(log)
            && 1 <= |log| <= 4 && log[0] == CD.MakeHandle(0)
            && (|log| >= 2 <==> c in w.host.exited || !Holds(w, c))
            && (|log| >= 2 ==> log[1] == CD.DropHandle(0))
            && (|log| == 4 ==> log[2] == CD.Cancel && w.host.starts[c].proto == Udp)
            && (|log| >= 3 <==> IsDrained(w.host, c))
            && (forall i :: |log| >= 3 && 0 <= i < |w.host.drains| && w.host.drains[i].cohort == c ==>
                  log[|log| - 1] == CD.Drain(w.host.drains[i].deadline.Some?))
  {
    RunLogged(policy, env, ops);
    ManagerRuns.RunInv(policy, env, ops);
    hide ManagerRuns.Run, Logged, Inv;
    LogShape(ManagerRuns.Run(Empty(policy), env, ops), c);
    OrderlyIsPossible(LogOf(policy, env, ops, c));
  }

  lemma LogShape(w: World, c: CohortId)
    requires Logged(w.host, {}) && Inv(w, {}) && c < |w.host.starts|
    ensures var log := StepsOf(w.host, c);
            && 1 <= |log| <= 4 && log[0] == CD.MakeHandle(0)
            && (|log| >= 2 <==> c in w.host.exited || !Holds(w, c))
            && (|log| >= 2 ==> log[1] == CD.DropHandle(0))
            && (|log| == 4 ==> log[2] == CD.Cancel && w.host.starts[c].proto == Udp)
            && (|log| >= 3 <==> IsDrained(w.host, c))
            && (forall i :: |log| >= 3 && 0 <= i < |w.host.drains| && w.host.drains[i].cohort == c ==>
                  log[|log| - 1] == CD.Drain(w.host.drains[i].deadline.Some?))
  {
    assert Orderly(w.host, c, {});
    assert Holds(w, c) <==> !IsDrained(w.host, c);
    forall i, j | 0 <= i < |w.host.drains| && 0 <= j < |w.host.drains|
        && w.host.drains[i].cohort == w.host.drains[j].cohort ensures i == j
    {
    }
    hide Logged, Inv, Holds;
    if IsDrained(w.host, c) {
      var i :| (0 <= i < |w.host.drains| && w.host.drains[i].cohort == c
                && Halted(w.host, c, [CD.Drain(w.host.drains[i].deadline.Some?)]));
    }
  }

  lemma OrderlyIsPossible(steps: seq<CD.Step>)
    requires 1 <= |steps| <= 4 && steps[0] == CD.MakeHandle(0)
    requires |steps| >= 2 ==> steps[1] == CD.DropHandle(0)
    requires |steps| == 4 ==> steps[2] == CD.Cancel
    requires |steps| >= 3 ==> steps[|steps| - 1].Drain?
    ensures Possible(steps)
  {
    forall i | 0 <= i < |steps| ensures CD.Enabled(CD.Run(CD.FRESH, steps[..i]), steps[i]) {
      RunTo(steps, i);
    }
  }

  /** The cohort before step `i` of an orderly log. */
  lemma RunTo(steps: seq<CD.Step>, i: nat)
    requires i < |steps| <= 4 && steps[0] == CD.MakeHandle(0)
    requires |steps| >= 2 ==> steps[1] == CD.DropHandle(0)
    requires |steps| == 4 ==> steps[2] == CD.Cancel
    ensures var c := CD.Run(CD.FRESH, steps[..i]);
            && c.phase == CD.Idle && c.guards == map[]
            && (i == 0 ==> c.handles == map[]) && (i == 1 ==> c.handles == map[0 := true])
    decreases i
  {
    if i > 0 {
      RunTo(steps, i - 1);
      CD.RunLast(steps[..i]);
      assert steps[..i][..i - 1] == steps[..i - 1];
      hide CD.Run;
    }
  }

  lemma PerformAges(w: World, env: Env, op: ManagerRuns.Op)
    ensures Ages(w.host, ManagerRuns.Perform(w, env, op).host)
  {
    hide Apply, Remove, StopAccept, Refresh;
    match op
    case OpApply(id, generation, spec) => ApplyFrame(w, env, id, generation, spec);
    case OpRemove(id) => RemoveFrame(w, env, id);
    case OpStopAccept(id, proto, deadline) => StopAcceptFrame(w, id, proto, deadline);
    case OpStatus => RefreshFrame(w, env);
  }

  lemma {:induction false} RunAges(w: World, env: Env, ops: seq<ManagerRuns.Op>, k: nat)
    requires k <= |ops|
    ensures Ages(ManagerRuns.Run(w, env, ops[..k]).host, ManagerRuns.Run(w, env, ops).host)
    decreases |ops|
  {
    hide ManagerRuns.Perform;
    if k == |ops| {
      assert ops[..k] == ops;
    } else {
      var rest := ops[..|ops| - 1];
      assert rest[..k] == ops[..k];
      RunAges(w, env, rest, k);
      PerformAges(ManagerRuns.Run(w, env, rest), env, ops[|ops| - 1]);
    }
  }

  /** Along every run of the manager the log of a cohort is only ever continued. */
  lemma LogsContinue(policy: DrainPolicy, env: Env, ops: seq<ManagerRuns.Op>, k: nat, c: CohortId)
    requires k <= |ops| && c < |ManagerRuns.Run(Empty(policy), env, ops[..k]).host.starts|
    ensures c < |ManagerRuns.Run(Empty(policy), env, ops).host.starts|
    ensures LogOf(policy, env, ops[..k], c) <= LogOf(policy, env, ops, c)
  {
    RunAges(Empty(policy), env, ops, k);
    RunLogged(policy, env, ops[..k]);
    RunLogged(policy, env, ops);
    ManagerRuns.RunInv(policy, env, ops[..k]);
    ManagerRuns.RunInv(policy, env, ops);
    var w, w' := ManagerRuns.Run(Empty(policy), env, ops[..k]), ManagerRuns.Run(Empty(policy), env, ops);
    if IsDrained(w.host, c) {
      DrainedIsCutNoMore(policy, env, ops, k, c);
    }
    hide ManagerRuns.Run, Logged, Inv;
    LogGrows(w, w', c);
  }

  /** What drains is not cancelled any more by the manager. */
  lemma {:induction false} DrainedIsCutNoMore(policy: DrainPolicy, env: Env, ops: seq<ManagerRuns.Op>, k: nat,
                                              c: CohortId)
    requires k <= |ops| && IsDrained(ManagerRuns.Run(Empty(policy), env, ops[..k]).host, c)
    ensures CutOffs.Cut(ManagerRuns.Run(Empty(policy), env, ops).host, c) <==>
              CutOffs.Cut(ManagerRuns.Run(Empty(policy), env, ops[..k]).host, c)
    decreases |ops|
  {
    hide ManagerRuns.Perform, CutOffs.Cut, CutOffs.CutsOff;
    if k == |ops| {
      assert ops[..k] == ops;
    } else {
      var n := |ops| - 1;
      assert ops[..n][..k] == ops[..k];
      DrainedIsCutNoMore(policy, env, ops[..n], k, c);
      var w := ManagerRuns.Run(Empty(policy), env, ops[..n]);
      CutOffs.PerformCuts(w, env, ops[n], c);
      RunAges(Empty(policy), env, ops[..n], k);
      ManagerRuns.RunInv(policy, env, ops[..n]);
      DrainsOn(ManagerRuns.Run(Empty(policy), env, ops[..k]).host, w.host, c);
      NotCutWhileDraining(w, env, ops[n], c);
    }
  }

  lemma DrainsOn(h: Host, h': Host, c: CohortId)
    requires IsDrained(h, c) && Ages(h, h')
    ensures IsDrained(h', c)
  {
    var i :| 0 <= i < |h.drains| && h.drains[i].cohort == c;
    assert h'.drains[i] == h.drains[i];
  }

  lemma NotCutWhileDraining(w: World, env: Env, op: ManagerRuns.Op, c: CohortId)
    requires Inv(w, {}) && IsDrained(w.host, c)
    ensures !CutOffs.CutsOff(w, env, op, c)
  {
    hide Refresh, Inv, IsDrained, Ages;
    RefreshFrame(w, env);
    RefreshInv(w, env);
    DrainsOn(w.host, Refresh(w, env).host, c);
    if op.OpApply? && ActiveAt(Refresh(w, env), op.id, Udp).Some? {
      ServingIsNotDrained(Refresh(w, env), op.id, Udp, {});
    }
  }

  lemma LogGrows(w: World, w': World, c: CohortId)
    requires Logged(w.host, {}) && Inv(w, {}) && Logged(w'.host, {}) && Inv(w', {})
    requires Ages(w.host, w'.host) && c < |w.host.starts|
    requires IsDrained(w.host, c) ==> (CutOffs.Cut(w.host, c) <==> CutOffs.Cut(w'.host, c))
    ensures StepsOf(w.host, c) <= StepsOf(w'.host, c)
  {
    LogShape(w, c);
    LogShape(w', c);
    assert Holds(w, c) <==> !IsDrained(w.host, c);
    var d := false;
    if IsDrained(w.host, c) {
      DrainsOn(w.host, w'.host, c);
      var i :| 0 <= i < |w.host.drains| && w.host.drains[i].cohort == c;
      d := w.host.drains[i].deadline.Some?;
      assert w'.host.drains[i] == w.host.drains[i];
    }
    hide Logged, Inv, Holds, IsDrained, StepsOf;
    ShapeGrows(StepsOf(w.host, c), StepsOf(w'.host, c), d);
  }

  /** The shape of an orderly log. */
  ghost predicate Shape(log: seq<CD.Step>) {
    && 1 <= |log| <= 4 && log[0] == CD.MakeHandle(0)
    && (|log| >= 2 ==> log[1] == CD.DropHandle(0))
    && (|log| >= 3 ==> log[|log| - 1].Drain?)
    && (|log| == 4 ==> log[2] == CD.Cancel)
  }

  lemma ShapeGrows(log: seq<CD.Step>, log': seq<CD.Step>, d: bool)
    requires Shape(log) && Shape(log')
    requires |log| <= 2 ==> |log| <= |log'|
    requires |log| >= 3 ==> |log'| >= 3 && log[|log| - 1] == log'[|log'| - 1] == CD.Drain(d)
    requires |log| >= 3 ==> (CD.Cancel in log <==> CD.Cancel in log')
    ensures log <= log'
  {
    if |log| >= 3 {
      CutShape(log);
      CutShape(log');
    }
  }

  lemma CutShape(log: seq<CD.Step>)
    requires Shape(log)
    ensures CD.Cancel in log <==> |log| == 4
    ensures forall i :: 0 < i < |log| ==> !log[i].MakeHandle?
  {
    if |log| == 4 {
      assert log[2] == CD.Cancel;
    }
  }

  // ---------------------------------------------------------------- with the connections

  /** Steps that are the manager's to take; all others are those of the accept loop, of the connections and of
      the drain itself. */
  ghost predicate Managed(s: CD.Step) {
    s.MakeHandle? || s.Cancel? || s.Drain? || s == CD.DropHandle(0)
  }

  ghost function ManagedSteps(steps: seq<CD.Step>): seq<CD.Step> {
    if steps == [] then []
    else ManagedSteps(steps[..|steps| - 1]) + if Managed(steps[|steps| - 1]) then [steps[|steps| - 1]] else []
  }

  /** A schedule of a cohort in which the manager does what the log says, and everyone else anything. Nobody has
      the cohort before the manager does something with it. */
  ghost predicate Follows(steps: seq<CD.Step>, log: seq<CD.Step>) {
    steps != [] && Managed(steps[0]) && ManagedSteps(steps) == log
  }

  lemma {:induction false} ManagedStep(steps: seq<CD.Step>, i: nat)
    requires i < |steps| && Managed(steps[i])
    ensures steps[i] in ManagedSteps(steps)
    decreases |steps|
  {
    var n := |steps| - 1;
    if i < n {
      ManagedStep(steps[..n], i);
    }
  }

  /** A managed step after the first has its place after the first in the story. */
  lemma {:induction false} Later(steps: seq<CD.Step>, i: nat)
    requires 0 < i < |steps| && Managed(steps[0]) && Managed(steps[i])
    ensures |ManagedSteps(steps)| > 1 && steps[i] in ManagedSteps(steps)[1..]
    decreases |steps|
  {
    var n := |steps| - 1;
    ManagedStep(steps[..n], 0);
    if i < n {
      Later(steps[..n], i);
      var tail := if Managed(steps[n]) then [steps[n]] else [];
      assert ManagedSteps(steps)[1..] == ManagedSteps(steps[..n])[1..] + tail;
    } else {
      assert ManagedSteps(steps) == ManagedSteps(steps[..n]) + [steps[n]];
      assert ManagedSteps(steps)[|ManagedSteps(steps)| - 1] == steps[n];
    }
  }

  lemma {:induction false} NeverLate(c: CD.Cohort, steps: seq<CD.Step>)
    requires !c.late && forall i :: 0 <= i < |steps| ==> !steps[i].MakeHandle?
    ensures !CD.Run(c, steps).late
    decreases |steps|
  {
    if steps != [] {
      NeverLate(if CD.Enabled(c, steps[0]) then CD.Take(c, steps[0]) else c, steps[1..]);
    }
  }

  /** Where the log of a cohort of the manager is followed, no handle is given out after draining began. */
  lemma ManagedIsNeverLate(policy: DrainPolicy, env: Env, ops: seq<ManagerRuns.Op>, c: CohortId, steps: seq<CD.Step>)
    requires c < |ManagerRuns.Run(Empty(policy), env, ops).host.starts|
    requires Follows(steps, LogOf(policy, env, ops, c))
    ensures !CD.Run(CD.FRESH, steps).late
  {
    EveryLogIsOrderly(policy, env, ops, c);
    var log := LogOf(policy, env, ops, c);
    assert forall i :: 0 < i < |log| ==> !log[i].MakeHandle? by { CutShape(log); }
    hide LogOf, ManagerRuns.Run, IsDrained, Holds, Possible;
    FirstManaged(steps);
    forall i | 0 < i < |steps| ensures !steps[i].MakeHandle? {
      if steps[i].MakeHandle? {
        Later(steps, i);
      }
    }
    NeverLate(CD.Take(CD.FRESH, steps[0]), steps[1..]);
  }

  lemma {:induction false} FirstManaged(steps: seq<CD.Step>)
    requires steps != [] && Managed(steps[0])
    ensures ManagedSteps(steps) != [] && ManagedSteps(steps)[0] == steps[0]
    decreases |steps|
  {
    var n := |steps| - 1;
    if n > 0 {
      FirstManaged(steps[..n]);
    } else {
      assert steps[..n] == [];
    }
  }

  /** Drain soundness for the manager: whatever the manager does (`ops`, and later `ops + later`) and however its
      steps interleave with those of the connections, a drain of one of its cohorts that has resolved was
      spawned by the manager, has no connection and no handle left, and never has one again. */
  lemma ManagedDrainIsFinal(policy: DrainPolicy, env: Env, ops: seq<ManagerRuns.Op>, later: seq<ManagerRuns.Op>,
                            c: CohortId, steps: seq<CD.Step>, more: seq<CD.Step>)
    requires c < |ManagerRuns.Run(Empty(policy), env, ops).host.starts|
    requires Follows(steps, LogOf(policy, env, ops, c))
    requires Follows(steps + more, LogOf(policy, env, ops + later, c))
    requires CD.Run(CD.FRESH, steps).phase.Drained?
    ensures IsDrained(ManagerRuns.Run(Empty(policy), env, ops).host, c)
    ensures var end := CD.Run(CD.FRESH, steps + more); end.count == 0 && end.guards == map[] && end.handles == map[]
  {
    hide ManagerRuns.Run, LogOf, IsDrained, Follows, CD.Run;
    ResolvedWasSpawned(policy, env, ops, c, steps);
    assert (ops + later)[..|ops|] == ops;
    LogsContinue(policy, env, ops + later, |ops|, c);
    ManagedIsNeverLate(policy, env, ops + later, c, steps + more);
    CD.DrainedIsFinal(steps, more);
  }

  lemma ResolvedWasSpawned(policy: DrainPolicy, env: Env, ops: seq<ManagerRuns.Op>, c: CohortId, steps: seq<CD.Step>)
    requires c < |ManagerRuns.Run(Empty(policy), env, ops).host.starts|
    requires Follows(steps, LogOf(policy, env, ops, c)) && CD.Run(CD.FRESH, steps).phase.Drained?
    ensures IsDrained(ManagerRuns.Run(Empty(policy), env, ops).host, c)
  {
    hide ManagerRuns.Run, LogOf, IsDrained, Follows, CD.Run, Possible, Holds;
    EveryLogIsOrderly(policy, env, ops, c);
    DrainedByTheLog(steps, LogOf(policy, env, ops, c));
  }

  /** Only a drain in the log can have resolved. */
  lemma DrainedByTheLog(steps: seq<CD.Step>, log: seq<CD.Step>)
    requires Follows(steps, log) && CD.Run(CD.FRESH, steps).phase.Drained?
    ensures exists j :: 0 <= j < |log| && log[j].Drain?
  {
    if forall i :: 0 <= i < |steps| ==> !steps[i].Drain? {
      NeverDrains(CD.FRESH, steps);
    } else {
      var i :| 0 <= i < |steps| && steps[i].Drain?;
      ManagedStep(steps, i);
    }
  }

  lemma {:induction false} NeverDrains(c: CD.Cohort, steps: seq<CD.Step>)
    requires c.phase == CD.Idle && forall i :: 0 <= i < |steps| ==> !steps[i].Drain?
    ensures CD.Run(c, steps).phase == CD.Idle
    decreases |steps|
  {
    if steps != [] {
      NeverDrains(if CD.Enabled(c, steps[0]) then CD.Take(c, steps[0]) else c, steps[1..]);
    }
  }

  // ---------------------------------------------------------------- who is cut off

  lemma {:induction false} ManagedIsAStep(steps: seq<CD.Step>, s: CD.Step)
    requires s in ManagedSteps(steps)
    ensures s in steps
    decreases |steps|
  {
    if steps != [] {
      var n := |steps| - 1;
      if s in ManagedSteps(steps[..n]) {
        ManagedIsAStep(steps[..n], s);
      }
    }
  }

  /** The deadline of the drain of cohort `c` passes at step `k`, before its connections are gone. */
  ghost predicate RunsOut(steps: seq<CD.Step>, k: nat)
    requires k < |steps|
  {
    steps[k] == CD.Expire && CD.Run(CD.FRESH, steps[..k]).phase == CD.Draining(true)
  }

  /** Who is told to stop: whatever the manager does and however its steps interleave with those of the connections,
      the connections of a cohort have been told to stop if and only if it is a udp cohort that an operation
      replaced at its own address, or the deadline of its drain has passed. */
  lemma CutOffExactly(policy: DrainPolicy, env: Env, ops: seq<ManagerRuns.Op>, c: CohortId, steps: seq<CD.Step>)
    requires Follows(steps, LogOf(policy, env, ops, c))
    ensures CD.Run(CD.FRESH, steps).cancelled <==>
              || (exists k :: 0 <= k < |ops| && CutOffs.CutsAt(policy, env, ops, k, c))
              || (exists k :: 0 <= k < |steps| && RunsOut(steps, k))
  {
    var log := LogOf(policy, env, ops, c);
    CD.CancelledExactly(steps);
    CutOffs.CutExactly(policy, env, ops, c);
    assert CD.Cancel in log <==> exists k :: 0 <= k < |ops| && CutOffs.CutsAt(policy, env, ops, k, c);
    hide LogOf, ManagerRuns.Run, CutOffs.CutsAt;
    if CD.Cancel in log {
      ManagedIsAStep(steps, CD.Cancel);
      var k :| 0 <= k < |steps| && steps[k] == CD.Cancel;
      assert CD.CancelsAt(steps, k);
    }
    forall k | 0 <= k < |steps| ensures CD.CancelsAt(steps, k) <==> steps[k] == CD.Cancel || RunsOut(steps, k) {
      CD.CountIsExact(steps[..k]);
    }
    hide CD.CancelsAt, RunsOut, CD.Run;
    if k :| 0 <= k < |steps| && CD.CancelsAt(steps, k) && steps[k] == CD.Cancel {
      ManagedStep(steps, k);
    }
  }

  lemma {:induction false} DrainsUnderItsOwn(c: CD.Cohort, steps: seq<CD.Step>, d: bool)
    requires CD.Run(c, steps).phase == CD.Draining(d) && c.phase != CD.Draining(d)
    ensures CD.Drain(d) in steps
    decreases |steps|
  {
    if steps != [] && steps[0] != CD.Drain(d) {
      DrainsUnderItsOwn(if CD.Enabled(c, steps[0]) then CD.Take(c, steps[0]) else c, steps[1..], d);
    }
  }

  /** An update keeps established connections: the connections of a tcp cohort whose drain, if it has one, is under no
      deadline are never told to stop. */
  lemma ConnectionsAreKept(policy: DrainPolicy, env: Env, ops: seq<ManagerRuns.Op>, c: CohortId, steps: seq<CD.Step>)
    requires var h := ManagerRuns.Run(Empty(policy), env, ops).host;
             && c < |h.starts| && h.starts[c].proto == Tcp
             && forall i :: 0 <= i < |h.drains| && h.drains[i].cohort == c ==> h.drains[i].deadline.None?
    requires Follows(steps, LogOf(policy, env, ops, c))
    ensures !CD.Run(CD.FRESH, steps).cancelled
  {
    RunLogged(policy, env, ops);
    ManagerRuns.RunInv(policy, env, ops);
    hide ManagerRuns.Run, Logged, Inv, Follows;
    LogKeeps(ManagerRuns.Run(Empty(policy), env, ops), c);
    NothingCuts(steps, LogOf(policy, env, ops, c));
  }

  lemma LogKeeps(w: World, c: CohortId)
    requires Logged(w.host, {}) && Inv(w, {}) && c < |w.host.starts| && w.host.starts[c].proto == Tcp
    requires forall i :: 0 <= i < |w.host.drains| && w.host.drains[i].cohort == c ==> w.host.drains[i].deadline.None?
    ensures CD.Drain(true) !in StepsOf(w.host, c) && CD.Cancel !in StepsOf(w.host, c)
  {
    LogShape(w, c);
    var log := StepsOf(w.host, c);
    if |log| == 3 {
      var i :| 0 <= i < |w.host.drains| && w.host.drains[i].cohort == c;
    }
    assert |log| <= 3 && (|log| == 3 ==> log[2] == CD.Drain(false));
    hide *;
    NoneOfThese(log);
  }

  lemma NoneOfThese(log: seq<CD.Step>)
    requires 1 <= |log| <= 3 && log[0] == CD.MakeHandle(0)
    requires (|log| >= 2 ==> log[1] == CD.DropHandle(0)) && (|log| == 3 ==> log[2] == CD.Drain(false))
    ensures CD.Drain(true) !in log && CD.Cancel !in log
  {
  }

  lemma NothingCuts(steps: seq<CD.Step>, log: seq<CD.Step>)
    requires Follows(steps, log) && CD.Drain(true) !in log && CD.Cancel !in log
    ensures !CD.Run(CD.FRESH, steps).cancelled
  {
    CD.CancelledExactly(steps);
    if k :| 0 <= k < |steps| && CD.CancelsAt(steps, k) {
      if steps[k] == CD.Cancel {
        ManagedStep(steps, k);
      } else {
        DrainsUnderItsOwn(CD.FRESH, steps[..k], true);
        var j :| 0 <= j < k && steps[j] == CD.Drain(true);
        ManagedStep(steps, j);
      }
    }
  }
}
