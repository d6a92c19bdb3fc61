/** Which connections a change cuts off. The associations of a udp listener that is replaced at its own address are
    cancelled; every other cohort the manager stops is left to its drain. */
module CutOffs {
  import opened Lifecycle
  import opened Manager
  import opened ManagerFrame
  import opened ManagerRuns
  import CD = CohortDrain

  /** The manager has cancelled the connections of cohort `c`. */
  ghost predicate Cut(h: Host, c: CohortId) {
    CD.Cancel in StepsOf(h, c)
  }

  // ---------------------------------------------------------------- primitive steps

  lemma LogCuts(h: Host, c: CohortId, step: CD.Step, x: CohortId)
    ensures Cut(Log(h, c, step), x) <==> Cut(h, x) || (x == c && step == CD.Cancel)
  {
    assert StepsOf(Log(h, c, step), x) == if x == c then StepsOf(h, c) + [step] else StepsOf(h, x);
  }

  lemma AdvanceCuts(h: Host, weather: Weather, x: CohortId)
    ensures Cut(Advance(h, weather), x) <==> Cut(h, x)
  {
  }

  lemma LaunchCuts(w: World, env: Env, id: Id, proto: Proto, endpoint: Endpoint, generation: Generation, x: CohortId)
    ensures Cut(Launch(w, env, id, proto, endpoint, generation).0.host, x) <==> Cut(w.host, x)
  {
    var weather := env(w.host.tick);
    var h := Advance(w.host, weather);
    AdvanceCuts(w.host, weather, x);
    var key, c := Key(endpoint.laddr, proto), |h.starts|;
    var bound := h.(starts := h.starts + [Birth(id, proto, endpoint, generation)], bound := h.bound[key := c]);
    LogCuts(bound, c, CD.MakeHandle(0), x);
    assert Cut(bound, x) == Cut(h, x);
    hide Advance, CanBind, Log, Cut;
  }

  lemma HaltCuts(w: World, id: Id, proto: Proto, x: CohortId)
    requires ActiveAt(w, id, proto).Some?
    ensures Cut(Halt(w, id, proto).host, x) <==> Cut(w.host, x)
  {
  }

  lemma VacateCuts(w: World, id: Id, proto: Proto, x: CohortId)
    requires ActiveAt(w, id, proto).Some?
    ensures Cut(Vacate(w, id, proto).host, x) <==>
              Cut(w.host, x) || (proto == Udp && x == ActiveAt(w, id, proto).value.cohort)
  {
    HaltCuts(w, id, proto, x);
    LogCuts(Halt(w, id, proto).host, ActiveAt(w, id, proto).value.cohort, CD.Cancel, x);
    hide Halt, Log, Cut;
  }

  lemma SpawnCuts(w: World, id: Id, proto: Proto, drain: Drain, x: CohortId)
    requires SlotAt(w, id, proto).Some?
    ensures Cut(SpawnDrain(w, id, proto, drain).host, x) <==> Cut(w.host, x)
  {
    var h := w.host.(drains := w.host.drains + [drain]);
    LogCuts(h, drain.cohort, CD.Drain(drain.deadline.Some?), x);
    assert Cut(h, x) == Cut(w.host, x);
    hide Log, Cut;
  }

  // ---------------------------------------------------------------- one slot

  lemma RetireCuts(w: World, id: Id, proto: Proto, drain: Drain, x: CohortId)
    requires ActiveAt(w, id, proto).Some?
    ensures Cut(SpawnDrain(Halt(w, id, proto), id, proto, drain).host, x) <==> Cut(w.host, x)
  {
    HaltCuts(w, id, proto, x);
    SpawnCuts(Halt(w, id, proto), id, proto, drain, x);
  }

  lemma RefreshSlotCuts(w: World, id: Id, proto: Proto, x: CohortId)
    ensures Cut(RefreshSlot(w, id, proto).host, x) <==> Cut(w.host, x)
  {
    if HasExited(w, id, proto) {
      var a := ActiveAt(w, id, proto).value;
      RetireCuts(w, id, proto, Drain(a.cohort, a.generation, w.entries[id].drain.onDelete), x);
    }
    hide Cut, SpawnDrain, Halt;
  }

  lemma {:induction false} RefreshIdsCuts(w: World, ids: seq<Id>, x: CohortId)
    ensures Cut(RefreshIds(w, ids).host, x) <==> Cut(w.host, x)
    decreases |ids|
  {
    hide Cut, RefreshSlot;
    if ids != [] {
      RefreshSlotCuts(w, ids[0], Tcp, x);
      var w1 := RefreshSlot(w, ids[0], Tcp);
      RefreshSlotCuts(w1, ids[0], Udp, x);
      RefreshIdsCuts(RefreshSlot(w1, ids[0], Udp), ids[1..], x);
    }
  }

  lemma RefreshCuts(w: World, env: Env, x: CohortId)
    ensures Cut(Refresh(w, env).host, x) <==> Cut(w.host, x)
  {
    hide Cut, RefreshIds, Advance;
    AdvanceCuts(w.host, env(w.host.tick), x);
    RefreshIdsCuts(Elapse(w, env), SortedKeys(Elapse(w, env).entries.Keys), x);
  }

  lemma ReplaceCuts(w: World, env: Env, id: Id, generation: Generation, spec: Spec, proto: Proto, drain: DrainPolicy,
                    x: CohortId)
    requires ActiveAt(w, id, proto).Some?
    ensures Cut(ReplaceSlot(w, env, id, generation, spec, proto, drain).0.host, x) <==>
              Cut(w.host, x) || (proto == Udp && x == ActiveAt(w, id, proto).value.cohort)
  {
    hide Cut, Advance, CanBind, Log;
    var slot := w.entries[id].slots[proto];
    var prev := slot.active.value;
    var superseded := Drain(prev.cohort, prev.generation, drain.onUpdate);
    VacateCuts(w, id, proto, x);
    var w1 := Vacate(w, id, proto);
    LaunchCuts(w1, env, id, proto, spec.endpoint, generation, x);
    var (w2, started) := Launch(w1, env, id, proto, spec.endpoint, generation);
    match started {
      case Some(a) => SpawnCuts(Install(w2, id, proto, a, spec.endpoint, spec.material), id, proto, superseded, x);
      case None =>
        LaunchCuts(w2, env, id, proto, slot.endpoint, prev.generation, x);
        var (w3, restored) := Launch(w2, env, id, proto, slot.endpoint, prev.generation);
        var w4 := SetSlot(w3, id, proto, w3.entries[id].slots[proto].(active := restored, state := SlotState.Failed));
        SpawnCuts(w4, id, proto, superseded, x);
    }
  }

  lemma MoveCuts(w: World, env: Env, id: Id, generation: Generation, spec: Spec, proto: Proto, drain: DrainPolicy,
                 x: CohortId)
    requires ActiveAt(w, id, proto).Some?
    ensures Cut(MoveSlot(w, env, id, generation, spec, proto, drain).0.host, x) <==> Cut(w.host, x)
  {
    hide Cut, Advance, CanBind, Log, Unbind;
    var prev := ActiveAt(w, id, proto).value;
    LaunchCuts(w, env, id, proto, spec.endpoint, generation, x);
    var (w1, started) := Launch(w, env, id, proto, spec.endpoint, generation);
    if started.Some? {
      HaltCuts(w1, id, proto, x);
      SpawnCuts(Install(Halt(w1, id, proto), id, proto, started.value, spec.endpoint, spec.material), id, proto,
                Drain(prev.cohort, prev.generation, drain.onUpdate), x);
    }
  }

  /** The slot has `c` serving the address the spec asks for, but not as the spec asks. */
  ghost predicate RebuildsOn(slot: Option<Slot>, spec: Spec, c: CohortId) {
    && slot.Some? && slot.value.active.Some?
    && slot.value.active.value.cohort == c
    && slot.value.active.value.laddr == spec.endpoint.laddr
    && !(slot.value.material == spec.material && SameShown(slot.value.endpoint, spec.endpoint))
  }

  lemma ApplyProtoCuts(w: World, env: Env, id: Id, generation: Generation, spec: Spec, proto: Proto,
                       drain: DrainPolicy, x: CohortId)
    requires id in w.entries
    ensures Cut(ApplyProto(w, env, id, generation, spec, proto, drain).0.host, x) <==>
              Cut(w.host, x) || (proto == Udp && spec.udp && RebuildsOn(SlotAt(w, id, Udp), spec, x))
  {
    hide Cut, ReplaceSlot, MoveSlot, Launch, SpawnDrain, Halt;
    match ActiveAt(w, id, proto) {
      case None => LaunchCuts(w, env, id, proto, spec.endpoint, generation, x);
      case Some(a) =>
        ReplaceCuts(w, env, id, generation, spec, proto, drain, x);
        MoveCuts(w, env, id, generation, spec, proto, drain, x);
        RetireCuts(w, id, proto, Drain(a.cohort, a.generation, drain.onDelete), x);
    }
  }

  // ---------------------------------------------------------------- operations

  /** Operation `op` cuts off cohort `c`: it applies a spec with udp to the endpoint whose udp listener, not found dead
      by the refresh, is `c`; the address stays and what is served there does not. */
  ghost predicate CutsOff(w: World, env: Env, op: Op, c: CohortId) {
    && op.OpApply? && op.spec.udp
    && RebuildsOn(SlotAt(Refresh(w, env), op.id, Udp), op.spec, c)
  }

  lemma ApplyCuts(w: World, env: Env, id: Id, generation: Generation, spec: Spec, x: CohortId)
    ensures Cut(Apply(w, env, id, generation, spec).0.host, x) <==>
              Cut(w.host, x) || CutsOff(w, env, OpApply(id, generation, spec), x)
  {
    hide Cut, Refresh, ApplyProto, RebuildsOn;
    RefreshCuts(w, env, x);
    if spec.tcp || spec.udp {
      var drain := PolicyOf(w, spec);
      var w1 := Upsert(Refresh(w, env), id, drain);
      ApplyProtoCuts(w1, env, id, generation, spec, Tcp, drain, x);
      ApplyProtoFrame(w1, env, id, generation, spec, Tcp, drain);
      var w2 := ApplyProto(w1, env, id, generation, spec, Tcp, drain).0;
      assert SlotAt(w2, id, Udp) == SlotAt(w1, id, Udp) == SlotAt(Refresh(w, env), id, Udp) by {
        OtherSlot(w1, w2, id);
      }
      ApplyProtoCuts(w2, env, id, generation, spec, Udp, drain, x);
      var w3 := ApplyProto(w2, env, id, generation, spec, Udp, drain).0;
      assert Prune(w3, id).host == w3.host;
    }
  }

  lemma OtherSlot(w: World, w': World, id: Id)
    requires AtSlot(w, w', id, Tcp)
    ensures SlotAt(w', id, Udp) == SlotAt(w, id, Udp)
  {
  }

  lemma RemoveCuts(w: World, env: Env, id: Id, x: CohortId)
    ensures Cut(Remove(w, env, id).0.host, x) <==> Cut(w.host, x)
  {
    hide Cut, Refresh, RemoveProto;
    RefreshCuts(w, env, x);
    var w1 := Refresh(w, env);
    if id in w1.entries {
      var deadline := w1.entries[id].drain.onDelete;
      RemoveProtoCuts(w1, id, Tcp, deadline, x);
      RemoveProtoCuts(RemoveProto(w1, id, Tcp, deadline).0, id, Udp, deadline, x);
    }
  }

  lemma RemoveProtoCuts(w: World, id: Id, proto: Proto, deadline: Deadline, x: CohortId)
    ensures Cut(RemoveProto(w, id, proto, deadline).0.host, x) <==> Cut(w.host, x)
  {
    hide Cut, SpawnDrain, Halt;
    if ActiveAt(w, id, proto).Some? {
      var a := ActiveAt(w, id, proto).value;
      RetireCuts(w, id, proto, Drain(a.cohort, a.generation, deadline), x);
    }
  }

  lemma PerformCuts(w: World, env: Env, op: Op, x: CohortId)
    ensures Cut(Perform(w, env, op).host, x) <==> Cut(w.host, x) || CutsOff(w, env, op, x)
  {
    hide Cut, Apply, Remove, Refresh, RebuildsOn, SpawnDrain, Halt;
    match op
    case OpApply(id, generation, spec) => ApplyCuts(w, env, id, generation, spec, x);
    case OpRemove(id) => RemoveCuts(w, env, id, x);
    case OpStopAccept(id, proto, deadline) =>
      if ActiveAt(w, id, proto).Some? {
        var a := ActiveAt(w, id, proto).value;
        RetireCuts(w, id, proto, Drain(a.cohort, a.generation, deadline), x);
      }
    case OpStatus => RefreshCuts(w, env, x);
  }

  /** Along every run of the manager, in any weather: a cohort has been cancelled if and only if one of the operations
      replaced it, a udp listener, at its own address. No operation ever cancels a tcp cohort, one that moves to
      another address, one that is deleted or one whose task exited. */
  lemma {:induction false} CutExactly(policy: DrainPolicy, env: Env, ops: seq<Op>, c: CohortId)
    ensures Cut(Run(Empty(policy), env, ops).host, c) <==> exists k :: 0 <= k < |ops| && CutsAt(policy, env, ops, k, c)
    decreases |ops|
  {
    hide Perform, CutsOff;
    if ops != [] {
      hide Cut;
      var n := |ops| - 1;
      var rest := ops[..n];
      CutExactly(policy, env, rest, c);
      PerformCuts(Run(Empty(policy), env, rest), env, ops[n], c);
      assert forall k :: 0 <= k < n ==> CutsAt(policy, env, rest, k, c) == CutsAt(policy, env, ops, k, c) by {
        hide Run;
        assert forall k :: 0 <= k < n ==> rest[..k] == ops[..k];
      }
      assert CutsAt(policy, env, ops, n, c) == CutsOff(Run(Empty(policy), env, rest), env, ops[n], c);
      hide CutsAt;
    }
  }

  /** The operation that comes after the first `k` cuts off `c`. */
  ghost predicate CutsAt(policy: DrainPolicy, env: Env, ops: seq<Op>, k: nat, c: CohortId)
    requires k < |ops|
  {
    CutsOff(Run(Empty(policy), env, ops[..k]), env, ops[k], c)
  }
}
