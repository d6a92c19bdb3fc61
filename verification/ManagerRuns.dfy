/** Whole runs of the manager: what holds in every state any sequence of operations can reach, in any
    weather, and under which deadline a superseded cohort drains. */
module ManagerRuns {
  import opened Lifecycle
  import opened Manager
  import opened ManagerInvariant
  import opened ManagerFrame

  datatype Op =
    | OpApply(id: Id, generation: Generation, spec: Spec)
    | OpRemove(id: Id)
    | OpStopAccept(id: Id, proto: Proto, deadline: Deadline)
    | OpStatus

  function Perform(w: World, env: Env, op: Op): World {
    match op
    case OpApply(id, generation, spec) => Apply(w, env, id, generation, spec).0
    case OpRemove(id) => Remove(w, env, id).0
    case OpStopAccept(id, proto, deadline) => StopAccept(w, id, proto, deadline)
    case OpStatus => Refresh(w, env)
  }

  function Run(w: World, env: Env, ops: seq<Op>): World {
    if ops == [] then w else Perform(Run(w, env, ops[..|ops| - 1]), env, ops[|ops| - 1])
  }

  /** A spec whose digest describes what its endpoint was built from. */
  ghost predicate WellBuilt(spec: Spec) {
    spec.material == spec.endpoint.material
  }

  ghost predicate WellBuiltOps(ops: seq<Op>) {
    forall i :: 0 <= i < |ops| && ops[i].OpApply? ==> WellBuilt(ops[i].spec)
  }

  lemma {:induction false} RunInv(policy: DrainPolicy, env: Env, ops: seq<Op>)
    ensures Inv(Run(Empty(policy), env, ops), {})
  {
    if ops != [] {
      hide Apply, Remove, StopAccept, Refresh, Inv;
      var n := |ops| - 1;
      RunInv(policy, env, ops[..n]);
      var w := Run(Empty(policy), env, ops[..n]);
      match ops[n] {
        case OpApply(id, generation, spec) => ApplyInv(w, env, id, generation, spec);
        case OpRemove(id) => RemoveInv(w, env, id);
        case OpStopAccept(id, proto, deadline) => StopAcceptInv(w, id, proto, deadline);
        case OpStatus => RefreshInv(w, env);
      }
    }
  }

  /** Cohort conservation: in every reachable state every cohort ever started is either the listener of
      the slot it was started for, or in exactly one drain task, and never in both; and no two slots
      share a cohort. */
  lemma CohortsAreConserved(policy: DrainPolicy, env: Env, ops: seq<Op>)
    ensures var w := Run(Empty(policy), env, ops);
            && (forall c :: 0 <= c < |w.host.starts| ==> Holds(w, c) != IsDrained(w.host, c))
            && (forall i, j :: 0 <= i < j < |w.host.drains| ==> w.host.drains[i].cohort != w.host.drains[j].cohort)
            && (forall i :: 0 <= i < |w.host.drains| ==> w.host.drains[i].cohort < |w.host.starts|)
            && (forall i: Id, j: Id, p, q ::
                  (ActiveAt(w, i, p).Some? && ActiveAt(w, j, q).Some?
                   && ActiveAt(w, i, p).value.cohort == ActiveAt(w, j, q).value.cohort) ==> i == j && p == q)
  {
    hide Run;
    RunInv(policy, env, ops);
    var w := Run(Empty(policy), env, ops);
    forall i: Id, j: Id, p, q | ActiveAt(w, i, p).Some? && ActiveAt(w, j, q).Some?
        && ActiveAt(w, i, p).value.cohort == ActiveAt(w, j, q).value.cohort
      ensures i == j && p == q
    {
      assert Truthful(w, i, p) && Truthful(w, j, q);
    }
  }

  /** Sockets are conserved too: an address is bound exactly while a live listener serves it, and no
      two listeners serve the same one. */
  lemma SocketsMatchListeners(policy: DrainPolicy, env: Env, ops: seq<Op>, k: Key)
    ensures var w := Run(Empty(policy), env, ops);
            k in w.host.bound <==>
              exists id: Id :: ActiveAt(w, id, k.proto).Some? && ActiveAt(w, id, k.proto).value.laddr == k.addr
                && ActiveAt(w, id, k.proto).value.cohort !in w.host.exited
  {
    hide Run;
    RunInv(policy, env, ops);
    var w := Run(Empty(policy), env, ops);
    if k in w.host.bound {
      assert Owned(w, k, {});
      var b := w.host.starts[w.host.bound[k]];
      assert Truthful(w, b.id, k.proto);
      assert ActiveAt(w, b.id, k.proto).value.laddr == k.addr;
    }
    if id: Id :| (ActiveAt(w, id, k.proto).Some? && ActiveAt(w, id, k.proto).value.laddr == k.addr
                  && ActiveAt(w, id, k.proto).value.cohort !in w.host.exited) {
      assert Truthful(w, id, k.proto);
    }
  }

  // ---------------------------------------------------------------- Running is honest

  /** A slot that says it is running has a listener and, with `d`, one with a listener has the digest of
      what the listener's endpoint was built from. */
  ghost predicate HonestSlot(s: Slot, d: bool) {
    (s.state == Running ==> s.active.Some?) && (d && s.active.Some? ==> s.material == s.endpoint.material)
  }

  ghost predicate Honest(w: World, d: bool) {
    forall id: Id, p :: SlotAt(w, id, p).Some? ==> HonestSlot(SlotAt(w, id, p).value, d)
  }

  lemma HonestAtSlot(w: World, w': World, id: Id, proto: Proto, d: bool)
    requires Honest(w, d) && AtSlot(w, w', id, proto)
    requires SlotAt(w', id, proto).Some? ==> HonestSlot(SlotAt(w', id, proto).value, d)
    ensures Honest(w', d)
  {
    forall i: Id, p | SlotAt(w', i, p).Some? ensures HonestSlot(SlotAt(w', i, p).value, d) {
      if i != id || p != proto { assert SlotAt(w, i, p) == SlotAt(w', i, p); }
    }
  }

  lemma RefreshSlotHonest(w: World, id: Id, proto: Proto, d: bool)
    requires Honest(w, d)
    ensures Honest(RefreshSlot(w, id, proto), d)
  {
    if SlotAt(w, id, proto).Some? {
      assert HonestSlot(SlotAt(w, id, proto).value, d);
      var w' := RefreshSlot(w, id, proto);
      assert HonestSlot(SlotAt(w', id, proto).value, d);
      forall i: Id, p | SlotAt(w', i, p).Some? ensures HonestSlot(SlotAt(w', i, p).value, d) {
        if i != id || p != proto { assert SlotAt(w, i, p) == SlotAt(w', i, p); }
      }
    }
  }

  lemma {:induction false} RefreshIdsHonest(w: World, ids: seq<Id>, d: bool)
    requires Honest(w, d)
    ensures Honest(RefreshIds(w, ids), d)
    decreases |ids|
  {
    hide Honest, RefreshSlot;
    if ids != [] {
      RefreshSlotHonest(w, ids[0], Tcp, d);
      RefreshSlotHonest(RefreshSlot(w, ids[0], Tcp), ids[0], Udp, d);
      RefreshIdsHonest(RefreshSlot(RefreshSlot(w, ids[0], Tcp), ids[0], Udp), ids[1..], d);
    }
  }

  lemma RefreshHonest(w: World, env: Env, d: bool)
    requires Honest(w, d)
    ensures Honest(Refresh(w, env), d)
  {
    assert Honest(Elapse(w, env), d) by {
      assert forall id: Id, p :: SlotAt(Elapse(w, env), id, p) == SlotAt(w, id, p);
    }
    hide Honest, RefreshIds;
    RefreshIdsHonest(Elapse(w, env), SortedKeys(Elapse(w, env).entries.Keys), d);
  }

  lemma ApplySlotHonest(w: World, env: Env, id: Id, generation: Generation, spec: Spec, proto: Proto,
                        drain: DrainPolicy, d: bool)
    requires Honest(w, d) && id in w.entries && (d ==> WellBuilt(spec))
    ensures var w' := ApplySlot(w, env, id, generation, spec, proto, drain).0;
            SlotAt(w', id, proto).Some? ==> HonestSlot(SlotAt(w', id, proto).value, d)
  {
    hide CanBind, Advance, SameShown, Unbind, Log;
    if SlotAt(w, id, proto).Some? { assert HonestSlot(SlotAt(w, id, proto).value, d); }
    if !AlreadyServes(w, id, spec, proto) && ActiveAt(w, id, proto).Some? {
      if ActiveAt(w, id, proto).value.laddr == spec.endpoint.laddr {
        hide MoveSlot, StartSlot;
      } else {
        hide ReplaceSlot, StartSlot;
      }
    } else {
      hide ReplaceSlot, MoveSlot;
    }
  }

  lemma ApplyProtoHonest(w: World, env: Env, id: Id, generation: Generation, spec: Spec, proto: Proto,
                         drain: DrainPolicy, d: bool)
    requires Honest(w, d) && id in w.entries && (d ==> WellBuilt(spec))
    ensures Honest(ApplyProto(w, env, id, generation, spec, proto, drain).0, d)
  {
    hide Honest, AtSlot, ApplySlot, StopSlot, HonestSlot;
    ApplyProtoFrame(w, env, id, generation, spec, proto, drain);
    var w' := ApplyProto(w, env, id, generation, spec, proto, drain).0;
    if Wants(spec, proto) {
      ApplySlotHonest(w, env, id, generation, spec, proto, drain, d);
      HonestAtSlot(w, w', id, proto, d);
    } else if SlotAt(w, id, proto).Some? {
      StopSlotHost(w, id, proto, drain.onDelete);
      HonestAtSlot(w, w', id, proto, d);
    }
  }

  lemma ShrinkHonest(w: World, w': World, d: bool)
    requires Honest(w, d) && forall id: Id, p :: SlotAt(w', id, p).Some? ==> SlotAt(w', id, p) == SlotAt(w, id, p)
    ensures Honest(w', d)
  {
  }

  lemma ApplyHonest(w: World, env: Env, id: Id, generation: Generation, spec: Spec, d: bool)
    requires Honest(w, d) && (d ==> WellBuilt(spec))
    ensures Honest(Apply(w, env, id, generation, spec).0, d)
  {
    hide Honest, Refresh, ApplyProto;
    RefreshHonest(w, env, d);
    if spec.tcp || spec.udp {
      var drain := PolicyOf(w, spec);
      var w1 := Refresh(w, env);
      var w2 := Upsert(w1, id, drain);
      ShrinkHonest(w1, w2, d);
      ApplyProtoHonest(w2, env, id, generation, spec, Tcp, drain, d);
      var w3 := ApplyProto(w2, env, id, generation, spec, Tcp, drain).0;
      ApplyProtoHonest(w3, env, id, generation, spec, Udp, drain, d);
      var w4 := ApplyProto(w3, env, id, generation, spec, Udp, drain).0;
      ShrinkHonest(w4, Prune(w4, id), d);
    }
  }

  lemma RemoveHonest(w: World, env: Env, id: Id, d: bool)
    requires Honest(w, d)
    ensures Honest(Remove(w, env, id).0, d)
  {
    hide Honest, Refresh, RemoveProto;
    RefreshHonest(w, env, d);
    var w1 := Refresh(w, env);
    if id in w1.entries {
      var deadline := w1.entries[id].drain.onDelete;
      RemoveProtoHonest(w1, id, Tcp, deadline, d);
      var w2 := RemoveProto(w1, id, Tcp, deadline).0;
      RemoveProtoHonest(w2, id, Udp, deadline, d);
      var w3 := RemoveProto(w2, id, Udp, deadline).0;
      ShrinkHonest(w3, w3.(entries := w3.entries - {id}), d);
    }
  }

  lemma RemoveProtoHonest(w: World, id: Id, proto: Proto, deadline: Deadline, d: bool)
    requires Honest(w, d)
    ensures Honest(RemoveProto(w, id, proto, deadline).0, d)
  {
    hide Honest;
    ShrinkHonest(w, RemoveProto(w, id, proto, deadline).0, d);
  }

  lemma StopAcceptHonest(w: World, id: Id, proto: Proto, deadline: Deadline, d: bool)
    requires Honest(w, d)
    ensures Honest(StopAccept(w, id, proto, deadline), d)
  {
    var w' := StopAccept(w, id, proto, deadline);
    forall i: Id, p | SlotAt(w', i, p).Some? ensures HonestSlot(SlotAt(w', i, p).value, d) {
      if i != id || p != proto || ActiveAt(w, id, proto).None? { assert SlotAt(w, i, p) == SlotAt(w', i, p); }
    }
  }

  lemma {:induction false} RunHonest(policy: DrainPolicy, env: Env, ops: seq<Op>, d: bool)
    requires d ==> WellBuiltOps(ops)
    ensures Honest(Run(Empty(policy), env, ops), d)
  {
    if ops != [] {
      hide Apply, Remove, StopAccept, Refresh, Honest;
      var n := |ops| - 1;
      RunHonest(policy, env, ops[..n], d);
      var w := Run(Empty(policy), env, ops[..n]);
      match ops[n] {
        case OpApply(id, generation, spec) => ApplyHonest(w, env, id, generation, spec, d);
        case OpRemove(id) => RemoveHonest(w, env, id, d);
        case OpStopAccept(id, proto, deadline) => StopAcceptHonest(w, id, proto, deadline, d);
        case OpStatus => RefreshHonest(w, env, d);
      }
    }
  }

  /** Slot truthfulness: in every reachable state a slot with a listener records exactly the endpoint and
      generation that listener was started from, and its material if the digests applied describe the
      endpoints they come with; and a slot that says it is running has one. */
  lemma SlotsAreTruthful(policy: DrainPolicy, env: Env, ops: seq<Op>, id: Id, proto: Proto)
    ensures var w := Run(Empty(policy), env, ops);
            SlotAt(w, id, proto).Some? ==>
              var slot := SlotAt(w, id, proto).value;
              && (slot.state == Running ==> slot.active.Some?)
              && (slot.active.Some? ==>
                    && slot.active.value.cohort < |w.host.starts|
                    && w.host.starts[slot.active.value.cohort] == Birth(id, proto, slot.endpoint, slot.generation)
                    && (WellBuiltOps(ops) ==> slot.material == slot.endpoint.material))
  {
    hide Run;
    RunInv(policy, env, ops);
    RunHonest(policy, env, ops, WellBuiltOps(ops));
    var w := Run(Empty(policy), env, ops);
    if SlotAt(w, id, proto).Some? {
      assert HonestSlot(SlotAt(w, id, proto).value, WellBuiltOps(ops));
      if ActiveAt(w, id, proto).Some? { assert Truthful(w, id, proto); }
    }
  }

  // ---------------------------------------------------------------- deadlines

  /** A drain task for the cohort of `a` was spawned under `deadline`. */
  ghost predicate DrainsUnder(h: Host, a: Active, deadline: Deadline) {
    Drain(a.cohort, a.generation, deadline) in h.drains
  }

  lemma DrainsStill(h: Host, h': Host, a: Active, deadline: Deadline)
    requires DrainsUnder(h, a, deadline) && Ages(h, h')
    ensures DrainsUnder(h', a, deadline)
  {
    var d := Drain(a.cohort, a.generation, deadline);
    var i :| 0 <= i < |h.drains| && h.drains[i] == d;
    assert h'.drains[i] == d;
  }

  lemma RefreshSlotDeadline(w: World, id: Id, proto: Proto)
    requires HasExited(w, id, proto)
    ensures DrainsUnder(RefreshSlot(w, id, proto).host, ActiveAt(w, id, proto).value, w.entries[id].drain.onDelete)
  {
    var d := Drain(ActiveAt(w, id, proto).value.cohort, ActiveAt(w, id, proto).value.generation,
                   w.entries[id].drain.onDelete);
    assert RefreshSlot(w, id, proto).host.drains == w.host.drains + [d];
  }

  /** A refresh takes a listener away only if its task exited, and then under the delete deadline. */
  lemma {:induction false} RefreshIdsDeadline(w: World, ids: seq<Id>, i: Id, p: Proto)
    requires ActiveAt(w, i, p).Some?
    ensures var w' := RefreshIds(w, ids);
            ActiveAt(w', i, p) == ActiveAt(w, i, p)
            || (HasExited(w, i, p) && DrainsUnder(w'.host, ActiveAt(w, i, p).value, w.entries[i].drain.onDelete))
    decreases |ids|
  {
    if ids != [] {
      var w1 := RefreshSlot(w, ids[0], Tcp);
      var w2 := RefreshSlot(w1, ids[0], Udp);
      RefreshStepDeadline(w, ids[0], Tcp, i, p);
      RefreshSlotFrame(w, ids[0], Tcp);
      RefreshSlotFrame(w1, ids[0], Udp);
      RefreshIdsFrame(w2, ids[1..]);
      var w' := RefreshIds(w2, ids[1..]);
      hide RefreshSlot, RefreshIds;
      assert Untouched(w, w1, i) && Untouched(w1, w2, i);
      if ActiveAt(w1, i, p) == ActiveAt(w, i, p) {
        RefreshStepDeadline(w1, ids[0], Udp, i, p);
        if ActiveAt(w2, i, p) == ActiveAt(w1, i, p) {
          RefreshIdsDeadline(w2, ids[1..], i, p);
        } else {
          DrainsStill(w2.host, w'.host, ActiveAt(w, i, p).value, w.entries[i].drain.onDelete);
        }
      } else {
        DrainsStill(w1.host, w2.host, ActiveAt(w, i, p).value, w.entries[i].drain.onDelete);
        DrainsStill(w2.host, w'.host, ActiveAt(w, i, p).value, w.entries[i].drain.onDelete);
      }
    }
  }

  lemma RefreshStepDeadline(w: World, id: Id, proto: Proto, i: Id, p: Proto)
    requires ActiveAt(w, i, p).Some?
    ensures var w' := RefreshSlot(w, id, proto);
            ActiveAt(w', i, p) == ActiveAt(w, i, p)
            || (HasExited(w, i, p) && DrainsUnder(w'.host, ActiveAt(w, i, p).value, w.entries[i].drain.onDelete))
  {
    if i == id && p == proto && HasExited(w, id, proto) { RefreshSlotDeadline(w, id, proto); }
  }

  lemma RefreshDeadline(w: World, env: Env, i: Id, p: Proto)
    requires ActiveAt(w, i, p).Some?
    ensures var w' := Refresh(w, env);
            ActiveAt(w', i, p) == ActiveAt(w, i, p)
            || (ActiveAt(w, i, p).value.cohort in w'.host.exited
                && DrainsUnder(w'.host, ActiveAt(w, i, p).value, w.entries[i].drain.onDelete))
  {
    RefreshFrame(w, env);
    var w1 := Elapse(w, env);
    RefreshIdsDeadline(w1, SortedKeys(w1.entries.Keys), i, p);
    hide RefreshIds, DrainsUnder;
  }

  lemma ApplySlotDeadline(w: World, env: Env, id: Id, generation: Generation, spec: Spec, proto: Proto,
                          drain: DrainPolicy)
    requires id in w.entries && ActiveAt(w, id, proto).Some?
    ensures var w' := ApplySlot(w, env, id, generation, spec, proto, drain).0;
            || ActiveAt(w', id, proto) == ActiveAt(w, id, proto)
            || DrainsUnder(w'.host, ActiveAt(w, id, proto).value, drain.onUpdate)
  {
    hide CanBind, Advance, SameShown, Unbind;
    var a := ActiveAt(w, id, proto).value;
    var w' := ApplySlot(w, env, id, generation, spec, proto, drain).0;
    if ActiveAt(w', id, proto) != ActiveAt(w, id, proto) {
      var n := |w'.host.drains| - 1;
      assert w'.host.drains[n] == Drain(a.cohort, a.generation, drain.onUpdate);
    }
  }

  lemma StopSlotDeadline(w: World, id: Id, proto: Proto, deadline: Deadline)
    requires ActiveAt(w, id, proto).Some?
    ensures DrainsUnder(StopSlot(w, id, proto, deadline).0.host, ActiveAt(w, id, proto).value, deadline)
  {
    var a := ActiveAt(w, id, proto).value;
    assert StopSlot(w, id, proto, deadline).0.host.drains == w.host.drains + [Drain(a.cohort, a.generation, deadline)];
  }

  lemma ApplyProtoDeadline(w: World, env: Env, id: Id, generation: Generation, spec: Spec, proto: Proto,
                           drain: DrainPolicy)
    requires id in w.entries && ActiveAt(w, id, proto).Some?
    ensures var w' := ApplyProto(w, env, id, generation, spec, proto, drain).0;
            ActiveAt(w', id, proto) == ActiveAt(w, id, proto)
            || DrainsUnder(w'.host, ActiveAt(w, id, proto).value,
                           if Wants(spec, proto) then drain.onUpdate else drain.onDelete)
  {
    hide ApplySlot, StopSlot;
    ApplySlotDeadline(w, env, id, generation, spec, proto, drain);
    StopSlotDeadline(w, id, proto, drain.onDelete);
  }

  /** The deadlines a spec asks for: its own, or those of the manager if it names none. */
  ghost function DeadlinesOf(spec: Spec, manager: DrainPolicy): (d: DrainPolicy)
    ensures forall own :: spec.drain == Some(own) ==> d.onUpdate == own.onUpdate && d.onDelete == own.onDelete
    ensures spec.drain == None ==> d.onUpdate == manager.onUpdate && d.onDelete == manager.onDelete
  {
    match spec.drain
    case Some(own) => own
    case None => manager
  }

  /** A cohort superseded by `apply` drains under the deadline that calls for it: the delete deadline of
      its own endpoint if its task had exited; otherwise it belonged to the endpoint applied, and drains
      under the update deadline of the new spec, or its delete deadline if the spec dropped the protocol. */
  lemma ApplyDeadline(w: World, env: Env, id: Id, generation: Generation, spec: Spec, i: Id, p: Proto)
    requires ActiveAt(w, i, p).Some?
    ensures var w' := Apply(w, env, id, generation, spec).0;
            var a := ActiveAt(w, i, p).value;
            ActiveAt(w', i, p) == Some(a)
            || (a.cohort in w'.host.exited && DrainsUnder(w'.host, a, w.entries[i].drain.onDelete))
            || (&& i == id
                && var deadlines := DeadlinesOf(spec, w.policy);
                   DrainsUnder(w'.host, a, if Wants(spec, p) then deadlines.onUpdate else deadlines.onDelete))
  {
    hide Refresh, ApplyProto, Apply, DrainsUnder;
    var a := ActiveAt(w, i, p).value;
    RefreshDeadline(w, env, i, p);
    ApplyShape(w, env, id, generation, spec);
    if spec.tcp || spec.udp {
      var w1 := Refresh(w, env);
      var drain := PolicyOf(w, spec);
      var w' := ApplyRefreshed(w1, env, id, generation, spec, drain);
      ApplyRefreshedFrame(w1, env, id, generation, spec, drain);
      if ActiveAt(w1, i, p) != Some(a) {
        DrainsStill(w1.host, w'.host, a, w.entries[i].drain.onDelete);
      } else if i == id {
        ApplyRefreshedDeadline(w1, env, id, generation, spec, drain, p);
      }
    }
  }

  /** What an endpoint is deleted under from now on, and what an exit drains under: the deadlines of the spec applied
      last that asked for a protocol. The deadlines of every other endpoint, and the manager's, stay. */
  lemma ApplyKeepsPolicy(w: World, env: Env, id: Id, generation: Generation, spec: Spec, i: Id)
    requires i in Apply(w, env, id, generation, spec).0.entries
    ensures var w' := Apply(w, env, id, generation, spec).0;
            && w'.policy == w.policy
            && if i == id && (spec.tcp || spec.udp) then w'.entries[i].drain == DeadlinesOf(spec, w.policy)
               else i in w.entries && w'.entries[i].drain == w.entries[i].drain
  {
    ApplyFrame(w, env, id, generation, spec);
    ApplyShape(w, env, id, generation, spec);
    RefreshFrame(w, env);
    var w1 := Refresh(w, env);
    assert Untouched(w, w1, i);
    hide Refresh, Apply;
    if i != id {
      assert Untouched(w, Apply(w, env, id, generation, spec).0, i);
    } else if spec.tcp || spec.udp {
      hide ApplyProto;
      var drain := PolicyOf(w, spec);
      var w2 := Upsert(w1, id, drain);
      var w3 := ApplyProto(w2, env, id, generation, spec, Tcp, drain).0;
      ApplyProtoFrame(w2, env, id, generation, spec, Tcp, drain);
      ApplyProtoFrame(w3, env, id, generation, spec, Udp, drain);
    }
  }

  lemma ApplyShape(w: World, env: Env, id: Id, generation: Generation, spec: Spec)
    ensures Apply(w, env, id, generation, spec).0 ==
      if spec.tcp || spec.udp then ApplyRefreshed(Refresh(w, env), env, id, generation, spec,
                                                  PolicyOf(w, spec)) else Refresh(w, env)
  {
    hide Refresh, ApplyProto;
  }

  lemma ApplyRefreshedDeadline(w: World, env: Env, id: Id, generation: Generation, spec: Spec, drain: DrainPolicy,
                               p: Proto)
    requires ActiveAt(w, id, p).Some?
    ensures var w' := ApplyRefreshed(w, env, id, generation, spec, drain);
            ActiveAt(w', id, p) == ActiveAt(w, id, p)
            || DrainsUnder(w'.host, ActiveAt(w, id, p).value, if Wants(spec, p) then drain.onUpdate else drain.onDelete)
  {
    hide ApplyProto, DrainsUnder, Prune;
    var a := ActiveAt(w, id, p).value;
    var deadline := if Wants(spec, p) then drain.onUpdate else drain.onDelete;
    var w2 := Upsert(w, id, drain);
    var w3 := ApplyProto(w2, env, id, generation, spec, Tcp, drain).0;
    var w4 := ApplyProto(w3, env, id, generation, spec, Udp, drain).0;
    ApplyProtoFrame(w2, env, id, generation, spec, Tcp, drain);
    ApplyProtoFrame(w3, env, id, generation, spec, Udp, drain);
    PruneActives(w4, id);
    if p == Tcp {
      ApplyProtoDeadline(w2, env, id, generation, spec, Tcp, drain);
      assert SlotAt(w4, id, Tcp) == SlotAt(w3, id, Tcp);
      if ActiveAt(w3, id, Tcp) != Some(a) { DrainsStill(w3.host, w4.host, a, deadline); }
    } else {
      assert p == Udp;
      assert SlotAt(w3, id, Udp) == SlotAt(w2, id, Udp);
      ApplyProtoDeadline(w3, env, id, generation, spec, Udp, drain);
    }
  }

  /** A cohort of a removed endpoint drains under that endpoint's delete deadline. */
  lemma RemoveDeadline(w: World, env: Env, id: Id, p: Proto)
    requires ActiveAt(w, id, p).Some?
    ensures DrainsUnder(Remove(w, env, id).0.host, ActiveAt(w, id, p).value, w.entries[id].drain.onDelete)
  {
    var a := ActiveAt(w, id, p).value;
    var deadline := w.entries[id].drain.onDelete;
    RefreshDeadline(w, env, id, p);
    RefreshFrame(w, env);
    var w1 := Refresh(w, env);
    assert Untouched(w, w1, id);
    hide Refresh;
    var w2 := RemoveProto(w1, id, Tcp, deadline).0;
    var w3 := RemoveProto(w2, id, Udp, deadline).0;
    RemoveProtoFrame(w1, id, Tcp, deadline);
    RemoveProtoFrame(w2, id, Udp, deadline);
    if ActiveAt(w1, id, p) != Some(a) {
      hide RemoveProto;
      DrainsStill(w1.host, w2.host, a, deadline);
      DrainsStill(w2.host, w3.host, a, deadline);
    } else if p == Tcp {
      StopSlotDeadline(w1, id, Tcp, deadline);
      hide RemoveProto;
      DrainsStill(w2.host, w3.host, a, deadline);
    } else {
      OtherSlotStays(w1, id, Tcp, Udp, deadline);
      StopSlotDeadline(w2, id, Udp, deadline);
    }
  }

  lemma OtherSlotStays(w: World, id: Id, proto: Proto, other: Proto, deadline: Deadline)
    requires other != proto
    ensures SlotAt(RemoveProto(w, id, proto, deadline).0, id, other) == SlotAt(w, id, other)
  {
  }

  /** Stopping ahead of time drains under the deadline the caller gives. */
  lemma StopAcceptDeadline(w: World, id: Id, proto: Proto, deadline: Deadline)
    requires ActiveAt(w, id, proto).Some?
    ensures DrainsUnder(StopAccept(w, id, proto, deadline).host, ActiveAt(w, id, proto).value, deadline)
  {
    var a := ActiveAt(w, id, proto).value;
    assert StopAccept(w, id, proto, deadline).host.drains == w.host.drains + [Drain(a.cohort, a.generation, deadline)];
  }
}
