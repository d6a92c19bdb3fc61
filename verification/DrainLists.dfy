/** What a slot lists as draining: the drains spawned for its own listeners, all of them, until they have finished
    or the slot is dropped. */
module DrainLists {
  import opened Lifecycle
  import opened Manager
  import opened ManagerInvariant
  import opened ManagerFrame
  import ManagerRuns

  /** `d` is the drain of a listener that was started for the slot. */
  ghost predicate IsOf(h: Host, d: Drain, id: Id, proto: Proto) {
    && d in h.drains && d.cohort < |h.starts|
    && h.starts[d.cohort].id == id && h.starts[d.cohort].proto == proto
  }

  ghost predicate ListsOwn(h: Host, slot: Slot, id: Id, proto: Proto) {
    forall d :: d in slot.draining ==> IsOf(h, d, id, proto)
  }

  ghost predicate Listed(w: World) {
    forall id: Id, p :: SlotAt(w, id, p).Some? ==> ListsOwn(w.host, SlotAt(w, id, p).value, id, p)
  }

  /** What was spawned between two hosts. */
  ghost function Spawned(h: Host, h': Host): seq<Drain>
    requires |h.drains| <= |h'.drains|
  {
    h'.drains[|h.drains|..]
  }

  ghost function DrainingAt(w: World, id: Id, proto: Proto): seq<Drain> {
    if SlotAt(w, id, proto).Some? then SlotAt(w, id, proto).value.draining else []
  }

  /** An operation on a slot that keeps it: whatever it spawns is added to the list, and is the drain of the
      listener the slot had. */
  ghost predicate Adds(w: World, w': World, id: Id, proto: Proto) {
    && w.host.drains <= w'.host.drains && w.host.starts <= w'.host.starts && SlotAt(w', id, proto).Some?
    && DrainingAt(w', id, proto) == DrainingAt(w, id, proto) + Spawned(w.host, w'.host)
    && forall d :: d in Spawned(w.host, w'.host) ==>
         ActiveAt(w, id, proto).Some? && d.cohort == ActiveAt(w, id, proto).value.cohort
  }

  // ---------------------------------------------------------------- one slot

  lemma RetireAdds(w: World, id: Id, proto: Proto, deadline: Deadline)
    requires ActiveAt(w, id, proto).Some?
    ensures var a := ActiveAt(w, id, proto).value;
            Adds(w, SpawnDrain(Halt(w, id, proto), id, proto, Drain(a.cohort, a.generation, deadline)), id, proto)
  {
    var a := ActiveAt(w, id, proto).value;
    var d := Drain(a.cohort, a.generation, deadline);
    assert Spawned(w.host, SpawnDrain(Halt(w, id, proto), id, proto, d).host) == [d];
  }

  /** A start spawns nothing. */
  lemma LaunchAdds(w: World, env: Env, id: Id, proto: Proto, endpoint: Endpoint, generation: Generation)
    ensures var w' := Launch(w, env, id, proto, endpoint, generation).0;
            w'.entries == w.entries && w'.host.drains == w.host.drains && w.host.starts <= w'.host.starts
  {
  }

  lemma HaltAdds(w: World, id: Id, proto: Proto)
    requires ActiveAt(w, id, proto).Some?
    ensures var h := Halt(w, id, proto).host; h.drains == w.host.drains && h.starts == w.host.starts
  {
  }

  lemma StartAdds(w: World, env: Env, id: Id, generation: Generation, spec: Spec, proto: Proto)
    requires id in w.entries
    ensures Adds(w, StartSlot(w, env, id, generation, spec, proto).0, id, proto)
  {
    LaunchAdds(w, env, id, proto, spec.endpoint, generation);
    hide Launch;
    assert Spawned(w.host, StartSlot(w, env, id, generation, spec, proto).0.host) == [];
  }

  lemma ReplaceAdds(w: World, env: Env, id: Id, generation: Generation, spec: Spec, proto: Proto, drain: DrainPolicy)
    requires ActiveAt(w, id, proto).Some?
    ensures Adds(w, ReplaceSlot(w, env, id, generation, spec, proto, drain).0, id, proto)
  {
    var slot := w.entries[id].slots[proto];
    var prev := slot.active.value;
    var superseded := Drain(prev.cohort, prev.generation, drain.onUpdate);
    var w1 := Vacate(w, id, proto);
    HaltAdds(w, id, proto);
    LaunchAdds(w1, env, id, proto, spec.endpoint, generation);
    var (w2, started) := Launch(w1, env, id, proto, spec.endpoint, generation);
    match started {
      case Some(a) =>
        hide Launch, SpawnDrain, Unbind, Adds, Log;
        SpawnAdds(w, Install(w2, id, proto, a, spec.endpoint, spec.material), id, proto, superseded);
      case None =>
        LaunchAdds(w2, env, id, proto, slot.endpoint, prev.generation);
        hide Launch, SpawnDrain, Unbind, Adds, Log;
        var (w3, restored) := Launch(w2, env, id, proto, slot.endpoint, prev.generation);
        var w4 := SetSlot(w3, id, proto, w3.entries[id].slots[proto].(active := restored, state := SlotState.Failed));
        SpawnAdds(w, w4, id, proto, superseded);
    }
  }

  /** A drain spawned for the listener a slot had, by an operation that has not touched its list. */
  lemma SpawnAdds(w: World, w': World, id: Id, proto: Proto, d: Drain)
    requires ActiveAt(w, id, proto).Some? && d.cohort == ActiveAt(w, id, proto).value.cohort
    requires w'.host.drains == w.host.drains && w.host.starts <= w'.host.starts && SlotAt(w', id, proto).Some?
    requires DrainingAt(w', id, proto) == DrainingAt(w, id, proto)
    ensures Adds(w, SpawnDrain(w', id, proto, d), id, proto)
  {
    assert Spawned(w.host, SpawnDrain(w', id, proto, d).host) == [d];
  }

  lemma MoveAdds(w: World, env: Env, id: Id, generation: Generation, spec: Spec, proto: Proto, drain: DrainPolicy)
    requires ActiveAt(w, id, proto).Some?
    ensures Adds(w, MoveSlot(w, env, id, generation, spec, proto, drain).0, id, proto)
  {
    var prev := ActiveAt(w, id, proto).value;
    LaunchAdds(w, env, id, proto, spec.endpoint, generation);
    var (w1, started) := Launch(w, env, id, proto, spec.endpoint, generation);
    match started {
      case Some(a) =>
        HaltAdds(w1, id, proto);
        hide Launch, SpawnDrain, Unbind, Adds, Log;
        SpawnAdds(w, Install(Halt(w1, id, proto), id, proto, a, spec.endpoint, spec.material), id, proto,
                  Drain(prev.cohort, prev.generation, drain.onUpdate));
      case None =>
        hide Launch;
        assert Spawned(w.host, w1.host) == [];
    }
  }

  /** Whatever happens to a slot, every drain it causes is listed in it. */
  lemma ApplySlotAdds(w: World, env: Env, id: Id, generation: Generation, spec: Spec, proto: Proto, drain: DrainPolicy)
    requires id in w.entries
    ensures Adds(w, ApplySlot(w, env, id, generation, spec, proto, drain).0, id, proto)
  {
    hide StartSlot, ReplaceSlot, MoveSlot;
    if AlreadyServes(w, id, spec, proto) {
      assert Spawned(w.host, w.host) == [];
    } else {
      match ActiveAt(w, id, proto) {
        case None => StartAdds(w, env, id, generation, spec, proto);
        case Some(a) =>
          ReplaceAdds(w, env, id, generation, spec, proto, drain);
          MoveAdds(w, env, id, generation, spec, proto, drain);
      }
    }
  }

  lemma {:induction false} UnfinishedIn(ds: seq<Drain>, finished: set<CohortId>, d: Drain)
    ensures d in Unfinished(ds, finished) <==> d in ds && d.cohort !in finished
    decreases |ds|
  {
    if ds != [] {
      UnfinishedIn(ds[1..], finished, d);
    }
  }

  /** A refresh adds what it spawns and takes out exactly what has finished. */
  lemma RefreshSlotLists(w: World, id: Id, proto: Proto)
    requires SlotAt(w, id, proto).Some?
    ensures var w' := RefreshSlot(w, id, proto);
            && w.host.drains <= w'.host.drains && w'.host.starts == w.host.starts
            && DrainingAt(w', id, proto) == Unfinished(DrainingAt(w, id, proto) + Spawned(w.host, w'.host),
                                                       w'.host.finished)
            && forall d :: d in Spawned(w.host, w'.host) ==>
                 ActiveAt(w, id, proto).Some? && d.cohort == ActiveAt(w, id, proto).value.cohort
  {
    if HasExited(w, id, proto) {
      RetireAdds(w, id, proto, w.entries[id].drain.onDelete);
    } else {
      assert Spawned(w.host, w.host) == [] && DrainingAt(w, id, proto) + [] == DrainingAt(w, id, proto);
    }
  }

  // ---------------------------------------------------------------- all slots

  lemma OwnStays(h: Host, h': Host, slot: Slot, id: Id, proto: Proto)
    requires ListsOwn(h, slot, id, proto) && h.drains <= h'.drains && h.starts <= h'.starts
    ensures ListsOwn(h', slot, id, proto)
  {
    forall d | d in slot.draining ensures IsOf(h', d, id, proto) {
      assert IsOf(h, d, id, proto);
      var i :| 0 <= i < |h.drains| && h.drains[i] == d;
      assert h'.drains[i] == d;
    }
  }

  /** A slot whose list consists of what it had and of drains of its own listener. */
  lemma ListedAtSlot(w: World, w': World, id: Id, proto: Proto)
    requires Inv(w, {}) && Listed(w) && AtSlot(w, w', id, proto)
    requires forall d :: d in DrainingAt(w', id, proto) ==>
               || d in DrainingAt(w, id, proto)
               || (d in w'.host.drains && ActiveAt(w, id, proto).Some?
                   && d.cohort == ActiveAt(w, id, proto).value.cohort)
    ensures Listed(w')
  {
    assert ActiveAt(w, id, proto).Some? ==> Truthful(w, id, proto);
    hide Inv;
    forall i: Id, p | SlotAt(w', i, p).Some? ensures ListsOwn(w'.host, SlotAt(w', i, p).value, i, p) {
      if i == id && p == proto {
        if SlotAt(w, id, proto).Some? { OwnStays(w.host, w'.host, SlotAt(w, id, proto).value, id, proto); }
      } else {
        assert SlotAt(w', i, p) == SlotAt(w, i, p);
        OwnStays(w.host, w'.host, SlotAt(w, i, p).value, i, p);
      }
    }
  }

  lemma AddsListed(w: World, w': World, id: Id, proto: Proto)
    requires Inv(w, {}) && Listed(w) && AtSlot(w, w', id, proto) && Adds(w, w', id, proto)
    ensures Listed(w')
  {
    hide Inv, Listed;
    forall d | d in DrainingAt(w', id, proto)
      ensures d in DrainingAt(w, id, proto) || (d in Spawned(w.host, w'.host) && d in w'.host.drains)
    {
    }
    ListedAtSlot(w, w', id, proto);
  }

  lemma RefreshSlotListed(w: World, id: Id, proto: Proto)
    requires Inv(w, {}) && Listed(w)
    ensures Listed(RefreshSlot(w, id, proto))
  {
    if SlotAt(w, id, proto).Some? {
      hide Inv, Listed, Reap;
      var w' := RefreshSlot(w, id, proto);
      RefreshSlotLists(w, id, proto);
      RefreshSlotAtSlot(w, id, proto);
      forall d | d in DrainingAt(w', id, proto)
        ensures d in DrainingAt(w, id, proto) || (d in Spawned(w.host, w'.host) && d in w'.host.drains)
      {
        UnfinishedIn(DrainingAt(w, id, proto) + Spawned(w.host, w'.host), w'.host.finished, d);
      }
      hide RefreshSlot;
      ListedAtSlot(w, w', id, proto);
    }
  }

  lemma RefreshSlotAtSlot(w: World, id: Id, proto: Proto)
    requires SlotAt(w, id, proto).Some?
    ensures AtSlot(w, RefreshSlot(w, id, proto), id, proto)
  {
    if HasExited(w, id, proto) {
      ReapFrame(w, id, proto);
    }
    hide Reap;
  }

  /** Slots that go or stay as they are. */
  lemma FewerListed(w: World, w': World)
    requires Listed(w) && w.host.drains <= w'.host.drains && w.host.starts <= w'.host.starts
    requires forall id: Id, p :: SlotAt(w', id, p).Some? ==> SlotAt(w', id, p) == SlotAt(w, id, p)
    ensures Listed(w')
  {
    forall id: Id, p | SlotAt(w', id, p).Some? ensures ListsOwn(w'.host, SlotAt(w', id, p).value, id, p) {
      OwnStays(w.host, w'.host, SlotAt(w, id, p).value, id, p);
    }
  }

  lemma {:induction false} RefreshIdsListed(w: World, ids: seq<Id>)
    requires Inv(w, {}) && Listed(w)
    ensures Listed(RefreshIds(w, ids))
    decreases |ids|
  {
    hide Inv, Listed, RefreshSlot;
    if ids != [] {
      var w1 := RefreshSlot(w, ids[0], Tcp);
      RefreshSlotInv(w, ids[0], Tcp);
      RefreshSlotListed(w, ids[0], Tcp);
      RefreshSlotInv(w1, ids[0], Udp);
      RefreshSlotListed(w1, ids[0], Udp);
      RefreshIdsListed(RefreshSlot(w1, ids[0], Udp), ids[1..]);
    }
  }

  lemma RefreshListed(w: World, env: Env)
    requires Inv(w, {}) && Listed(w)
    ensures Listed(Refresh(w, env))
  {
    var w1 := Elapse(w, env);
    assert forall id: Id, p :: SlotAt(w1, id, p) == SlotAt(w, id, p);
    hide Inv, Listed, RefreshIds, SortedKeys;
    FewerListed(w, w1);
    ElapseInv(w, env, {});
    RefreshIdsListed(w1, SortedKeys(w1.entries.Keys));
  }

  lemma StopSlotListed(w: World, id: Id, proto: Proto, deadline: Deadline)
    requires Listed(w) && id in w.entries
    ensures Listed(StopSlot(w, id, proto, deadline).0)
  {
    var w' := StopSlot(w, id, proto, deadline).0;
    StopSlotFrame(w, id, proto, deadline);
    StopSlotHost(w, id, proto, deadline);
    hide StopSlot, Listed;
    forall i: Id, p | SlotAt(w', i, p).Some? ensures SlotAt(w', i, p) == SlotAt(w, i, p) {
      if i == id { assert p != proto; }
    }
    FewerListed(w, w');
  }

  lemma ApplyProtoListed(w: World, env: Env, id: Id, generation: Generation, spec: Spec, proto: Proto,
                         drain: DrainPolicy)
    requires Inv(w, {}) && Listed(w) && id in w.entries
    ensures Listed(ApplyProto(w, env, id, generation, spec, proto, drain).0)
  {
    hide Inv, Listed, ApplySlot, StopSlot, AtSlot, Adds;
    if Wants(spec, proto) {
      ApplySlotFrame(w, env, id, generation, spec, proto, drain);
      ApplySlotAdds(w, env, id, generation, spec, proto, drain);
      AddsListed(w, ApplySlot(w, env, id, generation, spec, proto, drain).0, id, proto);
    } else {
      StopSlotListed(w, id, proto, drain.onDelete);
    }
  }

  lemma ApplyListed(w: World, env: Env, id: Id, generation: Generation, spec: Spec)
    requires Inv(w, {}) && Listed(w)
    ensures Listed(Apply(w, env, id, generation, spec).0)
  {
    hide Inv, Listed, Refresh, ApplyProto;
    RefreshInv(w, env);
    RefreshListed(w, env);
    if spec.tcp || spec.udp {
      var drain := PolicyOf(w, spec);
      var w1 := Refresh(w, env);
      UpsertInv(w1, id, drain);
      var w2 := Upsert(w1, id, drain);
      FewerListed(w1, w2);
      ApplyProtoInv(w2, env, id, generation, spec, Tcp, drain);
      ApplyProtoListed(w2, env, id, generation, spec, Tcp, drain);
      var w3 := ApplyProto(w2, env, id, generation, spec, Tcp, drain).0;
      ApplyProtoListed(w3, env, id, generation, spec, Udp, drain);
      var w4 := ApplyProto(w3, env, id, generation, spec, Udp, drain).0;
      FewerListed(w4, Prune(w4, id));
    }
  }

  lemma RemoveListed(w: World, env: Env, id: Id)
    requires Inv(w, {}) && Listed(w)
    ensures Listed(Remove(w, env, id).0)
  {
    hide Inv, Listed, Refresh, StopSlot;
    RefreshListed(w, env);
    var w1 := Refresh(w, env);
    if id in w1.entries {
      var deadline := w1.entries[id].drain.onDelete;
      StopSlotListed(w1, id, Tcp, deadline);
      StopSlotFrame(w1, id, Tcp, deadline);
      var w2 := RemoveProto(w1, id, Tcp, deadline).0;
      StopSlotListed(w2, id, Udp, deadline);
      var w3 := RemoveProto(w2, id, Udp, deadline).0;
      FewerListed(w3, w3.(entries := w3.entries - {id}));
    }
  }

  lemma StopAcceptListed(w: World, id: Id, proto: Proto, deadline: Deadline)
    requires Inv(w, {}) && Listed(w)
    ensures Listed(StopAccept(w, id, proto, deadline))
  {
    if ActiveAt(w, id, proto).Some? {
      RetireAdds(w, id, proto, deadline);
      HaltFrame(w, id, proto);
      var a := ActiveAt(w, id, proto).value;
      var w1 := Halt(w, id, proto);
      var d := Drain(a.cohort, a.generation, deadline);
      SpawnDrainFrame(w1, id, proto, d);
      var w2 := SpawnDrain(w1, id, proto, d);
      SetSlotFrame(w2, id, proto, w2.entries[id].slots[proto].(state := SlotState.Draining));
      AtSlotTrans(w, w1, w2, id, proto);
      AtSlotTrans(w, w2, StopAccept(w, id, proto, deadline), id, proto);
      hide Inv, Listed, Halt, AtSlot;
      AddsListed(w, StopAccept(w, id, proto, deadline), id, proto);
    }
  }

  /** In every reachable state a slot lists only drains that were spawned, each for a listener started for that
      very slot. */
  lemma {:induction false} DrainsAreListedWhereTheyBelong(policy: DrainPolicy, env: Env, ops: seq<ManagerRuns.Op>)
    ensures Listed(ManagerRuns.Run(Empty(policy), env, ops))
  {
    if ops != [] {
      hide Apply, Remove, StopAccept, Refresh, Inv, Listed;
      var n := |ops| - 1;
      DrainsAreListedWhereTheyBelong(policy, env, ops[..n]);
      ManagerRuns.RunInv(policy, env, ops[..n]);
      var w := ManagerRuns.Run(Empty(policy), env, ops[..n]);
      match ops[n] {
        case OpApply(id, generation, spec) => ApplyListed(w, env, id, generation, spec);
        case OpRemove(id) => RemoveListed(w, env, id);
        case OpStopAccept(id, proto, deadline) => StopAcceptListed(w, id, proto, deadline);
        case OpStatus => RefreshListed(w, env);
      }
    }
  }
}
