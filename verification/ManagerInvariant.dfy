/** What every operation of the manager keeps: sockets, cohorts and slots agree. */
module ManagerInvariant {
  import opened Lifecycle
  import opened Manager

  /** The slot that cohort `c` was started for still holds it. */
  ghost predicate Holds(w: World, c: CohortId)
    requires c < |w.host.starts|
  {
    var s := w.host.starts[c];
    ActiveAt(w, s.id, s.proto).Some? && ActiveAt(w, s.id, s.proto).value.cohort == c
  }

  /** A slot with a listener records exactly what that listener was started from, and its socket is
      bound to it unless its task has exited. */
  ghost predicate Truthful(w: World, id: Id, proto: Proto)
    requires ActiveAt(w, id, proto).Some?
  {
    var slot := w.entries[id].slots[proto];
    var a := slot.active.value;
    && a.cohort < |w.host.starts|
    && w.host.starts[a.cohort] == Birth(id, proto, slot.endpoint, slot.generation)
    && a.generation == slot.generation
    && a.laddr == slot.endpoint.laddr
    && (|| a.cohort in w.host.exited
        || (Key(a.laddr, proto) in w.host.bound && w.host.bound[Key(a.laddr, proto)] == a.cohort))
  }

  /** A bound socket belongs to a cohort that was started on it and still runs. */
  ghost predicate Owned(w: World, k: Key, hand: set<CohortId>)
    requires k in w.host.bound
  {
    var c := w.host.bound[k];
    && c < |w.host.starts|
    && c !in w.host.exited
    && w.host.starts[c].proto == k.proto
    && w.host.starts[c].endpoint.laddr == k.addr
    && (c in hand || Holds(w, c))
  }

  /** The invariant, in the middle of an operation that has the cohorts `hand` in its hand: every
      cohort ever started is in a slot, in a drain task, or in the hand, and in one of them only. */
  ghost predicate Inv(w: World, hand: set<CohortId>) {
    && (forall id: Id, proto :: ActiveAt(w, id, proto).Some? ==> Truthful(w, id, proto))
    && (forall k :: k in w.host.bound ==> Owned(w, k, hand))
    && (forall c :: 0 <= c < |w.host.starts| ==> Holds(w, c) || IsDrained(w.host, c) || c in hand)
    && (forall c :: c in w.host.exited ==> c < |w.host.starts|)
    && (forall c :: c in hand ==> c < |w.host.starts| && !Holds(w, c) && !IsDrained(w.host, c))
    && (forall i :: 0 <= i < |w.host.drains| ==>
          w.host.drains[i].cohort < |w.host.starts| && !Holds(w, w.host.drains[i].cohort))
    && (forall i, j :: 0 <= i < j < |w.host.drains| ==> w.host.drains[i].cohort != w.host.drains[j].cohort)
  }

  // ---------------------------------------------------------------- primitive steps

  lemma ElapseInv(w: World, env: Env, hand: set<CohortId>)
    requires Inv(w, hand)
    ensures Inv(Elapse(w, env), hand)
  {
    var w' := Elapse(w, env);
    forall id: Id, proto | ActiveAt(w', id, proto).Some? ensures Truthful(w', id, proto) {
      assert Truthful(w, id, proto);
    }
    forall k | k in w'.host.bound ensures Owned(w', k, hand) {
      assert Owned(w, k, hand);
    }
    assert forall c :: 0 <= c < |w.host.starts| ==> Holds(w', c) == Holds(w, c);
    assert forall c :: IsDrained(w'.host, c) == IsDrained(w.host, c);
  }

  /** After a start the new cohort is in the hand, bound to its socket. */
  lemma LaunchInv(w: World, env: Env, id: Id, proto: Proto, endpoint: Endpoint, generation: Generation,
                  hand: set<CohortId>)
    requires Inv(w, hand)
    ensures var (w', a) := Launch(w, env, id, proto, endpoint, generation);
            match a
            case None => Inv(w', hand)
            case Some(a) =>
              && Inv(w', hand + {a.cohort})
              && a.cohort == |w.host.starts| == |w'.host.starts| - 1
              && w'.host.starts[a.cohort] == Birth(id, proto, endpoint, generation)
              && a.generation == generation && a.laddr == endpoint.laddr
              && Key(endpoint.laddr, proto) in w'.host.bound
              && w'.host.bound[Key(endpoint.laddr, proto)] == a.cohort
  {
    ElapseInv(w, env, hand);
    var w1 := Elapse(w, env);
    var (w', started) := Launch(w, env, id, proto, endpoint, generation);
    assert started.None? ==> w' == w1;
    if started.Some? {
      var born := w1.host.(starts := w1.host.starts + [Birth(id, proto, endpoint, generation)],
                           bound := w1.host.bound[Key(endpoint.laddr, proto) := |w1.host.starts|]);
      assert w' == w1.(host := born.(steps := w'.host.steps));
      hide Launch, Advance, Inv;
      StartedInv(w1, w', Key(endpoint.laddr, proto), Birth(id, proto, endpoint, generation), hand);
    }
  }

  lemma StartedInv(w: World, w': World, key: Key, birth: Birth, hand: set<CohortId>)
    requires Inv(w, hand) && birth.proto == key.proto && birth.endpoint.laddr == key.addr && key !in w.host.bound
    requires var born := w.host.(starts := w.host.starts + [birth], bound := w.host.bound[key := |w.host.starts|]);
             w' == w.(host := born.(steps := w'.host.steps))
    ensures Inv(w', hand + {|w.host.starts|})
  {
    var c := |w.host.starts|;
    forall i: Id, p | ActiveAt(w', i, p).Some? ensures Truthful(w', i, p) {
      assert Truthful(w, i, p);
    }
    StartedHolds(w, w', birth.id, birth.proto, hand);
    forall k | k in w'.host.bound ensures Owned(w', k, hand + {c}) {
      if k != key { assert Owned(w, k, hand); }
    }
    hide Owned, Truthful, Holds;
    assert forall x :: IsDrained(w'.host, x) == IsDrained(w.host, x);
  }

  /** A start adds a cohort that no slot holds yet. */
  lemma StartedHolds(w: World, w': World, id: Id, proto: Proto, hand: set<CohortId>)
    requires Inv(w, hand) && w'.entries == w.entries
    requires |w'.host.starts| == |w.host.starts| + 1 && w.host.starts <= w'.host.starts
    requires w'.host.starts[|w.host.starts|].id == id && w'.host.starts[|w.host.starts|].proto == proto
    ensures !Holds(w', |w.host.starts|)
    ensures forall x :: 0 <= x < |w.host.starts| ==> Holds(w', x) == Holds(w, x)
  {
    assert ActiveAt(w, id, proto).Some? ==> Truthful(w, id, proto);
  }

  /** Stopping a listener lets go of its cohort and of no other. */
  lemma HaltHolds(w: World, id: Id, proto: Proto, hand: set<CohortId>)
    requires Inv(w, hand) && ActiveAt(w, id, proto).Some?
    ensures var w' := Halt(w, id, proto);
            forall x :: 0 <= x < |w.host.starts| ==> (Holds(w', x) <==>
                  Holds(w, x) && x != ActiveAt(w, id, proto).value.cohort)
  {
    assert Truthful(w, id, proto);
  }

  /** Stopping a listener puts its cohort into the hand and frees its socket. */
  lemma HaltInv(w: World, id: Id, proto: Proto, hand: set<CohortId>)
    requires Inv(w, hand) && ActiveAt(w, id, proto).Some?
    ensures var c := ActiveAt(w, id, proto).value.cohort;
            var w' := Halt(w, id, proto);
            Inv(w', hand + {c}) && Unbound(w', c) && c !in hand
  {
    var c := ActiveAt(w, id, proto).value.cohort;
    var w' := Halt(w, id, proto);
    assert Truthful(w, id, proto);
    assert Holds(w, c);
    forall i: Id, p | ActiveAt(w', i, p).Some? ensures Truthful(w', i, p) {
      assert Truthful(w, i, p);
    }
    HaltHolds(w, id, proto, hand);
    forall k | k in w'.host.bound ensures Owned(w', k, hand + {c}) && w'.host.bound[k] != c {
      assert Owned(w, k, hand);
    }
    assert forall x :: IsDrained(w'.host, x) == IsDrained(w.host, x);
  }

  lemma VacateInv(w: World, id: Id, proto: Proto, hand: set<CohortId>)
    requires Inv(w, hand) && ActiveAt(w, id, proto).Some?
    ensures var c := ActiveAt(w, id, proto).value.cohort;
            var w' := Vacate(w, id, proto);
            Inv(w', hand + {c}) && Unbound(w', c) && c !in hand
  {
    HaltInv(w, id, proto, hand);
    LogIsFree(Halt(w, id, proto), Vacate(w, id, proto), hand + {ActiveAt(w, id, proto).value.cohort});
    hide Inv, Halt;
  }

  /** The invariant does not depend on what was logged. */
  lemma LogIsFree(w: World, w': World, hand: set<CohortId>)
    requires Inv(w, hand) && w' == w.(host := w.host.(steps := w'.host.steps))
    ensures Inv(w', hand)
  {
    forall i: Id, p | ActiveAt(w', i, p).Some? ensures Truthful(w', i, p) {
      assert Truthful(w, i, p);
    }
    forall k | k in w'.host.bound ensures Owned(w', k, hand) {
      assert Owned(w, k, hand);
    }
    assert forall x :: IsDrained(w'.host, x) == IsDrained(w.host, x);
    assert forall x :: 0 <= x < |w.host.starts| ==> Holds(w', x) == Holds(w, x);
  }

  ghost predicate Unbound(w: World, c: CohortId) {
    forall k :: k in w.host.bound ==> w.host.bound[k] != c
  }

  /** Rewriting a slot without touching its listener, endpoint or generation. */
  ghost predicate SameListener(a: Slot, b: Slot) {
    a.active == b.active && (a.active.Some? ==> a.endpoint == b.endpoint && a.generation == b.generation)
  }

  lemma SetSlotInv(w: World, id: Id, proto: Proto, slot: Slot, hand: set<CohortId>)
    requires Inv(w, hand) && id in w.entries
    requires match SlotAt(w, id, proto) case None => slot.active.None? case Some(s) => SameListener(s, slot)
    ensures Inv(SetSlot(w, id, proto, slot), hand)
  {
    var w' := SetSlot(w, id, proto, slot);
    forall i: Id, p | ActiveAt(w', i, p).Some? ensures Truthful(w', i, p) {
      assert Truthful(w, i, p);
    }
    assert forall x :: 0 <= x < |w.host.starts| ==> Holds(w', x) == Holds(w, x);
    forall k | k in w'.host.bound ensures Owned(w', k, hand) {
      assert Owned(w, k, hand);
    }
  }

  /** Putting a started cohort from the hand into an idle slot. */
  lemma InstallInv(w: World, id: Id, proto: Proto, slot: Slot, hand: set<CohortId>)
    requires Inv(w, hand) && id in w.entries && ActiveAt(w, id, proto).None?
    requires slot.active.Some? && slot.active.value.cohort in hand
    requires Truthful(SetSlot(w, id, proto, slot), id, proto)
    ensures Inv(SetSlot(w, id, proto, slot), hand - {slot.active.value.cohort})
  {
    var c := slot.active.value.cohort;
    var w' := SetSlot(w, id, proto, slot);
    forall i: Id, p | ActiveAt(w', i, p).Some? ensures Truthful(w', i, p) {
      if i != id || p != proto { assert Truthful(w, i, p); }
    }
    assert forall x :: 0 <= x < |w.host.starts| ==> (Holds(w', x) <==> Holds(w, x) || x == c);
    forall k | k in w'.host.bound ensures Owned(w', k, hand - {c}) {
      assert Owned(w, k, hand);
    }
  }

  /** Handing a stopped cohort from the hand to a drain task. */
  lemma SpawnDrainInv(w: World, id: Id, proto: Proto, drain: Drain, hand: set<CohortId>)
    requires Inv(w, hand) && SlotAt(w, id, proto).Some?
    requires drain.cohort in hand && Unbound(w, drain.cohort)
    ensures Inv(SpawnDrain(w, id, proto, drain), hand - {drain.cohort})
  {
    var c := drain.cohort;
    var w' := SpawnDrain(w, id, proto, drain);
    forall i: Id, p | ActiveAt(w', i, p).Some? ensures Truthful(w', i, p) {
      assert Truthful(w, i, p);
    }
    assert forall x :: 0 <= x < |w.host.starts| ==> Holds(w', x) == Holds(w, x);
    var n := |w.host.drains|;
    assert w'.host.drains[n] == drain;
    forall x | IsDrained(w'.host, x) ensures IsDrained(w.host, x) || x == c {
      var i :| 0 <= i < |w'.host.drains| && w'.host.drains[i].cohort == x;
      if i < n { assert w.host.drains[i].cohort == x; }
    }
    forall x | IsDrained(w.host, x) ensures IsDrained(w'.host, x) {
      var i :| 0 <= i < n && w.host.drains[i].cohort == x;
      assert w'.host.drains[i].cohort == x;
    }
    assert IsDrained(w'.host, c);
    forall k | k in w'.host.bound ensures Owned(w', k, hand - {c}) {
      assert Owned(w, k, hand);
    }
    forall i | 0 <= i < n ensures w.host.drains[i].cohort != c {
      assert w.host.drains[i].cohort == c ==> IsDrained(w.host, c);
    }
  }

  // ---------------------------------------------------------------- operations on one slot

  lemma ReapInv(w: World, id: Id, proto: Proto)
    requires Inv(w, {}) && HasExited(w, id, proto)
    ensures Inv(Reap(w, id, proto), {})
  {
    var a := ActiveAt(w, id, proto).value;
    var d := Drain(a.cohort, a.generation, w.entries[id].drain.onDelete);
    HaltInv(w, id, proto, {});
    assert {} + {a.cohort} == {a.cohort};
    var w1 := Halt(w, id, proto);
    SpawnDrainInv(w1, id, proto, d, {a.cohort});
    assert {a.cohort} - {a.cohort} == {};
    var w2 := SpawnDrain(w1, id, proto, d);
    SetSlotInv(w2, id, proto, w2.entries[id].slots[proto].(state := SlotState.Failed), {});
  }

  lemma RefreshSlotInv(w: World, id: Id, proto: Proto)
    requires Inv(w, {})
    ensures Inv(RefreshSlot(w, id, proto), {})
  {
    if SlotAt(w, id, proto).Some? {
      if HasExited(w, id, proto) { ReapInv(w, id, proto); }
      var w1 := if HasExited(w, id, proto) then Reap(w, id, proto) else w;
      var slot := w1.entries[id].slots[proto];
      SetSlotInv(w1, id, proto, slot.(draining := Unfinished(slot.draining, w1.host.finished)), {});
    }
  }

  lemma {:induction false} RefreshIdsInv(w: World, ids: seq<Id>)
    requires Inv(w, {})
    ensures Inv(RefreshIds(w, ids), {})
    decreases |ids|
  {
    hide Inv, RefreshSlot;
    if ids != [] {
      RefreshSlotInv(w, ids[0], Tcp);
      RefreshSlotInv(RefreshSlot(w, ids[0], Tcp), ids[0], Udp);
      RefreshIdsInv(RefreshSlot(RefreshSlot(w, ids[0], Tcp), ids[0], Udp), ids[1..]);
    }
  }

  lemma RefreshInv(w: World, env: Env)
    requires Inv(w, {})
    ensures Inv(Refresh(w, env), {})
  {
    hide Inv, RefreshIds, Elapse, SortedKeys;
    ElapseInv(w, env, {});
    RefreshIdsInv(Elapse(w, env), SortedKeys(Elapse(w, env).entries.Keys));
  }

  lemma StartSlotInv(w: World, env: Env, id: Id, generation: Generation, spec: Spec, proto: Proto)
    requires Inv(w, {}) && id in w.entries && ActiveAt(w, id, proto).None?
    ensures Inv(StartSlot(w, env, id, generation, spec, proto).0, {})
  {
    LaunchInv(w, env, id, proto, spec.endpoint, generation, {});
    var (w1, started) := Launch(w, env, id, proto, spec.endpoint, generation);
    assert ActiveAt(w1, id, proto).None?;
    var kept := if SlotAt(w1, id, proto).Some? then SlotAt(w1, id, proto).value.draining else [];
    match started {
      case Some(a) =>
        var slot := Slot(Running, generation, spec.endpoint, spec.material, Some(a), kept);
        assert kept + [] == kept;
        assert {} + {a.cohort} == {a.cohort} && {a.cohort} - {a.cohort} == {};
        InstallInv(w1, id, proto, slot, {a.cohort});
      case None =>
        assert kept + [] == kept;
        SetSlotInv(w1, id, proto, Slot(SlotState.Failed, generation, spec.endpoint, spec.material, None, kept), {});
    }
  }

  lemma ReplaceSlotInv(w: World, env: Env, id: Id, generation: Generation, spec: Spec, proto: Proto, drain: DrainPolicy)
    requires Inv(w, {}) && ActiveAt(w, id, proto).Some?
    ensures Inv(ReplaceSlot(w, env, id, generation, spec, proto, drain).0, {})
  {
    var slot := w.entries[id].slots[proto];
    var prev := slot.active.value;
    assert Truthful(w, id, proto);
    VacateInv(w, id, proto, {});
    assert {} + {prev.cohort} == {prev.cohort};
    var w1 := Vacate(w, id, proto);
    LaunchInv(w1, env, id, proto, spec.endpoint, generation, {prev.cohort});
    var (w2, started) := Launch(w1, env, id, proto, spec.endpoint, generation);
    match started {
      case Some(a) =>
        SettleInv(w2, id, proto, Install(w2, id, proto, a, spec.endpoint, spec.material).entries[id].slots[proto],
                  Drain(prev.cohort, prev.generation, drain.onUpdate));
      case None => FallBackInv(w2, env, id, proto, Drain(prev.cohort, prev.generation, drain.onUpdate));
    }
  }

  lemma FallBackInv(w: World, env: Env, id: Id, proto: Proto, superseded: Drain)
    requires Inv(w, {superseded.cohort}) && Unbound(w, superseded.cohort)
    requires SlotAt(w, id, proto).Some? && ActiveAt(w, id, proto).None?
    requires SlotAt(w, id, proto).value.generation == superseded.generation
    ensures Inv(FallBack(w, env, id, proto, SlotAt(w, id, proto).value.endpoint, superseded), {})
  {
    var slot := w.entries[id].slots[proto];
    var c := superseded.cohort;
    LaunchInv(w, env, id, proto, slot.endpoint, superseded.generation, {c});
    var (w', restored) := Launch(w, env, id, proto, slot.endpoint, superseded.generation);
    var slot' := w'.entries[id].slots[proto].(active := restored, state := SlotState.Failed);
    if restored.Some? {
      SettleInv(w', id, proto, slot', superseded);
    } else {
      SetSlotInv(w', id, proto, slot', {c});
      SpawnDrainInv(SetSlot(w', id, proto, slot'), id, proto, superseded, {c});
      assert {c} - {c} == {};
    }
  }

  /** The end of a replacement: the new cohort goes into the slot, the old one to a drain. */
  lemma SettleInv(w: World, id: Id, proto: Proto, slot: Slot, drain: Drain)
    requires slot.active.Some? && slot.active.value.cohort != drain.cohort
    requires Inv(w, {drain.cohort} + {slot.active.value.cohort})
    requires SlotAt(w, id, proto).Some? && ActiveAt(w, id, proto).None?
    requires Truthful(SetSlot(w, id, proto, slot), id, proto)
    requires Unbound(w, drain.cohort)
    ensures Inv(SpawnDrain(SetSlot(w, id, proto, slot), id, proto, drain), {})
  {
    var c := slot.active.value.cohort;
    InstallInv(w, id, proto, slot, {drain.cohort} + {c});
    assert {drain.cohort} + {c} - {c} == {drain.cohort};
    SpawnDrainInv(SetSlot(w, id, proto, slot), id, proto, drain, {drain.cohort});
    assert {drain.cohort} - {drain.cohort} == {};
  }

  lemma MoveSlotInv(w: World, env: Env, id: Id, generation: Generation, spec: Spec, proto: Proto, drain: DrainPolicy)
    requires Inv(w, {}) && ActiveAt(w, id, proto).Some?
    requires ActiveAt(w, id, proto).value.laddr != spec.endpoint.laddr
    ensures Inv(MoveSlot(w, env, id, generation, spec, proto, drain).0, {})
  {
    var prev := ActiveAt(w, id, proto).value;
    LaunchInv(w, env, id, proto, spec.endpoint, generation, {});
    var (w1, started) := Launch(w, env, id, proto, spec.endpoint, generation);
    match started {
      case Some(a) =>
        assert {} + {a.cohort} == {a.cohort};
        HaltInv(w1, id, proto, {a.cohort});
        assert {a.cohort} + {prev.cohort} == {prev.cohort} + {a.cohort};
        var w2 := Halt(w1, id, proto);
        SettleInv(w2, id, proto, Install(w2, id, proto, a, spec.endpoint, spec.material).entries[id].slots[proto],
                  Drain(prev.cohort, prev.generation, drain.onUpdate));
      case None =>
        SetSlotInv(w1, id, proto, w1.entries[id].slots[proto].(state := SlotState.Failed), {});
    }
  }

  lemma ApplySlotInv(w: World, env: Env, id: Id, generation: Generation, spec: Spec, proto: Proto, drain: DrainPolicy)
    requires Inv(w, {}) && id in w.entries
    ensures Inv(ApplySlot(w, env, id, generation, spec, proto, drain).0, {})
  {
    hide Inv, StartSlot, ReplaceSlot, MoveSlot;
    if !AlreadyServes(w, id, spec, proto) {
      match ActiveAt(w, id, proto) {
        case None => StartSlotInv(w, env, id, generation, spec, proto);
        case Some(a) =>
          if a.laddr == spec.endpoint.laddr {
            ReplaceSlotInv(w, env, id, generation, spec, proto, drain);
          } else {
            MoveSlotInv(w, env, id, generation, spec, proto, drain);
          }
      }
    }
  }

  lemma DropIdleInv(w: World, w': World)
    requires Inv(w, {}) && w'.host == w.host
    requires forall id: Id, p :: ActiveAt(w', id, p) == ActiveAt(w, id, p)
    requires forall id: Id, p :: ActiveAt(w', id, p).Some? ==> w'.entries[id].slots[p] == w.entries[id].slots[p]
    ensures Inv(w', {})
  {
    forall i: Id, p | ActiveAt(w', i, p).Some? ensures Truthful(w', i, p) {
      assert Truthful(w, i, p);
    }
    assert forall x :: 0 <= x < |w.host.starts| ==> Holds(w', x) == Holds(w, x);
    forall k | k in w'.host.bound ensures Owned(w', k, {}) {
      assert Owned(w, k, {});
    }
  }

  lemma RetireInv(w: World, id: Id, proto: Proto, deadline: Deadline)
    requires Inv(w, {}) && ActiveAt(w, id, proto).Some?
    ensures var a := ActiveAt(w, id, proto).value;
            Inv(SpawnDrain(Halt(w, id, proto), id, proto, Drain(a.cohort, a.generation, deadline)), {})
  {
    var a := ActiveAt(w, id, proto).value;
    HaltInv(w, id, proto, {});
    assert {} + {a.cohort} == {a.cohort} && {a.cohort} - {a.cohort} == {};
    SpawnDrainInv(Halt(w, id, proto), id, proto, Drain(a.cohort, a.generation, deadline), {a.cohort});
  }

  lemma StopSlotInv(w: World, id: Id, proto: Proto, deadline: Deadline)
    requires Inv(w, {})
    ensures Inv(StopSlot(w, id, proto, deadline).0, {})
  {
    hide Inv, Unbind, Log;
    if SlotAt(w, id, proto).Some? {
      var w1 := w;
      if ActiveAt(w, id, proto).Some? {
        RetireInv(w, id, proto, deadline);
        var a := ActiveAt(w, id, proto).value;
        w1 := SpawnDrain(Halt(w, id, proto), id, proto, Drain(a.cohort, a.generation, deadline));
      }
      DropIdleInv(w1, DropSlot(w1, id, proto));
    }
  }

  lemma StopAcceptInv(w: World, id: Id, proto: Proto, deadline: Deadline)
    requires Inv(w, {})
    ensures Inv(StopAccept(w, id, proto, deadline), {})
  {
    if ActiveAt(w, id, proto).Some? {
      RetireInv(w, id, proto, deadline);
      var a := ActiveAt(w, id, proto).value;
      var w1 := SpawnDrain(Halt(w, id, proto), id, proto, Drain(a.cohort, a.generation, deadline));
      SetSlotInv(w1, id, proto, w1.entries[id].slots[proto].(state := SlotState.Draining), {});
    }
  }

  // ---------------------------------------------------------------- operations on one endpoint

  lemma ApplyProtoInv(w: World, env: Env, id: Id, generation: Generation, spec: Spec, proto: Proto, drain: DrainPolicy)
    requires Inv(w, {}) && id in w.entries
    ensures Inv(ApplyProto(w, env, id, generation, spec, proto, drain).0, {})
  {
    hide Inv, ApplySlot, StopSlot;
    ApplySlotInv(w, env, id, generation, spec, proto, drain);
    StopSlotInv(w, id, proto, drain.onDelete);
  }

  lemma ApplyInv(w: World, env: Env, id: Id, generation: Generation, spec: Spec)
    requires Inv(w, {})
    ensures Inv(Apply(w, env, id, generation, spec).0, {})
  {
    hide Refresh, ApplyProto, Prune, Inv;
    RefreshInv(w, env);
    if spec.tcp || spec.udp {
      var w1 := Refresh(w, env);
      var drain := PolicyOf(w, spec);
      UpsertInv(w1, id, drain);
      var w2 := Upsert(w1, id, drain);
      ApplyProtoInv(w2, env, id, generation, spec, Tcp, drain);
      var w3 := ApplyProto(w2, env, id, generation, spec, Tcp, drain).0;
      ApplyProtoInv(w3, env, id, generation, spec, Udp, drain);
      PruneInv(ApplyProto(w3, env, id, generation, spec, Udp, drain).0, id);
    }
  }

  lemma UpsertInv(w: World, id: Id, drain: DrainPolicy)
    requires Inv(w, {})
    ensures Inv(Upsert(w, id, drain), {})
  {
    DropIdleInv(w, Upsert(w, id, drain));
  }

  lemma PruneInv(w: World, id: Id)
    requires Inv(w, {})
    ensures Inv(Prune(w, id), {})
  {
    if id in w.entries {
      var e := w.entries[id];
      var kept := map p | p in e.slots && KeepsSlot(e.slots[p]) :: e.slots[p];
      assert forall p :: p in e.slots && e.slots[p].active.Some? ==> p in kept;
    }
    DropIdleInv(w, Prune(w, id));
  }

  lemma RemoveInv(w: World, env: Env, id: Id)
    requires Inv(w, {})
    ensures Inv(Remove(w, env, id).0, {})
  {
    hide Refresh, RemoveProto;
    RefreshInv(w, env);
    var w1 := Refresh(w, env);
    if id in w1.entries {
      var deadline := w1.entries[id].drain.onDelete;
      RemoveProtoInv(w1, id, Tcp, deadline);
      var w2 := RemoveProto(w1, id, Tcp, deadline).0;
      RemoveProtoInv(w2, id, Udp, deadline);
      ForgetInv(RemoveProto(w2, id, Udp, deadline).0, id);
    }
  }

  lemma ForgetInv(w: World, id: Id)
    requires Inv(w, {}) && SlotAt(w, id, Tcp).None? && SlotAt(w, id, Udp).None?
    ensures Inv(w.(entries := w.entries - {id}), {})
  {
    var w' := w.(entries := w.entries - {id});
    forall i: Id, p: Proto ensures ActiveAt(w', i, p) == ActiveAt(w, i, p) {
      assert p == Tcp || p == Udp;
    }
    DropIdleInv(w, w');
  }

  lemma RemoveProtoInv(w: World, id: Id, proto: Proto, deadline: Deadline)
    requires Inv(w, {})
    ensures Inv(RemoveProto(w, id, proto, deadline).0, {})
    ensures SlotAt(RemoveProto(w, id, proto, deadline).0, id, proto).None?
    ensures forall p :: p != proto ==> SlotAt(RemoveProto(w, id, proto, deadline).0, id, p) == SlotAt(w, id, p)
  {
    StopSlotInv(w, id, proto, deadline);
  }
}
