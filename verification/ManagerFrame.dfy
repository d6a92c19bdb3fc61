/** What an operation on one endpoint leaves alone. */
module ManagerFrame {
  import opened Lifecycle
  import opened Manager

  /** Histories only grow. */
  ghost predicate Ages(h: Host, h': Host) {
    && h.exited <= h'.exited && h.finished <= h'.finished
    && h.starts <= h'.starts && h.drains <= h'.drains
    && h.tick <= h'.tick
  }

  /** None of the tasks of a slot has ended. */
  ghost predicate Quiet(s: Slot, h: Host) {
    && (s.active.Some? ==> s.active.value.cohort !in h.exited)
    && forall i :: 0 <= i < |s.draining| ==> s.draining[i].cohort !in h.finished
  }

  /** `ds'` is `ds` without some of the drains that have finished. */
  ghost predicate Thinned(ds: seq<Drain>, ds': seq<Drain>, finished: set<CohortId>)
    decreases |ds|
  {
    if ds == [] then ds' == []
    else
      || (ds' != [] && ds'[0] == ds[0] && Thinned(ds[1..], ds'[1..], finished))
      || (ds[0].cohort in finished && Thinned(ds[1..], ds', finished))
  }

  /** The slot was not operated on. It has the listener it had, and the drains that have not finished; or the
      task of its listener exited, and then it is failed and drains that listener too, under `deadline`.
      While its tasks run it is the same slot. */
  ghost predicate WeatheredSlot(s: Slot, s': Slot, deadline: Deadline, h: Host) {
    && s'.endpoint == s.endpoint && s'.material == s.material && s'.generation == s.generation
    && (if s'.active == s.active then s'.state == s.state && Thinned(s.draining, s'.draining, h.finished)
        else
          && s'.active.None? && s.active.value.cohort in h.exited && s'.state == SlotState.Failed
          && Thinned(s.draining + [Drain(s.active.value.cohort, s.active.value.generation, deadline)], s'.draining,
                     h.finished))
    && (Quiet(s, h) ==> s' == s)
  }

  ghost predicate Weathered(e: Entry, e': Entry, h: Host) {
    && e'.drain == e.drain
    && e'.slots.Keys == e.slots.Keys
    && forall p :: p in e.slots ==> WeatheredSlot(e.slots[p], e'.slots[p], e.drain.onDelete, h)
  }

  /** Endpoint `i` was not operated on between the two worlds. */
  ghost predicate Untouched(w: World, w': World, i: Id) {
    && (i in w.entries <==> i in w'.entries)
    && (i in w.entries ==> Weathered(w.entries[i], w'.entries[i], w'.host))
  }

  /** Only endpoint `id` was operated on. */
  ghost predicate Only(w: World, w': World, id: Id) {
    && w'.policy == w.policy && Ages(w.host, w'.host)
    && forall i: Id :: i != id ==> Untouched(w, w', i)
  }

  ghost predicate Nothing(w: World, w': World) {
    && w'.policy == w.policy && Ages(w.host, w'.host)
    && forall i: Id :: Untouched(w, w', i)
  }

  /** Same as `Only`, without the passing of time. */
  ghost predicate Locally(w: World, w': World, id: Id) {
    && w'.policy == w.policy && Ages(w.host, w'.host)
    && forall i: Id :: i != id ==> (i in w.entries <==> i in w'.entries) && (i in w.entries ==>
          w'.entries[i] == w.entries[i])
  }

  lemma {:induction false} ThinnedSelf(ds: seq<Drain>, finished: set<CohortId>)
    ensures Thinned(ds, ds, finished)
    decreases |ds|
  {
    if ds != [] {
      ThinnedSelf(ds[1..], finished);
    }
  }

  lemma {:induction false} ThinnedUnfinished(ds: seq<Drain>, finished: set<CohortId>)
    ensures Thinned(ds, Unfinished(ds, finished), finished)
    decreases |ds|
  {
    if ds != [] {
      ThinnedUnfinished(ds[1..], finished);
      assert ds[0].cohort !in finished ==> Unfinished(ds, finished)[1..] == Unfinished(ds[1..], finished);
      assert ds[0].cohort in finished ==> Unfinished(ds, finished) == Unfinished(ds[1..], finished);
    }
  }

  lemma {:induction false} ThinnedTrans(a: seq<Drain>, b: seq<Drain>, c: seq<Drain>, before: set<CohortId>,
                                        after: set<CohortId>)
    requires Thinned(a, b, before) && Thinned(b, c, after) && before <= after
    ensures Thinned(a, c, after)
    decreases |a|
  {
    if a != [] {
      if b != [] && b[0] == a[0] && Thinned(a[1..], b[1..], before) {
        if c != [] && c[0] == b[0] && Thinned(b[1..], c[1..], after) {
          ThinnedTrans(a[1..], b[1..], c[1..], before, after);
        } else {
          ThinnedTrans(a[1..], b[1..], c, before, after);
        }
      } else {
        ThinnedTrans(a[1..], b, c, before, after);
      }
    }
  }

  lemma {:induction false} ThinnedMore(a: seq<Drain>, b: seq<Drain>, d: Drain, finished: set<CohortId>)
    requires Thinned(a, b, finished)
    ensures Thinned(a + [d], b + [d], finished)
    decreases |a|
  {
    if a == [] {
      ThinnedSelf([d], finished);
      assert a + [d] == [d] && b + [d] == [d];
    } else {
      assert (a + [d])[1..] == a[1..] + [d];
      if b != [] && b[0] == a[0] && Thinned(a[1..], b[1..], finished) {
        ThinnedMore(a[1..], b[1..], d, finished);
        assert (b + [d])[1..] == b[1..] + [d];
      } else {
        ThinnedMore(a[1..], b, d, finished);
      }
    }
  }

  lemma WeatheredSlotSelf(s: Slot, deadline: Deadline, h: Host)
    ensures WeatheredSlot(s, s, deadline, h)
  {
    ThinnedSelf(s.draining, h.finished);
  }

  lemma WeatheredSlotTrans(s: Slot, s1: Slot, s2: Slot, deadline: Deadline, h1: Host, h2: Host)
    requires WeatheredSlot(s, s1, deadline, h1) && WeatheredSlot(s1, s2, deadline, h2) && Ages(h1, h2)
    ensures WeatheredSlot(s, s2, deadline, h2)
  {
    hide Thinned;
    if s1.active == s.active {
      if s2.active == s1.active {
        ThinnedTrans(s.draining, s1.draining, s2.draining, h1.finished, h2.finished);
      } else {
        var d := Drain(s.active.value.cohort, s.active.value.generation, deadline);
        ThinnedMore(s.draining, s1.draining, d, h1.finished);
        ThinnedTrans(s.draining + [d], s1.draining + [d], s2.draining, h1.finished, h2.finished);
      }
    } else {
      var d := Drain(s.active.value.cohort, s.active.value.generation, deadline);
      ThinnedTrans(s.draining + [d], s1.draining, s2.draining, h1.finished, h2.finished);
    }
  }

  lemma WeatheredSelf(e: Entry, h: Host)
    ensures Weathered(e, e, h)
  {
    forall p | p in e.slots ensures WeatheredSlot(e.slots[p], e.slots[p], e.drain.onDelete, h) {
      WeatheredSlotSelf(e.slots[p], e.drain.onDelete, h);
    }
  }

  lemma WeatheredTrans(e: Entry, e1: Entry, e2: Entry, h1: Host, h2: Host)
    requires Weathered(e, e1, h1) && Weathered(e1, e2, h2) && Ages(h1, h2)
    ensures Weathered(e, e2, h2)
  {
    hide WeatheredSlot;
    forall p | p in e.slots ensures WeatheredSlot(e.slots[p], e2.slots[p], e.drain.onDelete, h2) {
      WeatheredSlotTrans(e.slots[p], e1.slots[p], e2.slots[p], e.drain.onDelete, h1, h2);
    }
  }

  lemma UntouchedTrans(w: World, w1: World, w2: World, i: Id)
    requires Untouched(w, w1, i) && Untouched(w1, w2, i) && Ages(w1.host, w2.host)
    ensures Untouched(w, w2, i)
  {
    if i in w.entries { WeatheredTrans(w.entries[i], w1.entries[i], w2.entries[i], w1.host, w2.host); }
  }

  lemma OnlyTrans(w: World, w1: World, w2: World, id: Id)
    requires Only(w, w1, id) && Only(w1, w2, id)
    ensures Only(w, w2, id)
  {
    forall i: Id | i != id ensures Untouched(w, w2, i) { UntouchedTrans(w, w1, w2, i); }
  }

  lemma LocallyIsOnly(w: World, w': World, id: Id)
    requires Locally(w, w', id)
    ensures Only(w, w', id)
  {
    forall i: Id | i != id ensures Untouched(w, w', i) {
      if i in w.entries { WeatheredSelf(w.entries[i], w'.host); }
    }
  }

  // ---------------------------------------------------------------- refresh

  lemma {:induction false} UnfinishedAll(ds: seq<Drain>, finished: set<CohortId>)
    requires forall i :: 0 <= i < |ds| ==> ds[i].cohort !in finished
    ensures Unfinished(ds, finished) == ds
  {
    if ds != [] {
      UnfinishedAll(ds[1..], finished);
      assert ds == [ds[0]] + ds[1..];
    }
  }

  ghost predicate SameTime(h: Host, h': Host) {
    h'.exited == h.exited && h'.finished == h.finished && h'.tick == h.tick
  }

  lemma ReapFrame(w: World, id: Id, proto: Proto)
    requires HasExited(w, id, proto)
    ensures var w' := Reap(w, id, proto);
            && AtSlot(w, w', id, proto) && SameTime(w.host, w'.host)
            && SlotAt(w', id, proto).Some?
            && var s, s' := w.entries[id].slots[proto], w'.entries[id].slots[proto];
               var a := s.active.value;
               s' == s.(active := None, state := SlotState.Failed,
                        draining := s.draining + [Drain(a.cohort, a.generation, w.entries[id].drain.onDelete)])
  {
  }

  /** Refreshing leaves the slots of every other endpoint and protocol as they are. */
  lemma RefreshSlotFrame(w: World, id: Id, proto: Proto)
    ensures Nothing(w, RefreshSlot(w, id, proto)) && SameTime(w.host, RefreshSlot(w, id, proto).host)
  {
    var w' := RefreshSlot(w, id, proto);
    forall i: Id ensures Untouched(w, w', i) {
      if i in w.entries && (i != id || SlotAt(w, id, proto).None?) {
        WeatheredSelf(w.entries[i], w'.host);
      } else if i in w.entries {
        forall p | p in w.entries[id].slots
          ensures p in w'.entries[id].slots
               && WeatheredSlot(w.entries[id].slots[p], w'.entries[id].slots[p], w.entries[id].drain.onDelete, w'.host)
        {
          if p == proto {
            RefreshedSlot(w, id, proto);
          } else {
            WeatheredSlotSelf(w.entries[id].slots[p], w.entries[id].drain.onDelete, w'.host);
          }
        }
      }
    }
  }

  lemma RefreshedSlot(w: World, id: Id, proto: Proto)
    requires SlotAt(w, id, proto).Some?
    ensures var w' := RefreshSlot(w, id, proto);
            && SlotAt(w', id, proto).Some?
            && WeatheredSlot(w.entries[id].slots[proto], w'.entries[id].slots[proto], w.entries[id].drain.onDelete,
                             w'.host)
  {
    var s := w.entries[id].slots[proto];
    if HasExited(w, id, proto) {
      ReapFrame(w, id, proto);
    }
    hide Reap, Thinned;
    var slot := (if HasExited(w, id, proto) then Reap(w, id, proto) else w).entries[id].slots[proto];
    ThinnedUnfinished(slot.draining, w.host.finished);
    if Quiet(s, w.host) {
      UnfinishedAll(s.draining, w.host.finished);
    }
  }

  lemma NothingTrans(w: World, w1: World, w2: World)
    requires Nothing(w, w1) && Nothing(w1, w2)
    ensures Nothing(w, w2)
  {
    forall i: Id ensures Untouched(w, w2, i) { UntouchedTrans(w, w1, w2, i); }
  }

  lemma {:induction false} RefreshIdsFrame(w: World, ids: seq<Id>)
    ensures Nothing(w, RefreshIds(w, ids))
    ensures SameTime(w.host, RefreshIds(w, ids).host)
    decreases |ids|
  {
    if ids == [] {
      forall i: Id | i in w.entries ensures Weathered(w.entries[i], w.entries[i], w.host) {
        WeatheredSelf(w.entries[i], w.host);
      }
    } else {
      hide RefreshSlot, Nothing;
      var w1 := RefreshSlot(w, ids[0], Tcp);
      var w2 := RefreshSlot(w1, ids[0], Udp);
      RefreshSlotFrame(w, ids[0], Tcp);
      RefreshSlotFrame(w1, ids[0], Udp);
      RefreshIdsFrame(w2, ids[1..]);
      NothingTrans(w, w1, w2);
      NothingTrans(w, w2, RefreshIds(w2, ids[1..]));
    }
  }

  lemma RefreshFrame(w: World, env: Env)
    ensures Nothing(w, Refresh(w, env))
    ensures SameTime(Elapse(w, env).host, Refresh(w, env).host)
  {
    var w1 := Elapse(w, env);
    assert Nothing(w, w1) by {
      forall i: Id | i in w.entries ensures Weathered(w.entries[i], w1.entries[i], w1.host) {
        WeatheredSelf(w.entries[i], w1.host);
      }
    }
    RefreshIdsFrame(w1, SortedKeys(w1.entries.Keys));
    hide RefreshIds, Elapse, Nothing, SortedKeys;
    NothingTrans(w, w1, RefreshIds(w1, SortedKeys(w1.entries.Keys)));
  }

  // ---------------------------------------------------------------- operations

  /** Only the slot `(id, proto)` was operated on. */
  ghost predicate AtSlot(w: World, w': World, id: Id, proto: Proto) {
    && Locally(w, w', id)
    && id in w.entries && id in w'.entries
    && w'.entries[id].drain == w.entries[id].drain
    && forall p :: p != proto ==> SlotAt(w', id, p) == SlotAt(w, id, p)
  }

  lemma LaunchFrame(w: World, env: Env, id: Id, proto: Proto, endpoint: Endpoint, generation: Generation)
    ensures var w' := Launch(w, env, id, proto, endpoint, generation).0;
            w'.entries == w.entries && w'.policy == w.policy && Ages(w.host, w'.host)
  {
  }

  lemma HaltFrame(w: World, id: Id, proto: Proto)
    requires ActiveAt(w, id, proto).Some?
    ensures AtSlot(w, Halt(w, id, proto), id, proto)
  {
  }

  lemma VacateFrame(w: World, id: Id, proto: Proto)
    requires ActiveAt(w, id, proto).Some?
    ensures AtSlot(w, Vacate(w, id, proto), id, proto)
  {
    HaltFrame(w, id, proto);
    hide Halt;
  }

  lemma SetSlotFrame(w: World, id: Id, proto: Proto, slot: Slot)
    requires id in w.entries
    ensures AtSlot(w, SetSlot(w, id, proto, slot), id, proto)
  {
  }

  lemma SpawnDrainFrame(w: World, id: Id, proto: Proto, drain: Drain)
    requires SlotAt(w, id, proto).Some?
    ensures AtSlot(w, SpawnDrain(w, id, proto, drain), id, proto)
  {
  }

  lemma AtSlotTrans(w: World, w1: World, w2: World, id: Id, proto: Proto)
    requires AtSlot(w, w1, id, proto) && AtSlot(w1, w2, id, proto)
    ensures AtSlot(w, w2, id, proto)
  {
  }

  lemma StartSlotFrame(w: World, env: Env, id: Id, generation: Generation, spec: Spec, proto: Proto)
    requires id in w.entries
    ensures AtSlot(w, StartSlot(w, env, id, generation, spec, proto).0, id, proto)
  {
    LaunchFrame(w, env, id, proto, spec.endpoint, generation);
    var w1 := Launch(w, env, id, proto, spec.endpoint, generation).0;
    hide Launch;
    assert AtSlot(w, w1, id, proto);
    var w' := StartSlot(w, env, id, generation, spec, proto).0;
    assert AtSlot(w1, w', id, proto);
    AtSlotTrans(w, w1, w', id, proto);
  }

  lemma SettleFrame(w: World, id: Id, proto: Proto, slot: Slot, drain: Drain)
    requires id in w.entries
    ensures AtSlot(w, SpawnDrain(SetSlot(w, id, proto, slot), id, proto, drain), id, proto)
  {
    var w1 := SetSlot(w, id, proto, slot);
    SetSlotFrame(w, id, proto, slot);
    SpawnDrainFrame(w1, id, proto, drain);
    AtSlotTrans(w, w1, SpawnDrain(w1, id, proto, drain), id, proto);
  }

  lemma ReplaceSlotFrame(w: World, env: Env, id: Id, generation: Generation, spec: Spec, proto: Proto,
                         drain: DrainPolicy)
    requires ActiveAt(w, id, proto).Some?
    ensures AtSlot(w, ReplaceSlot(w, env, id, generation, spec, proto, drain).0, id, proto)
  {
    var slot := w.entries[id].slots[proto];
    var prev := slot.active.value;
    var superseded := Drain(prev.cohort, prev.generation, drain.onUpdate);
    VacateFrame(w, id, proto);
    var w1 := Vacate(w, id, proto);
    LaunchFrame(w1, env, id, proto, spec.endpoint, generation);
    var (w2, started) := Launch(w1, env, id, proto, spec.endpoint, generation);
    LaunchFrame(w2, env, id, proto, slot.endpoint, prev.generation);
    var (w3, restored) := Launch(w2, env, id, proto, slot.endpoint, prev.generation);
    assert AtSlot(w1, w2, id, proto) && AtSlot(w2, w3, id, proto);
    AtSlotTrans(w, w1, w2, id, proto);
    AtSlotTrans(w, w2, w3, id, proto);
    hide Launch, Vacate, AtSlot;
    var w' := ReplaceSlot(w, env, id, generation, spec, proto, drain).0;
    if started.Some? {
      var installed := Install(w2, id, proto, started.value, spec.endpoint, spec.material).entries[id].slots[proto];
      SettleFrame(w2, id, proto, installed, superseded);
      AtSlotTrans(w, w2, w', id, proto);
    } else {
      SettleFrame(w3, id, proto, w3.entries[id].slots[proto].(active := restored, state := SlotState.Failed),
                  superseded);
      AtSlotTrans(w, w3, w', id, proto);
    }
  }

  lemma MoveSlotFrame(w: World, env: Env, id: Id, generation: Generation, spec: Spec, proto: Proto, drain: DrainPolicy)
    requires ActiveAt(w, id, proto).Some?
    ensures AtSlot(w, MoveSlot(w, env, id, generation, spec, proto, drain).0, id, proto)
  {
    var prev := ActiveAt(w, id, proto).value;
    LaunchFrame(w, env, id, proto, spec.endpoint, generation);
    var (w1, started) := Launch(w, env, id, proto, spec.endpoint, generation);
    assert AtSlot(w, w1, id, proto);
    HaltFrame(w1, id, proto);
    var w2 := Halt(w1, id, proto);
    AtSlotTrans(w, w1, w2, id, proto);
    hide Launch, AtSlot;
    var w' := MoveSlot(w, env, id, generation, spec, proto, drain).0;
    if started.Some? {
      var installed := Install(w2, id, proto, started.value, spec.endpoint, spec.material).entries[id].slots[proto];
      SettleFrame(w2, id, proto, installed, Drain(prev.cohort, prev.generation, drain.onUpdate));
      AtSlotTrans(w, w2, w', id, proto);
    } else {
      SetSlotFrame(w1, id, proto, w1.entries[id].slots[proto].(state := SlotState.Failed));
      AtSlotTrans(w, w1, w', id, proto);
    }
  }

  lemma StopSlotFrame(w: World, id: Id, proto: Proto, deadline: Deadline)
    requires id in w.entries
    ensures AtSlot(w, StopSlot(w, id, proto, deadline).0, id, proto)
  {
  }

  /** The slot of a listener that was replaced at its own address: it runs the new endpoint, or it has failed and has
      the old one again, if that could be started; either way what was stopped drains. */
  lemma ReplacedSlot(w: World, env: Env, id: Id, generation: Generation, spec: Spec, proto: Proto, drain: DrainPolicy)
    requires ActiveAt(w, id, proto).Some?
    ensures var (w', o) := ReplaceSlot(w, env, id, generation, spec, proto, drain);
            var slot := w.entries[id].slots[proto];
            var prev := slot.active.value;
            && SlotAt(w', id, proto).Some?
            && var slot' := w'.entries[id].slots[proto];
               && slot'.draining == slot.draining + [Drain(prev.cohort, prev.generation, drain.onUpdate)]
               && (|| (&& o == Ok(proto, Updated) && slot'.active.Some?
                       && slot'.active.value.generation == generation
                       && slot'.active.value.laddr == spec.endpoint.laddr
                       && slot' == Slot(Running, generation, spec.endpoint, spec.material, slot'.active,
                                        slot'.draining))
                   || (&& o == Refused(proto)
                       && slot' == slot.(state := SlotState.Failed, active := slot'.active, draining := slot'.draining)
                       && (slot'.active.Some? ==>
                             && slot'.active.value.generation == prev.generation
                             && slot'.active.value.laddr == slot.endpoint.laddr)))
  {
    var slot := w.entries[id].slots[proto];
    var w1 := Vacate(w, id, proto);
    assert w1.entries == SetSlot(w, id, proto, slot.(active := None)).entries;
    var (w2, started) := Launch(w1, env, id, proto, spec.endpoint, generation);
    assert started.Some? ==> started.value.generation == generation && started.value.laddr == spec.endpoint.laddr;
    if started.None? {
      var restored := Launch(w2, env, id, proto, slot.endpoint, slot.active.value.generation).1;
      assert restored.Some? ==> restored.value.generation == slot.active.value.generation
                                && restored.value.laddr == slot.endpoint.laddr;
    }
    hide Vacate, Launch, Log;
  }

  lemma ApplySlotFrame(w: World, env: Env, id: Id, generation: Generation, spec: Spec, proto: Proto, drain: DrainPolicy)
    requires id in w.entries
    ensures AtSlot(w, ApplySlot(w, env, id, generation, spec, proto, drain).0, id, proto)
  {
    assert AtSlot(w, w, id, proto);
    hide AtSlot, StartSlot, ReplaceSlot, MoveSlot;
    if AlreadyServes(w, id, spec, proto) {
    } else if ActiveAt(w, id, proto).None? {
      StartSlotFrame(w, env, id, generation, spec, proto);
    } else if ActiveAt(w, id, proto).value.laddr == spec.endpoint.laddr {
      ReplaceSlotFrame(w, env, id, generation, spec, proto, drain);
    } else {
      MoveSlotFrame(w, env, id, generation, spec, proto, drain);
    }
  }

  lemma ApplyProtoFrame(w: World, env: Env, id: Id, generation: Generation, spec: Spec, proto: Proto,
                        drain: DrainPolicy)
    requires id in w.entries
    ensures AtSlot(w, ApplyProto(w, env, id, generation, spec, proto, drain).0, id, proto)
  {
    assert AtSlot(w, w, id, proto);
    hide AtSlot, ApplySlot, StopSlot;
    StopSlotFrame(w, id, proto, drain.onDelete);
    ApplySlotFrame(w, env, id, generation, spec, proto, drain);
  }

  /** `apply` after its refresh. */
  function ApplyRefreshed(w: World, env: Env, id: Id, generation: Generation, spec: Spec, drain: DrainPolicy): World {
    var w3 := ApplyProto(Upsert(w, id, drain), env, id, generation, spec, Tcp, drain).0;
    Prune(ApplyProto(w3, env, id, generation, spec, Udp, drain).0, id)
  }

  lemma ApplyRefreshedFrame(w: World, env: Env, id: Id, generation: Generation, spec: Spec, drain: DrainPolicy)
    ensures Locally(w, ApplyRefreshed(w, env, id, generation, spec, drain), id)
  {
    hide ApplyProto;
    var w2 := Upsert(w, id, drain);
    ApplyProtoFrame(w2, env, id, generation, spec, Tcp, drain);
    var w3 := ApplyProto(w2, env, id, generation, spec, Tcp, drain).0;
    ApplyProtoFrame(w3, env, id, generation, spec, Udp, drain);
  }

  lemma ApplyFrame(w: World, env: Env, id: Id, generation: Generation, spec: Spec)
    ensures Only(w, Apply(w, env, id, generation, spec).0, id)
  {
    RefreshFrame(w, env);
    var w1 := Refresh(w, env);
    assert Only(w, w1, id);
    if spec.tcp || spec.udp {
      var drain := PolicyOf(w, spec);
      var w' := ApplyRefreshed(w1, env, id, generation, spec, drain);
      assert Apply(w, env, id, generation, spec).0 == w';
      hide Refresh, ApplyProto, ApplyRefreshed, Apply, Only, Locally;
      ApplyRefreshedFrame(w1, env, id, generation, spec, drain);
      LocallyIsOnly(w1, w', id);
      OnlyTrans(w, w1, w', id);
    }
  }

  lemma RemoveProtoFrame(w: World, id: Id, proto: Proto, deadline: Deadline)
    ensures Locally(w, RemoveProto(w, id, proto, deadline).0, id)
  {
  }

  /** `remove` of a known endpoint, after its refresh. */
  function RemoveRefreshed(w: World, id: Id, deadline: Deadline): World {
    var w2 := RemoveProto(w, id, Tcp, deadline).0;
    var w3 := RemoveProto(w2, id, Udp, deadline).0;
    w3.(entries := w3.entries - {id})
  }

  lemma RemoveRefreshedFrame(w: World, id: Id, deadline: Deadline)
    ensures Locally(w, RemoveRefreshed(w, id, deadline), id)
  {
    hide RemoveProto;
    RemoveProtoFrame(w, id, Tcp, deadline);
    RemoveProtoFrame(RemoveProto(w, id, Tcp, deadline).0, id, Udp, deadline);
  }

  lemma RemoveFrame(w: World, env: Env, id: Id)
    ensures Only(w, Remove(w, env, id).0, id)
    ensures id !in Remove(w, env, id).0.entries
  {
    RefreshFrame(w, env);
    var w1 := Refresh(w, env);
    assert Only(w, w1, id);
    if id in w1.entries {
      var w' := RemoveRefreshed(w1, id, w1.entries[id].drain.onDelete);
      assert Remove(w, env, id).0 == w' && id !in w'.entries;
      hide Refresh, RemoveProto, RemoveRefreshed, Remove, Only, Locally;
      RemoveRefreshedFrame(w1, id, w1.entries[id].drain.onDelete);
      LocallyIsOnly(w1, w', id);
      OnlyTrans(w, w1, w', id);
    }
  }

  lemma StopAcceptFrame(w: World, id: Id, proto: Proto, deadline: Deadline)
    ensures Locally(w, StopAccept(w, id, proto, deadline), id)
    ensures StopAccept(w, id, proto, deadline).entries.Keys == w.entries.Keys
  {
  }

  // ---------------------------------------------------------------- what stopping and pruning leave

  lemma StopSlotHost(w: World, id: Id, proto: Proto, deadline: Deadline)
    ensures var w' := StopSlot(w, id, proto, deadline).0;
            w'.host.exited == w.host.exited && w'.host.tick == w.host.tick && SlotAt(w', id, proto).None?
  {
  }

  /** Pruning takes no listener away. */
  lemma PruneActives(w: World, id: Id)
    ensures Prune(w, id).host == w.host
    ensures forall i: Id, p :: ActiveAt(Prune(w, id), i, p) == ActiveAt(w, i, p)
    ensures forall i: Id, p :: ActiveAt(w, i, p).Some? ==> SlotAt(Prune(w, id), i, p) == SlotAt(w, i, p)
  {
    if id in w.entries {
      var e := w.entries[id];
      var kept := map p | p in e.slots && KeepsSlot(e.slots[p]) :: e.slots[p];
      assert forall p :: p in e.slots && e.slots[p].active.Some? ==> p in kept;
    }
  }
}
