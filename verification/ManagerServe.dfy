/** What an operation brings about on the endpoint it is for. */
module ManagerServe {
  import opened Lifecycle
  import opened Manager
  import opened ManagerInvariant
  import opened ManagerFrame

  /** From tick `from` on no serving task exits, and nothing outside stands in the way of `wanted`. */
  ghost predicate Calm(env: Env, from: nat, wanted: set<Key>) {
    forall t: nat :: t >= from ==> env(t).exits == {} && !env(t).refuse && env(t).foreign !! wanted
  }

  /** From tick `from` on no serving task exits. */
  ghost predicate NoExits(env: Env, from: nat) {
    forall t: nat :: t >= from ==> env(t).exits == {}
  }

  ghost predicate AllAlive(w: World) {
    forall i: Id, p :: ActiveAt(w, i, p).Some? ==> ActiveAt(w, i, p).value.cohort !in w.host.exited
  }

  /** Nobody but `id` listens on `key`. */
  ghost predicate Free(w: World, key: Key, id: Id) {
    forall i: Id :: ActiveAt(w, i, key.proto).Some? && ActiveAt(w, i, key.proto).value.laddr == key.addr ==> i == id
  }

  /** `id` has exactly the slots `spec` asks for, all of them serving it. */
  ghost predicate Exactly(w: World, id: Id, spec: Spec) {
    && id in w.entries
    && forall p :: if Wants(spec, p) then AlreadyServes(w, id, spec, p) else SlotAt(w, id, p).None?
  }

  /** `id` listens exactly as `spec` asks; it may still have a slot without a listener. */
  ghost predicate Serves(w: World, id: Id, spec: Spec) {
    && id in w.entries
    && forall p :: if Wants(spec, p) then AlreadyServes(w, id, spec, p) else ActiveAt(w, id, p).None?
  }

  lemma ExactlyServes(w: World, id: Id, spec: Spec)
    requires Exactly(w, id, spec)
    ensures Serves(w, id, spec)
  {
    forall p ensures if Wants(spec, p) then AlreadyServes(w, id, spec, p) else ActiveAt(w, id, p).None? {
      assert if Wants(spec, p) then AlreadyServes(w, id, spec, p) else SlotAt(w, id, p).None?;
    }
  }

  /** A free address is not bound. */
  lemma FreeUnbound(w: World, key: Key, id: Id, hand: set<CohortId>)
    requires Inv(w, hand) && (forall c :: c in hand ==> Unbound(w, c))
    requires Free(w, key, id)
    requires ActiveAt(w, id, key.proto).Some? ==> ActiveAt(w, id, key.proto).value.laddr != key.addr
    ensures key !in w.host.bound
  {
    if key in w.host.bound {
      BoundIsServed(w, key, hand);
    }
  }

  /** A bound socket is that of the listener it was started for. */
  lemma BoundIsServed(w: World, key: Key, hand: set<CohortId>)
    requires Inv(w, hand) && (forall c :: c in hand ==> Unbound(w, c)) && key in w.host.bound
    ensures exists i: Id :: ActiveAt(w, i, key.proto).Some? && ActiveAt(w, i, key.proto).value.laddr == key.addr
                            && ActiveAt(w, i, key.proto).value.cohort == w.host.bound[key]
  {
    var c := w.host.bound[key];
    assert Owned(w, key, hand);
    var b := w.host.starts[c];
    assert Holds(w, c);
    assert Truthful(w, b.id, b.proto);
  }

  /** A bind of an unbound, wanted address succeeds in calm weather. */
  lemma CalmLaunch(w: World, env: Env, id: Id, proto: Proto, endpoint: Endpoint, generation: Generation,
                   wanted: set<Key>)
    requires Calm(env, w.host.tick, wanted) && Key(endpoint.laddr, proto) in wanted
    requires Key(endpoint.laddr, proto) !in w.host.bound
    ensures var (w', a) := Launch(w, env, id, proto, endpoint, generation);
            && a.Some? && a.value.laddr == endpoint.laddr && a.value.cohort == |w.host.starts|
            && w'.host.exited == w.host.exited && w'.host.tick == w.host.tick + 1
  {
    var h := Advance(w.host, env(w.host.tick));
    assert env(w.host.tick).exits == {};
    assert h.exited == w.host.exited;
    assert CanBind(h, env(w.host.tick), Key(endpoint.laddr, proto));
  }

  /** What `ApplySlot` must bring about: the slot serves the spec, alive, and no time was lost on exits. */
  ghost predicate Served(w: World, r: (World, Outcome), id: Id, spec: Spec, proto: Proto) {
    && r.1.action != Action.Failed
    && AlreadyServes(r.0, id, spec, proto)
    && ActiveAt(r.0, id, proto).value.cohort !in r.0.host.exited
    && r.0.host.exited == w.host.exited
    && r.0.host.tick >= w.host.tick
  }

  lemma ServeStart(w: World, env: Env, id: Id, generation: Generation, spec: Spec, proto: Proto, wanted: set<Key>)
    requires Inv(w, {}) && id in w.entries && ActiveAt(w, id, proto).None?
    requires Calm(env, w.host.tick, wanted) && Key(spec.endpoint.laddr, proto) in wanted
    requires Free(w, Key(spec.endpoint.laddr, proto), id)
    ensures Served(w, StartSlot(w, env, id, generation, spec, proto), id, spec, proto)
  {
    FreeUnbound(w, Key(spec.endpoint.laddr, proto), id, {});
    CalmLaunch(w, env, id, proto, spec.endpoint, generation, wanted);
    hide Launch;
  }

  /** Applying a slot without a failure, in any weather: it keeps the endpoint it serves if that is rendered alike
      over the same material, and serves the endpoint of the spec otherwise. */
  lemma AppliedSlot(w: World, env: Env, id: Id, generation: Generation, spec: Spec, proto: Proto, drain: DrainPolicy)
    requires id in w.entries
    ensures var (w', o) := ApplySlot(w, env, id, generation, spec, proto, drain);
            o.action != Action.Failed ==>
              && ActiveAt(w', id, proto).Some?
              && w'.entries[id].slots[proto].endpoint ==
                   if AlreadyServes(w, id, spec, proto) then w.entries[id].slots[proto].endpoint else spec.endpoint
  {
    hide CanBind, Advance, Unbind;
  }

  lemma NewCohortAlive(w: World, hand: set<CohortId>)
    requires Inv(w, hand)
    ensures |w.host.starts| !in w.host.exited
  {
  }

  lemma ServeReplace(w: World, env: Env, id: Id, generation: Generation, spec: Spec, proto: Proto, drain: DrainPolicy,
                     wanted: set<Key>)
    requires Inv(w, {}) && ActiveAt(w, id, proto).Some?
    requires Calm(env, w.host.tick, wanted) && Key(spec.endpoint.laddr, proto) in wanted
    requires Free(w, Key(spec.endpoint.laddr, proto), id)
    ensures Served(w, ReplaceSlot(w, env, id, generation, spec, proto, drain), id, spec, proto)
  {
    hide Inv;
    var c := ActiveAt(w, id, proto).value.cohort;
    VacateInv(w, id, proto, {});
    assert {} + {c} == {c};
    var w1 := Vacate(w, id, proto);
    assert forall i: Id, p :: ActiveAt(w1, i, p).Some? ==> ActiveAt(w, i, p) == ActiveAt(w1, i, p);
    FreeUnbound(w1, Key(spec.endpoint.laddr, proto), id, {c});
    CalmLaunch(w1, env, id, proto, spec.endpoint, generation, wanted);
    NewCohortAlive(w1, {c});
    hide Launch;
  }

  lemma ServeMove(w: World, env: Env, id: Id, generation: Generation, spec: Spec, proto: Proto, drain: DrainPolicy,
                  wanted: set<Key>)
    requires Inv(w, {}) && ActiveAt(w, id, proto).Some? && ActiveAt(w, id, proto).value.laddr != spec.endpoint.laddr
    requires Calm(env, w.host.tick, wanted) && Key(spec.endpoint.laddr, proto) in wanted
    requires Free(w, Key(spec.endpoint.laddr, proto), id)
    ensures Served(w, MoveSlot(w, env, id, generation, spec, proto, drain), id, spec, proto)
  {
    FreeUnbound(w, Key(spec.endpoint.laddr, proto), id, {});
    CalmLaunch(w, env, id, proto, spec.endpoint, generation, wanted);
    assert |w.host.starts| !in w.host.exited;
    hide Launch, Inv;
  }

  lemma ServeSlot(w: World, env: Env, id: Id, generation: Generation, spec: Spec, proto: Proto, drain: DrainPolicy,
                  wanted: set<Key>)
    requires Inv(w, {}) && AllAlive(w) && id in w.entries
    requires Calm(env, w.host.tick, wanted) && Key(spec.endpoint.laddr, proto) in wanted
    requires Free(w, Key(spec.endpoint.laddr, proto), id)
    ensures Served(w, ApplySlot(w, env, id, generation, spec, proto, drain), id, spec, proto)
  {
    hide Inv, Calm, StartSlot, ReplaceSlot, MoveSlot;
    if !AlreadyServes(w, id, spec, proto) {
      match ActiveAt(w, id, proto) {
        case None => ServeStart(w, env, id, generation, spec, proto, wanted);
        case Some(a) =>
          if a.laddr == spec.endpoint.laddr {
            ServeReplace(w, env, id, generation, spec, proto, drain, wanted);
          } else {
            ServeMove(w, env, id, generation, spec, proto, drain, wanted);
          }
      }
    }
  }

  ghost predicate Succeeded(os: seq<Outcome>) {
    forall i :: 0 <= i < |os| ==> os[i].action != Action.Failed
  }

  /** One protocol of `apply` in calm weather. */
  lemma ServeProto(w: World, env: Env, id: Id, generation: Generation, spec: Spec, proto: Proto, drain: DrainPolicy,
                   wanted: set<Key>)
    requires Inv(w, {}) && AllAlive(w) && id in w.entries
    requires Calm(env, w.host.tick, wanted)
    requires Wants(spec, proto) ==>
        Key(spec.endpoint.laddr, proto) in wanted && Free(w, Key(spec.endpoint.laddr, proto), id)
    ensures var (w', os) := ApplyProto(w, env, id, generation, spec, proto, drain);
            && Succeeded(os) && Inv(w', {}) && AllAlive(w') && AtSlot(w, w', id, proto)
            && Calm(env, w'.host.tick, wanted) && w'.host.exited == w.host.exited
            && if Wants(spec, proto) then AlreadyServes(w', id, spec, proto) else SlotAt(w', id, proto).None?
  {
    ApplyProtoInv(w, env, id, generation, spec, proto, drain);
    ApplyProtoFrame(w, env, id, generation, spec, proto, drain);
    var (w', os) := ApplyProto(w, env, id, generation, spec, proto, drain);
    if Wants(spec, proto) {
      ServeSlot(w, env, id, generation, spec, proto, drain, wanted);
      hide Inv, ApplySlot, StopSlot;
      AliveElsewhere(w, w', id, proto);
    } else {
      hide Inv, ApplySlot;
      StopSlotHost(w, id, proto, drain.onDelete);
      hide StopSlot;
      AliveElsewhere(w, w', id, proto);
    }
  }

  lemma AliveElsewhere(w: World, w': World, id: Id, proto: Proto)
    requires AllAlive(w) && AtSlot(w, w', id, proto) && w'.host.exited == w.host.exited
    requires ActiveAt(w', id, proto).Some? ==> ActiveAt(w', id, proto).value.cohort !in w'.host.exited
    ensures AllAlive(w')
  {
    forall i: Id, p | ActiveAt(w', i, p).Some? ensures ActiveAt(w', i, p).value.cohort !in w'.host.exited {
      if i == id && p != proto {
        assert SlotAt(w', id, p) == SlotAt(w, id, p);
        assert ActiveAt(w, i, p) == ActiveAt(w', i, p);
      } else if i != id {
        assert ActiveAt(w, i, p) == ActiveAt(w', i, p);
      }
    }
  }

  // ---------------------------------------------------------------- whole endpoints

  ghost predicate SameActives(w: World, w': World) {
    forall i: Id, p :: ActiveAt(w', i, p) == ActiveAt(w, i, p)
  }

  /** While no task exits a refresh changes no listener. */
  lemma QuietRefresh(w: World, env: Env)
    requires Inv(w, {}) && AllAlive(w) && NoExits(env, w.host.tick)
    ensures var w' := Refresh(w, env);
            && Inv(w', {}) && AllAlive(w') && NoExits(env, w'.host.tick)
            && Nothing(w, w') && SameActives(w, w') && w'.host.exited == w.host.exited
  {
    RefreshInv(w, env);
    RefreshFrame(w, env);
    var w' := Refresh(w, env);
    assert w'.host.exited == w.host.exited by {
      assert env(w.host.tick).exits == {};
    }
    hide Refresh, Inv;
    forall i: Id, p ensures ActiveAt(w', i, p) == ActiveAt(w, i, p) {
      assert Untouched(w, w', i);
      if i in w.entries && p in w.entries[i].slots {
        assert WeatheredSlot(w.entries[i].slots[p], w'.entries[i].slots[p], w.entries[i].drain.onDelete, w'.host);
        if ActiveAt(w, i, p).Some? {
          assert ActiveAt(w, i, p).value.cohort !in w.host.exited;
        }
      }
    }
  }

  lemma RefreshSlotAlive(w: World, id: Id, proto: Proto)
    ensures var w' := RefreshSlot(w, id, proto);
            && w'.host.exited == w.host.exited
            && (forall i: Id, p :: ActiveAt(w', i, p).Some? ==> ActiveAt(w', i, p) == ActiveAt(w, i, p))
            && (ActiveAt(w', id, proto).Some? ==> ActiveAt(w', id, proto).value.cohort !in w'.host.exited)
  {
  }

  lemma {:induction false} RefreshIdsAlive(w: World, ids: seq<Id>)
    ensures var w' := RefreshIds(w, ids);
            && w'.host.exited == w.host.exited
            && (forall i: Id, p :: ActiveAt(w', i, p).Some? ==> ActiveAt(w', i, p) == ActiveAt(w, i, p))
            && (forall i: Id, p :: i in ids && ActiveAt(w', i, p).Some? ==>
                  ActiveAt(w', i, p).value.cohort !in w'.host.exited)
    decreases |ids|
  {
    hide RefreshSlot;
    if ids != [] {
      var w1 := RefreshSlot(w, ids[0], Tcp);
      var w2 := RefreshSlot(w1, ids[0], Udp);
      RefreshSlotAlive(w, ids[0], Tcp);
      RefreshSlotAlive(w1, ids[0], Udp);
      RefreshIdsAlive(w2, ids[1..]);
      var w' := RefreshIds(w2, ids[1..]);
      forall i: Id, p | i in ids && ActiveAt(w', i, p).Some?
        ensures ActiveAt(w', i, p).value.cohort !in w'.host.exited
      {
        assert p == Tcp || p == Udp;
        assert i == ids[0] || i in ids[1..];
      }
    }
  }

  /** A refresh leaves no listener in its slot whose task has exited. */
  lemma RefreshAlive(w: World, env: Env)
    ensures AllAlive(Refresh(w, env))
  {
    var w1 := Elapse(w, env);
    hide RefreshIds, Elapse;
    RefreshIdsAlive(w1, SortedKeys(w1.entries.Keys));
  }

  lemma CalmRefresh(w: World, env: Env, wanted: set<Key>)
    requires Inv(w, {}) && AllAlive(w) && Calm(env, w.host.tick, wanted)
    ensures var w' := Refresh(w, env);
            && Inv(w', {}) && AllAlive(w') && Calm(env, w'.host.tick, wanted)
            && Nothing(w, w') && SameActives(w, w') && w'.host.exited == w.host.exited
  {
    hide Refresh, Inv;
    QuietRefresh(w, env);
  }

  ghost predicate AllFree(w: World, id: Id, spec: Spec, wanted: set<Key>) {
    forall p :: Wants(spec, p) ==> Key(spec.endpoint.laddr, p) in wanted && Free(w, Key(spec.endpoint.laddr, p), id)
  }

  /** Both protocols of `apply`, one after the other. */
  lemma ServeBoth(w: World, env: Env, id: Id, generation: Generation, spec: Spec, drain: DrainPolicy, wanted: set<Key>)
    requires Inv(w, {}) && AllAlive(w) && (spec.tcp || spec.udp) && id in w.entries
    requires Calm(env, w.host.tick, wanted) && AllFree(w, id, spec, wanted)
    ensures var (w1, os1) := ApplyProto(w, env, id, generation, spec, Tcp, drain);
            var (w2, os2) := ApplyProto(w1, env, id, generation, spec, Udp, drain);
            && Succeeded(os1 + os2) && AllAlive(w2) && Exactly(w2, id, spec)
            && Calm(env, w2.host.tick, wanted) && w2.host.exited == w.host.exited
  {
    hide Inv, ApplyProto, Calm, AlreadyServes;
    ServeProto(w, env, id, generation, spec, Tcp, drain, wanted);
    var (w1, os1) := ApplyProto(w, env, id, generation, spec, Tcp, drain);
    OtherProtoActives(w, w1, id, Tcp, Udp);
    ServeProto(w1, env, id, generation, spec, Udp, drain, wanted);
    var (w2, os2) := ApplyProto(w1, env, id, generation, spec, Udp, drain);
    assert SlotAt(w2, id, Tcp) == SlotAt(w1, id, Tcp);
    SameSlotServes(w1, w2, id, spec, Tcp);
    forall p ensures if Wants(spec, p) then AlreadyServes(w2, id, spec, p) else SlotAt(w2, id, p).None? {
      assert p == Tcp || p == Udp;
    }
  }

  lemma SameSlotServes(w: World, w': World, id: Id, spec: Spec, proto: Proto)
    requires SlotAt(w', id, proto) == SlotAt(w, id, proto)
    ensures AlreadyServes(w', id, spec, proto) == AlreadyServes(w, id, spec, proto)
  {
  }

  /** `apply` in calm weather, on addresses nobody else holds: every slot of the spec comes up, every
      other slot of the endpoint goes away, and nothing is reported as failed. */
  lemma ServeEndpoint(w: World, env: Env, id: Id, generation: Generation, spec: Spec, wanted: set<Key>)
    requires Inv(w, {}) && AllAlive(w) && (spec.tcp || spec.udp)
    requires Calm(env, w.host.tick, wanted) && AllFree(w, id, spec, wanted)
    ensures var (w', os) := Apply(w, env, id, generation, spec);
            && Succeeded(os) && Exactly(w', id, spec) && AllAlive(w') && Inv(w', {}) && Only(w, w', id)
            && Calm(env, w'.host.tick, wanted) && w'.host.exited == w.host.exited
  {
    hide Refresh, Inv, ApplyProto, Calm, Prune, AlreadyServes, Only, Succeeded;
    ApplyInv(w, env, id, generation, spec);
    ApplyFrame(w, env, id, generation, spec);
    CalmRefresh(w, env, wanted);
    var w1 := Refresh(w, env);
    var drain := PolicyOf(w, spec);
    UpsertInv(w1, id, drain);
    var w2 := Upsert(w1, id, drain);
    assert SameActives(w1, w2);
    ServeBoth(w2, env, id, generation, spec, drain, wanted);
    var w3 := ApplyProto(w2, env, id, generation, spec, Tcp, drain).0;
    var w4 := ApplyProto(w3, env, id, generation, spec, Udp, drain).0;
    PruneKeeps(w4, id, spec);
  }

  lemma OtherProtoActives(w: World, w': World, id: Id, proto: Proto, other: Proto)
    requires AtSlot(w, w', id, proto) && other != proto
    ensures forall i: Id :: ActiveAt(w', i, other) == ActiveAt(w, i, other)
  {
    forall i: Id ensures ActiveAt(w', i, other) == ActiveAt(w, i, other) {
      if i == id { assert SlotAt(w', id, other) == SlotAt(w, id, other); }
    }
  }

  lemma PruneKeeps(w: World, id: Id, spec: Spec)
    requires Exactly(w, id, spec) && (spec.tcp || spec.udp)
    ensures Prune(w, id) == w
  {
    var e := w.entries[id];
    var kept := map p | p in e.slots && KeepsSlot(e.slots[p]) :: e.slots[p];
    forall p | p in e.slots ensures p in kept {
      assert !Wants(spec, p) ==> SlotAt(w, id, p).None?;
    }
    assert kept == e.slots;
    assert kept != map[] by {
      if spec.tcp { assert Wants(spec, Tcp); assert Tcp in kept; } else { assert Wants(spec, Udp); assert Udp in kept; }
    }
  }
}
