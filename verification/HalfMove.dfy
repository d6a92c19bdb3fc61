/** A move that succeeds for one protocol and is refused for the other is not healed by going back: the process
    records the old description, finds a listener for each of its protocols and asks no further, although one of
    them serves the new address. */
module HalfMove {
  import opened Lifecycle
  import opened Manager
  import opened ManagerInvariant
  import opened ManagerFrame
  import opened ManagerServe
  import opened ManagerTries
  import opened Reconciliation
  import opened Convergence
  import opened Healing
  import opened ReconcileRuns
  import opened Restart
  import Weights

  /** From tick `from` on the tcp half of `addr` can be bound and the udp half belongs to somebody else. */
  ghost predicate HalfTaken(env: Env, from: nat, addr: Addr) {
    Calm(env, from, {Key(addr, Tcp)}) && forall t: nat :: t >= from ==> Key(addr, Udp) in env(t).foreign
  }

  /** A move to an address that cannot be bound leaves the listener where it is. */
  lemma RefusedMove(w: World, env: Env, id: Id, generation: Generation, spec: Spec, drain: DrainPolicy)
    requires ActiveAt(w, id, Udp).Some? && ActiveAt(w, id, Udp).value.laddr != spec.endpoint.laddr
    requires spec.udp && w.entries[id].slots[Udp].endpoint.laddr != spec.endpoint.laddr
    requires Key(spec.endpoint.laddr, Udp) in env(w.host.tick).foreign
    ensures var (w', os) := ApplyProto(w, env, id, generation, spec, Udp, drain);
            os == [Refused(Udp)] && ActiveAt(w', id, Udp) == ActiveAt(w, id, Udp)
  {
    hide Advance;
  }

  /** `apply` of an endpoint that moves to a half-taken address, nobody else being there. */
  lemma ApplyHalf(w: World, env: Env, id: Id, generation: Generation, prev: Spec, spec: Spec)
    requires Inv(w, {}) && AllAlive(w) && w.entries.Keys == {id} && Serves(w, id, prev)
    requires prev.udp && spec.tcp && spec.udp && prev.endpoint.laddr != spec.endpoint.laddr
    requires HalfTaken(env, w.host.tick, spec.endpoint.laddr)
    ensures var (w', os) := Apply(w, env, id, generation, spec);
            AnyFailed(os) && AlreadyServes(w', id, spec, Tcp) && ActiveAt(w', id, Udp).Some?
  {
    hide Refresh, Inv, ApplyProto, Prune, Calm, SameShown;
    var wanted := {Key(spec.endpoint.laddr, Tcp)};
    CalmRefresh(w, env, wanted);
    var w1 := Refresh(w, env);
    UntouchedIsKept(w, w1, id);
    assert KeptSlot(w, w1, id, Udp);
    assert AlreadyServes(w, id, prev, Udp);
    var drain := PolicyOf(w, spec);
    var w2 := Upsert(w1, id, drain);
    UpsertInv(w1, id, drain);
    forall i: Id ensures i in w2.entries <==> i == id {
      UntouchedHeld(w, w1, i);
    }
    assert SameActives(w1, w2);
    ServeProto(w2, env, id, generation, spec, Tcp, drain, wanted);
    var (w3, o3) := ApplyProto(w2, env, id, generation, spec, Tcp, drain);
    assert SlotAt(w3, id, Udp) == SlotAt(w2, id, Udp);
    ActiveInServed(w, id, prev, Udp);
    assert w3.host.tick >= w.host.tick;
    RefusedMove(w3, env, id, generation, spec, drain);
    ApplyProtoFrame(w3, env, id, generation, spec, Udp, drain);
    var (w4, o4) := ApplyProto(w3, env, id, generation, spec, Udp, drain);
    assert SlotAt(w4, id, Tcp) == SlotAt(w3, id, Tcp);
    PruneActives(w4, id);
    assert (o3 + o4)[|o3|] == o4[0];
    assert SlotAt(Prune(w4, id), id, Tcp) == SlotAt(w4, id, Tcp);
  }

  lemma OneKey(id: Id)
    ensures SortedKeys({id}) == [id]
  {
    assert Least({id}) == id && {id} - {id} == {};
  }

  /** The plans of a submission that moves the only endpoint: nothing is handed off, as nobody wants its address. */
  lemma MovePlans(s: State, build: Build, id: Id, d: Desc)
    requires Clean(s, build) && s.applied.Keys == {id} && s.applied[id] != d && Buildable(build, d)
    requires Built(build, s.applied[id]).endpoint.laddr != Built(build, d).endpoint.laddr
    ensures var plans := Plans(s, build, {}, [Desired(id, d)]);
            && plans == map[id := Replace(Built(build, d))]
            && Diff(s, build, {}, [Desired(id, d)]).desired == map[id := d]
            && !Released(s.world, plans, id, Tcp) && !Released(s.world, plans, id, Udp)
  {
    var endpoints := [Desired(id, d)];
    assert endpoints[..0] == [] && Diff(s, build, {}, []) == Draft(map[], map[]);
    var built := Built(build, d);
    assert Diff(s, build, {}, endpoints) == Draft(map[id := d], map[id := Replace(built)]);
    hide Diff, Inv;
    var plans := map[id := Replace(built)];
    assert !Collides(s.world, plans, id);
    assert MarkDuplicates(s.world, plans) == plans;
    assert WithDeletions(s.world, plans) == plans;
    forall p ensures !Released(s.world, plans, id, p) {
      if ActiveAt(s.world, id, p).Some? {
        ExactlyServes(s.world, id, Built(build, s.applied[id]));
        assert Inv(s.world, {});
        ActiveInServed(s.world, id, Built(build, s.applied[id]), p);
      }
    }
  }

  /** The generation that moves the only endpoint to a half-taken address is partial; what it records as applied
      is the old description, over a tcp listener on the new address and a udp listener. */
  lemma GenerationHalf(s: State, env: Env, build: Build, generation: Generation, id: Id, d: Desc)
    requires Clean(s, build) && s.applied.Keys == {id} && s.applied[id] != d && Buildable(build, d)
    requires Built(build, s.applied[id]).endpoint.laddr != Built(build, d).endpoint.laddr
    requires Built(build, s.applied[id]).udp && Built(build, d).tcp && Built(build, d).udp
    requires HalfTaken(env, s.world.host.tick, Built(build, d).endpoint.laddr)
    ensures var p := ApplyGeneration(s, env, build, generation, [Desired(id, d)], {});
            && AnyResultFailed(p.results) && p.desired == s.applied && p.world.entries.Keys <= {id}
            && AlreadyServes(p.world, id, Built(build, d), Tcp) && ActiveAt(p.world, id, Udp).Some?
  {
    hide Diff, Plans, Released, ReleaseIds, Inv, Exactly, HalfTaken, AlreadyServes, Apply;
    var built, prev := Built(build, d), Built(build, s.applied[id]);
    MovePlans(s, build, id, d);
    OneKey(id);
    var plans := Plans(s, build, {}, [Desired(id, d)]);
    assert plans.Keys == {id};
    ReleaseEffect(s.world, plans);
    var w1 := Release(s.world, plans);
    ExactlyServes(s.world, id, prev);
    SameEntryServes(s.world, w1, id, prev);
    ReleaseAlive(s.world, plans);
    HalfTakenLater(env, s.world.host.tick, w1.host.tick, built.endpoint.laddr);
    ApplyHalf(w1, env, id, generation, prev, built);
    var p0 := Progress(w1, map[id := d], []);
    var (w2, os) := Apply(w1, env, id, generation, built);
    var c := RestoreCandidate(s.world, plans, id);
    assert [id][1..] == [];
    var p := ApplyPlan(s, env, build, generation, c, p0, id, plans[id]);
    assert ApplyPlans(s, env, build, generation, s.world, plans, p0, [id]) == p;
    assert Serving(w2, id) && p.world == w2;
    assert p.desired == map[id := d][id := s.applied[id]];
    ApplyFrame(w1, env, id, generation, built);
    forall i: Id | i != id ensures i !in w2.entries {
      UntouchedHeld(w1, w2, i);
    }
    var i :| 0 <= i < |os| && os[i].action == Action.Failed;
    assert p.results[i].action == Action.Failed;
  }

  lemma HalfTakenLater(env: Env, from: nat, later: nat, addr: Addr)
    requires HalfTaken(env, from, addr) && from <= later
    ensures HalfTaken(env, later, addr)
  {
  }

  // ---------------------------------------------------------------- there and back

  /** An endpoint with both protocols on the address its configuration names. */
  function OnAddress(d: Desc): Option<Spec> {
    Some(Spec(Endpoint(d.config, 0, 0, None), true, true, None, None))
  }

  /** Somebody else has the udp half of address 2. */
  function UdpTaken(t: nat): Weather {
    Weather({}, {}, {Key(2, Udp)}, false)
  }

  function MoveTo(generation: Generation, addr: Addr): Request {
    Request(generation, [Desired(0, Desc(addr, None))])
  }

  lemma Movable(generation: Generation, addr: Addr)
    ensures Unrefreshed(MoveTo(generation, addr).endpoints, Weights.Digest) == {}
    ensures DistinctIds(MoveTo(generation, addr).endpoints)
    ensures RefreshAll(MoveTo(generation, addr).endpoints, Weights.Digest) == MoveTo(generation, addr).endpoints
    ensures Wanted(Weights.Digest, MoveTo(generation, addr)) == map[0 := Desc(addr, None)]
    ensures Proper(OnAddress, map[0 := Desc(addr, None)])
  {
    var endpoints := MoveTo(generation, addr).endpoints;
    assert endpoints[..0] == [];
    assert Submitted([]) == map[];
    assert Submitted(endpoints) == Submitted([])[0 := Desc(addr, None)];
    assert RefreshAll(endpoints, Weights.Digest) == endpoints;
  }

  /** A process serving an endpoint on address 1 is told to move it to address 2, whose udp half is taken, and
      then to go back. The last answer is that this is applied, and nothing was changed; but tcp is served on
      address 2, and on address 1 no longer. */
  lemma GoingBackIsNotHealed(policy: DrainPolicy)
    ensures var s1 := Reconcile(Fresh(policy), UdpTaken, OnAddress, Weights.Digest, MoveTo(1, 1)).0;
            var (s2, moved) := Reconcile(s1, UdpTaken, OnAddress, Weights.Digest, MoveTo(2, 2));
            var (s3, back) := Reconcile(s2, UdpTaken, OnAddress, Weights.Digest, MoveTo(3, 1));
            && moved.Answer? && moved.response.state == PartiallyApplied
            && back.Answer? && back.response.state == Applied && OnlyUnchanged(back.response.results)
            && s3.applied == map[0 := Desc(1, None)]
            && ActiveAt(s3.world, 0, Tcp).Some? && SlotAt(s3.world, 0, Tcp).value.endpoint.laddr == 2
  {
    hide Inv, Submitted, Reconcile;
    HalfWay(policy);
    Movable(3, 1);
    var s1 := Reconcile(Fresh(policy), UdpTaken, OnAddress, Weights.Digest, MoveTo(1, 1)).0;
    var s2 := Reconcile(s1, UdpTaken, OnAddress, Weights.Digest, MoveTo(2, 2)).0;
    RunningIsTrusted(s2, UdpTaken, OnAddress, Weights.Digest, MoveTo(3, 1));
  }

  lemma HalfWay(policy: DrainPolicy)
    ensures var s1 := Reconcile(Fresh(policy), UdpTaken, OnAddress, Weights.Digest, MoveTo(1, 1)).0;
            var (s2, moved) := Reconcile(s1, UdpTaken, OnAddress, Weights.Digest, MoveTo(2, 2));
            && moved.Answer? && moved.response.state == PartiallyApplied
            && s2.ready && s2.active == Some(2)
            && s2.applied == map[0 := Desc(1, None)] && s2.world.entries.Keys <= {0}
            && ActiveAt(s2.world, 0, Tcp).Some? && SlotAt(s2.world, 0, Tcp).value.endpoint.laddr == 2
            && ActiveAt(s2.world, 0, Udp).Some?
  {
    hide Inv, ApplyGeneration, Submitted;
    var s0 := Fresh(policy);
    assert Clean(s0, OnAddress) by { EmptyIsClean(policy, OnAddress); }
    Movable(1, 1);
    Movable(2, 2);
    ConvergesCleanly(s0, UdpTaken, OnAddress, Weights.Digest, MoveTo(1, 1));
    var s1 := Reconcile(s0, UdpTaken, OnAddress, Weights.Digest, MoveTo(1, 1)).0;
    GenerationHalf(s1, UdpTaken, OnAddress, 2, 0, Desc(2, None));
  }
}
