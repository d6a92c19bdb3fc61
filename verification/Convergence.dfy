/** One submission is enough: from a tidy state, in calm weather, every proper desired state is
    reached in one generation, however it permutes the addresses in use. */
module Convergence {
  import opened Lifecycle
  import opened Manager
  import opened ManagerInvariant
  import opened ManagerFrame
  import opened ManagerServe
  import opened Reconciliation

  // ---------------------------------------------------------------- statement

  /** What a description builds to; a spec that asks for nothing if it does not build. */
  ghost function Built(build: Build, d: Desc): Spec {
    match build(d)
    case Some(spec) => spec
    case None => Spec(Endpoint(0, 0, 0, None), false, false, None, None)
  }

  ghost predicate Buildable(build: Build, d: Desc) {
    build(d).Some? && (Built(build, d).tcp || Built(build, d).udp)
  }

  /** The manager serves exactly what is recorded as applied. */
  ghost predicate Clean(s: State, build: Build) {
    && Inv(s.world, {}) && AllAlive(s.world)
    && s.world.entries.Keys == s.applied.Keys
    && forall id :: id in s.applied ==>
          Buildable(build, s.applied[id]) && Exactly(s.world, id, Built(build, s.applied[id]))
  }

  /** The manager listens exactly as is recorded as applied. */
  ghost predicate InStep(s: State, build: Build) {
    && Inv(s.world, {}) && AllAlive(s.world)
    && s.world.entries.Keys == s.applied.Keys
    && forall id :: id in s.applied ==>
          Buildable(build, s.applied[id]) && Serves(s.world, id, Built(build, s.applied[id]))
  }

  /** `id` listens where `spec` asks to. */
  ghost predicate Blocks(w: World, id: Id, spec: Spec, proto: Proto) {
    && ActiveAt(w, id, proto).Some? && Wants(spec, proto)
    && ActiveAt(w, id, proto).value.laddr == spec.endpoint.laddr
  }

  /** An endpoint that is not recorded as applied, which a generation does not expect to listen, does not do so
      where one of the desired state is to listen that comes before it. */
  ghost predicate Unblocked(s: State, build: Build, desired: map<Id, Desc>) {
    forall id, other, p :: id in desired && other in desired && other < id && id !in s.applied ==>
      !Blocks(s.world, id, Built(build, desired[other]), p)
  }

  /** What a generation needs to start from: every listener runs, and the endpoints it is going to leave alone
      listen as they should. All others may be down, half up or failed. */
  ghost predicate Tidy(s: State, build: Build, desired: map<Id, Desc>) {
    && Inv(s.world, {}) && AllAlive(s.world) && Unblocked(s, build, desired)
    && forall id :: id in desired && PlanFor(s, id, desired[id], Built(build, desired[id])) == Plan.Unchanged ==>
          Serves(s.world, id, Built(build, desired[id]))
  }

  ghost predicate DistinctIds(endpoints: seq<Desired>) {
    forall i, j :: 0 <= i < j < |endpoints| ==> endpoints[i].id != endpoints[j].id
  }

  /** The submission as a table. */
  ghost function Submitted(endpoints: seq<Desired>): map<Id, Desc> {
    if endpoints == [] then map[]
    else Submitted(endpoints[..|endpoints| - 1])[endpoints[|endpoints| - 1].id := endpoints[|endpoints| - 1].spec]
  }

  ghost predicate Share(a: Spec, b: Spec, proto: Proto) {
    Wants(a, proto) && Wants(b, proto) && a.endpoint.laddr == b.endpoint.laddr
  }

  /** Every description builds, asks for a protocol, and no two ask for the same address. */
  ghost predicate Proper(build: Build, desired: map<Id, Desc>) {
    && (forall id :: id in desired ==> Buildable(build, desired[id]))
    && forall a, b, p :: a in desired && b in desired && a != b ==>
         !Share(Built(build, desired[a]), Built(build, desired[b]), p)
  }

  /** The addresses a desired state listens on. */
  ghost function AddressesOf(build: Build, desired: map<Id, Desc>): set<Key> {
    (set id | id in desired && Built(build, desired[id]).tcp :: Key(Built(build, desired[id]).endpoint.laddr, Tcp))
    + (set id | id in desired && Built(build, desired[id]).udp :: Key(Built(build, desired[id]).endpoint.laddr, Udp))
  }

  // ---------------------------------------------------------------- the plans of a proper submission

  lemma {:induction false} SubmittedKeys(endpoints: seq<Desired>, id: Id)
    ensures id in Submitted(endpoints) <==> exists i :: 0 <= i < |endpoints| && endpoints[i].id == id
  {
    if endpoints != [] {
      var n := |endpoints| - 1;
      SubmittedKeys(endpoints[..n], id);
      if id in Submitted(endpoints[..n]) {
        var i :| 0 <= i < n && endpoints[..n][i].id == id;
        assert endpoints[i].id == id;
      }
      if i :| 0 <= i < |endpoints| && endpoints[i].id == id {
        if i < n { assert endpoints[..n][i].id == id; }
      }
    }
  }

  ghost function Planned(s: State, build: Build, desired: map<Id, Desc>): map<Id, Plan> {
    map id | id in desired :: PlanFor(s, id, desired[id], Built(build, desired[id]))
  }

  lemma {:induction false} DiffOfProper(s: State, build: Build, endpoints: seq<Desired>)
    requires DistinctIds(endpoints)
    requires forall id :: id in Submitted(endpoints) ==> Buildable(build, Submitted(endpoints)[id])
    ensures Diff(s, build, {}, endpoints) == Draft(Submitted(endpoints), Planned(s, build, Submitted(endpoints)))
  {
    if endpoints != [] {
      var n := |endpoints| - 1;
      var rest, e := endpoints[..n], endpoints[n];
      SubmittedKeys(rest, e.id);
      assert e.id !in Submitted(rest);
      assert forall id :: id in Submitted(rest) ==> Submitted(endpoints)[id] == Submitted(rest)[id];
      DiffOfProper(s, build, rest);
      assert Submitted(endpoints)[e.id] == e.spec;
      assert Planned(s, build, Submitted(endpoints))
          == Planned(s, build, Submitted(rest))[e.id := PlanFor(s, e.id, e.spec, Built(build, e.spec))];
    }
  }

  lemma ActiveInServed(w: World, id: Id, spec: Spec, proto: Proto)
    requires Inv(w, {}) && Serves(w, id, spec) && ActiveAt(w, id, proto).Some?
    ensures Wants(spec, proto) && ActiveAt(w, id, proto).value.laddr == spec.endpoint.laddr
    ensures ActiveEndpoint(w, id, proto).value.laddr == spec.endpoint.laddr
  {
    assert Truthful(w, id, proto);
    assert !Wants(spec, proto) ==> ActiveAt(w, id, proto).None?;
  }

  lemma NothingCollides(s: State, build: Build, desired: map<Id, Desc>)
    requires Tidy(s, build, desired) && Proper(build, desired)
    ensures MarkDuplicates(s.world, Planned(s, build, desired)) == Planned(s, build, desired)
  {
    var plans := Planned(s, build, desired);
    forall id, proto | id in plans ensures !CollidesOn(s.world, plans, id, proto) {
      if CollidesOn(s.world, plans, id, proto) {
        var key := Key(plans[id].built.endpoint.laddr, proto);
        var other :| && other in plans && other != id
                     && (Claims(plans[other], key) || Incumbent(s.world, plans, other, key));
        if Incumbent(s.world, plans, other, key) {
          ActiveInServed(s.world, other, Built(build, desired[other]), proto);
        }
        assert Share(Built(build, desired[id]), Built(build, desired[other]), proto);
        assert false;
      }
    }
  }

  // ---------------------------------------------------------------- the hand-off

  ghost predicate ReleasedFrom(w: World, w0: World, plans: map<Id, Plan>, w': World, id: Id) {
    && (id in w.entries <==> id in w'.entries)
    && forall p :: ActiveAt(w', id, p) == if Released(w0, plans, id, p) then None else ActiveAt(w, id, p)
  }

  lemma StopAcceptEffect(w: World, id: Id, proto: Proto, deadline: Deadline)
    ensures var w' := StopAccept(w, id, proto, deadline);
            && w'.entries.Keys == w.entries.Keys && w'.policy == w.policy
            && w'.host.tick == w.host.tick && w'.host.exited == w.host.exited
            && (forall i :: i in w.entries && i != id ==> w'.entries[i] == w.entries[i])
            && ActiveAt(w', id, proto).None?
            && (forall p :: p != proto ==> SlotAt(w', id, p) == SlotAt(w, id, p))
  {
  }

  lemma ReleaseProtoEffect(w: World, w0: World, plans: map<Id, Plan>, id: Id, proto: Proto)
    requires Inv(w, {})
    ensures var w' := ReleaseProto(w, w0, plans, id, proto);
            && Inv(w', {}) && w'.entries.Keys == w.entries.Keys && w'.policy == w.policy
            && w'.host.tick == w.host.tick && w'.host.exited == w.host.exited
            && (forall i :: i in w.entries && i != id ==> w'.entries[i] == w.entries[i])
            && (Released(w0, plans, id, proto) ==> ActiveAt(w', id, proto).None?)
            && (!Released(w0, plans, id, proto) ==> w' == w)
            && (forall p :: p != proto ==> SlotAt(w', id, p) == SlotAt(w, id, p))
  {
    hide Inv, StopAccept;
    if Released(w0, plans, id, proto) {
      StopAcceptEffect(w, id, proto, ReleaseDeadline(w, plans[id], id));
      StopAcceptInv(w, id, proto, ReleaseDeadline(w, plans[id], id));
    }
  }

  /** The same world, except for endpoint `id`, with no time passed. */
  ghost predicate Meanwhile(w: World, w': World) {
    && w'.entries.Keys == w.entries.Keys && w'.policy == w.policy
    && w'.host.tick == w.host.tick && w'.host.exited == w.host.exited
  }

  lemma ReleaseIdEffect(w: World, w0: World, plans: map<Id, Plan>, id: Id)
    requires Inv(w, {})
    ensures var w' := ReleaseProto(ReleaseProto(w, w0, plans, id, Tcp), w0, plans, id, Udp);
            && Inv(w', {}) && Meanwhile(w, w') && ReleasedFrom(w, w0, plans, w', id)
            && (forall i :: i in w.entries && i != id ==> w'.entries[i] == w.entries[i])
            && (!Released(w0, plans, id, Tcp) && !Released(w0, plans, id, Udp) ==> w' == w)
  {
    hide Inv, ReleaseProto, Released;
    var w1 := ReleaseProto(w, w0, plans, id, Tcp);
    ReleaseProtoEffect(w, w0, plans, id, Tcp);
    ReleaseProtoEffect(w1, w0, plans, id, Udp);
    var w' := ReleaseProto(w1, w0, plans, id, Udp);
    forall p ensures ActiveAt(w', id, p) == if Released(w0, plans, id, p) then None else ActiveAt(w, id, p) {
      assert p == Tcp || p == Udp;
      assert SlotAt(w1, id, Udp) == SlotAt(w, id, Udp);
      assert SlotAt(w', id, Tcp) == SlotAt(w1, id, Tcp);
    }
  }

  lemma {:induction false} ReleaseIdsEffect(w: World, w0: World, plans: map<Id, Plan>, ids: seq<Id>)
    requires Inv(w, {}) && forall i, j :: 0 <= i < j < |ids| ==> ids[i] != ids[j]
    ensures var w' := ReleaseIds(w, w0, plans, ids);
            && Inv(w', {}) && Meanwhile(w, w')
            && (forall id :: id in ids ==> ReleasedFrom(w, w0, plans, w', id))
            && (forall id ::
                  id in w.entries && (id !in ids || (!Released(w0, plans, id, Tcp) && !Released(w0, plans, id, Udp)))
                  ==> w'.entries[id] == w.entries[id])
    decreases |ids|
  {
    hide Inv, ReleaseProto, Released;
    if ids != [] {
      ReleaseIdEffect(w, w0, plans, ids[0]);
      var w1 := ReleaseProto(ReleaseProto(w, w0, plans, ids[0], Tcp), w0, plans, ids[0], Udp);
      ReleaseIdsEffect(w1, w0, plans, ids[1..]);
      var w' := ReleaseIds(w1, w0, plans, ids[1..]);
      assert ids[0] !in ids[1..];
      forall id | id in ids ensures ReleasedFrom(w, w0, plans, w', id) {
        if id == ids[0] {
          SameEntryActives(w1, w', id);
          assert ReleasedFrom(w, w0, plans, w1, id);
        } else {
          assert id in ids[1..];
          SameEntryActives(w, w1, id);
          assert ReleasedFrom(w1, w0, plans, w', id);
        }
      }
    }
  }

  lemma SameEntryActives(w: World, w': World, id: Id)
    requires (id in w.entries <==> id in w'.entries) && (id in w.entries ==> w'.entries[id] == w.entries[id])
    ensures forall p :: ActiveAt(w', id, p) == ActiveAt(w, id, p)
  {
  }

  lemma ReleaseEffect(w: World, plans: map<Id, Plan>)
    requires Inv(w, {})
    ensures var w' := Release(w, plans);
            && Inv(w', {}) && Meanwhile(w, w')
            && (forall id :: id in plans ==> ReleasedFrom(w, w, plans, w', id))
            && (forall id ::
                  id in w.entries && (id !in plans || (!Released(w, plans, id, Tcp) && !Released(w, plans, id, Udp)))
                  ==> w'.entries[id] == w.entries[id])
  {
    hide Inv, ReleaseIds, Released, ReleasedFrom;
    ReleaseIdsEffect(w, w, plans, SortedKeys(plans.Keys));
  }

  lemma UniqueListener(w: World, i: Id, j: Id, proto: Proto)
    requires Inv(w, {}) && AllAlive(w)
    requires ActiveAt(w, i, proto).Some? && ActiveAt(w, j, proto).Some?
    requires ActiveAt(w, i, proto).value.laddr == ActiveAt(w, j, proto).value.laddr
    ensures i == j
  {
    assert Truthful(w, i, proto) && Truthful(w, j, proto);
  }

  /** The plans of a proper submission. */
  ghost predicate PlansOf(s: State, build: Build, desired: map<Id, Desc>, plans: map<Id, Plan>) {
    plans == WithDeletions(s.world, Planned(s, build, desired))
  }

  /** Whoever listens on an address this generation binds is released, or starts before and leaves it then. */
  lemma AddressFreed(s: State, build: Build, desired: map<Id, Desc>, plans: map<Id, Plan>, id: Id, proto: Proto, i: Id)
    requires Tidy(s, build, desired) && Proper(build, desired) && PlansOf(s, build, desired, plans)
    requires id in desired && Binds(plans[id]) && Wants(Built(build, desired[id]), proto) && i != id
    requires ActiveAt(s.world, i, proto).Some?
    requires ActiveAt(s.world, i, proto).value.laddr == Built(build, desired[id]).endpoint.laddr
    ensures Released(s.world, plans, i, proto) || (i < id && plans[i].Start?)
  {
    var w := s.world;
    var key := Key(Built(build, desired[id]).endpoint.laddr, proto);
    assert Truthful(w, i, proto);
    assert i in plans;
    assert plans[id].built == Built(build, desired[id]);
    assert Wanting(w, plans[id], id, key) by {
      if ActiveAt(w, id, proto).Some? && ActiveAt(w, id, proto).value.laddr == key.addr {
        UniqueListener(w, i, id, proto);
      }
      if ActiveAt(w, id, proto).Some? { assert Truthful(w, id, proto); }
    }
    assert IsWanted(w, plans, key);
    assert Leaving(w, plans[i], i) || (i < id && plans[i].Start?) by {
      if i in desired {
        var mine := Built(build, desired[i]);
        assert plans[i] == PlanFor(s, i, desired[i], mine);
        assert !Share(mine, Built(build, desired[id]), proto);
        if plans[i] == Plan.Unchanged {
          ActiveInServed(w, i, mine, proto);
        }
        assert Blocks(w, i, Built(build, desired[id]), proto);
        if i in s.applied {
          assert Drops(w, mine, i, proto);
        }
      }
    }
  }

  /** Nobody listens on `key` but `id`, and those of `ids` that start before it. */
  ghost predicate FreeBy(w: World, key: Key, id: Id, plans: map<Id, Plan>, ids: seq<Id>) {
    forall i: Id :: ActiveAt(w, i, key.proto).Some? && ActiveAt(w, i, key.proto).value.laddr == key.addr ==>
      i == id || (i < id && i in ids && i in plans && plans[i].Start?)
  }

  ghost predicate AllFreeBy(w: World, id: Id, spec: Spec, wanted: set<Key>, plans: map<Id, Plan>, ids: seq<Id>) {
    forall p :: Wants(spec, p) ==>
      Key(spec.endpoint.laddr, p) in wanted && FreeBy(w, Key(spec.endpoint.laddr, p), id, plans, ids)
  }

  lemma AddressesAreFree(s: State, build: Build, desired: map<Id, Desc>, plans: map<Id, Plan>, id: Id)
    requires Tidy(s, build, desired) && Proper(build, desired) && PlansOf(s, build, desired, plans)
    requires id in desired && Binds(plans[id])
    ensures AllFreeBy(Release(s.world, plans), id, Built(build, desired[id]), AddressesOf(build, desired), plans,
                      SortedKeys(plans.Keys))
  {
    hide Release, Inv, Released, SortedKeys;
    ReleaseEffect(s.world, plans);
    var w' := Release(s.world, plans);
    var spec := Built(build, desired[id]);
    forall p | Wants(spec, p)
      ensures Key(spec.endpoint.laddr, p) in AddressesOf(build, desired)
      ensures FreeBy(w', Key(spec.endpoint.laddr, p), id, plans, SortedKeys(plans.Keys))
    {
      forall i: Id | ActiveAt(w', i, p).Some? && ActiveAt(w', i, p).value.laddr == spec.endpoint.laddr
        ensures i == id || (i < id && i in plans && plans[i].Start?)
      {
        assert i in plans;
        assert ReleasedFrom(s.world, s.world, plans, w', i);
        if i != id { AddressFreed(s, build, desired, plans, id, p, i); }
      }
    }
  }

  // ---------------------------------------------------------------- the application

  /** `id` serves `spec`, and has no other slot unless it is left alone and had one in `w0`. */
  ghost predicate Settled(w0: World, w: World, id: Id, spec: Spec, plan: Plan) {
    Serves(w, id, spec) && (plan != Plan.Unchanged || Exactly(w0, id, spec) ==> Exactly(w, id, spec))
  }

  /** Where a generation that began in `w0` stands while the plans of `ids` are still to be applied. */
  ghost predicate OnTrack(w0: World, w: World, env: Env, build: Build, desired: map<Id, Desc>, plans: map<Id, Plan>,
                          ids: seq<Id>) {
    && desired.Keys <= plans.Keys
    && Inv(w, {}) && AllAlive(w) && Calm(env, w.host.tick, AddressesOf(build, desired))
    && (forall i, j :: 0 <= i < j < |ids| ==> ids[i] < ids[j])
    && (forall id :: id in ids && id in desired && Binds(plans[id]) ==>
          AllFreeBy(w, id, Built(build, desired[id]), AddressesOf(build, desired), plans, ids))
    && (forall id :: id in desired && (id !in ids || plans[id] == Plan.Unchanged) ==>
          Settled(w0, w, id, Built(build, desired[id]), plans[id]))
    && (forall id :: id in w.entries ==> id in desired || id in ids)
  }

  /** In calm weather an untouched endpoint keeps every listener. */
  lemma UntouchedKeeps(w: World, w': World, i: Id)
    requires Untouched(w, w', i) && AllAlive(w) && w'.host.exited == w.host.exited
    ensures forall p :: ActiveAt(w', i, p) == ActiveAt(w, i, p)
    ensures forall spec :: Exactly(w, i, spec) ==> Exactly(w', i, spec)
    ensures forall spec :: Serves(w, i, spec) ==> Serves(w', i, spec)
  {
    forall p ensures ActiveAt(w', i, p) == ActiveAt(w, i, p) {
      if i in w.entries && p in w.entries[i].slots {
        assert WeatheredSlot(w.entries[i].slots[p], w'.entries[i].slots[p], w.entries[i].drain.onDelete, w'.host);
        if ActiveAt(w, i, p).Some? { assert ActiveAt(w, i, p).value.cohort !in w.host.exited; }
      }
    }
    forall spec | Serves(w, i, spec) ensures Serves(w', i, spec) {
      forall p ensures if Wants(spec, p) then AlreadyServes(w', i, spec, p) else ActiveAt(w', i, p).None? {
        assert if Wants(spec, p) then AlreadyServes(w, i, spec, p) else ActiveAt(w, i, p).None?;
        if p in w.entries[i].slots {
          assert WeatheredSlot(w.entries[i].slots[p], w'.entries[i].slots[p], w.entries[i].drain.onDelete, w'.host);
        }
      }
    }
    forall spec | Exactly(w, i, spec) ensures Exactly(w', i, spec) {
      forall p ensures if Wants(spec, p) then AlreadyServes(w', i, spec, p) else SlotAt(w', i, p).None? {
        if p in w.entries[i].slots {
          assert WeatheredSlot(w.entries[i].slots[p], w'.entries[i].slots[p], w.entries[i].drain.onDelete, w'.host);
        }
      }
    }
  }

  /** Bringing one endpoint up does not take an address another one is waiting for, and gives up any it had. */
  lemma StillFree(w: World, w': World, build: Build, desired: map<Id, Desc>, plans: map<Id, Plan>, ids: seq<Id>,
                  other: Id)
    requires ids != [] && Proper(build, desired) && ids[0] in desired && other in desired && ids[0] != other
    requires Inv(w', {}) && AllAlive(w) && Only(w, w', ids[0]) && w'.host.exited == w.host.exited
    requires Exactly(w', ids[0], Built(build, desired[ids[0]]))
    requires AllFreeBy(w, other, Built(build, desired[other]), AddressesOf(build, desired), plans, ids)
    ensures AllFreeBy(w', other, Built(build, desired[other]), AddressesOf(build, desired), plans, ids[1..])
  {
    var id := ids[0];
    var spec := Built(build, desired[other]);
    ExactlyServes(w', id, Built(build, desired[id]));
    forall p | Wants(spec, p) ensures FreeBy(w', Key(spec.endpoint.laddr, p), other, plans, ids[1..]) {
      assert !Share(Built(build, desired[id]), spec, p);
      forall i: Id | ActiveAt(w', i, p).Some? && ActiveAt(w', i, p).value.laddr == spec.endpoint.laddr
        ensures i == other || (i < other && i in ids[1..] && i in plans && plans[i].Start?)
      {
        if i == id {
          ActiveInServed(w', id, Built(build, desired[id]), p);
        } else {
          UntouchedKeeps(w, w', i);
        }
      }
    }
  }

  /** When its turn comes, the addresses of an endpoint are free. */
  lemma TurnIsFree(w: World, build: Build, desired: map<Id, Desc>, plans: map<Id, Plan>, ids: seq<Id>)
    requires ids != [] && ids[0] in desired && forall i, j :: 0 <= i < j < |ids| ==> ids[i] < ids[j]
    requires AllFreeBy(w, ids[0], Built(build, desired[ids[0]]), AddressesOf(build, desired), plans, ids)
    ensures AllFree(w, ids[0], Built(build, desired[ids[0]]), AddressesOf(build, desired))
  {
    var spec := Built(build, desired[ids[0]]);
    assert forall i: Id :: i in ids ==> i >= ids[0];
    forall p | Wants(spec, p) ensures Free(w, Key(spec.endpoint.laddr, p), ids[0]) {
      assert FreeBy(w, Key(spec.endpoint.laddr, p), ids[0], plans, ids);
    }
  }

  lemma BindStep(w0: World, w: World, env: Env, build: Build, desired: map<Id, Desc>, plans: map<Id, Plan>,
                 ids: seq<Id>, generation: Generation)
    requires Proper(build, desired)
    requires OnTrack(w0, w, env, build, desired, plans, ids)
    requires ids != [] && ids[0] !in ids[1..] && ids[0] in desired && Binds(plans[ids[0]])
    ensures var (w', os) := Apply(w, env, ids[0], generation, Built(build, desired[ids[0]]));
            Succeeded(os) && OnTrack(w0, w', env, build, desired, plans, ids[1..]) && w'.host.exited == w.host.exited
  {
    hide Apply, Inv, Calm;
    var id := ids[0];
    var spec := Built(build, desired[id]);
    assert Buildable(build, desired[id]);
    TurnIsFree(w, build, desired, plans, ids);
    ServeEndpoint(w, env, id, generation, spec, AddressesOf(build, desired));
    var w' := Apply(w, env, id, generation, spec).0;
    forall x | x in ids[1..] && x in desired && Binds(plans[x])
      ensures AllFreeBy(w', x, Built(build, desired[x]), AddressesOf(build, desired), plans, ids[1..])
    {
      StillFree(w, w', build, desired, plans, ids, x);
    }
    forall x | x in desired && (x !in ids[1..] || plans[x] == Plan.Unchanged)
      ensures Settled(w0, w', x, Built(build, desired[x]), plans[x])
    {
      if x != id {
        UntouchedKeeps(w, w', x);
      } else {
        ExactlyServes(w', id, spec);
      }
    }
    forall x | x in w'.entries ensures x in desired || x in ids[1..] {
      if x != id { assert Untouched(w, w', x); }
    }
  }

  lemma RemoveRefreshedEffect(w: World, id: Id, deadline: Deadline)
    ensures var w' := RemoveRefreshed(w, id, deadline);
            w'.host.exited == w.host.exited && w'.host.tick == w.host.tick
  {
    hide StopSlot;
    StopSlotHost(w, id, Tcp, deadline);
    StopSlotHost(RemoveProto(w, id, Tcp, deadline).0, id, Udp, deadline);
  }

  lemma RemoveOutcomes(w: World, env: Env, id: Id)
    ensures Succeeded(Remove(w, env, id).1)
  {
    hide Refresh, SpawnDrain, Halt, DropSlot;
  }

  /** While no task exits, removing an endpoint disturbs no other listener. */
  lemma QuietRemove(w: World, env: Env, id: Id)
    requires Inv(w, {}) && AllAlive(w) && NoExits(env, w.host.tick)
    ensures var (w', os) := Remove(w, env, id);
            && Succeeded(os) && Inv(w', {}) && AllAlive(w') && NoExits(env, w'.host.tick)
            && Only(w, w', id) && id !in w'.entries && w'.host.exited == w.host.exited
  {
    RemoveInv(w, env, id);
    RemoveFrame(w, env, id);
    RemoveOutcomes(w, env, id);
    QuietRefresh(w, env);
    var w' := Remove(w, env, id).0;
    var w1 := Refresh(w, env);
    assert w'.host.exited == w.host.exited && w'.host.tick >= w1.host.tick by {
      hide Refresh;
      if id in w1.entries {
        RemoveRefreshedEffect(w1, id, w1.entries[id].drain.onDelete);
        assert w' == RemoveRefreshed(w1, id, w1.entries[id].drain.onDelete);
      }
    }
    hide Remove, Inv, Refresh;
    forall i: Id, p | ActiveAt(w', i, p).Some? ensures ActiveAt(w', i, p).value.cohort !in w'.host.exited {
      assert i != id;
      UntouchedKeeps(w, w', i);
    }
  }

  lemma CalmRemove(w: World, env: Env, id: Id, wanted: set<Key>)
    requires Inv(w, {}) && AllAlive(w) && Calm(env, w.host.tick, wanted)
    ensures var (w', os) := Remove(w, env, id);
            && Succeeded(os) && Inv(w', {}) && AllAlive(w') && Calm(env, w'.host.tick, wanted)
            && Only(w, w', id) && id !in w'.entries && w'.host.exited == w.host.exited
  {
    hide Remove, Inv;
    QuietRemove(w, env, id);
  }

  lemma DeleteStep(w0: World, w: World, env: Env, build: Build, desired: map<Id, Desc>, plans: map<Id, Plan>,
                   ids: seq<Id>)
    requires OnTrack(w0, w, env, build, desired, plans, ids)
    requires ids != [] && ids[0] !in desired
    ensures var (w', os) := Remove(w, env, ids[0]);
            Succeeded(os) && OnTrack(w0, w', env, build, desired, plans, ids[1..]) && w'.host.exited == w.host.exited
  {
    hide Remove, Inv, Calm;
    var id := ids[0];
    CalmRemove(w, env, id, AddressesOf(build, desired));
    var w' := Remove(w, env, id).0;
    forall x | x in ids[1..] && x in desired && Binds(plans[x])
      ensures AllFreeBy(w', x, Built(build, desired[x]), AddressesOf(build, desired), plans, ids[1..])
    {
      assert AllFreeBy(w, x, Built(build, desired[x]), AddressesOf(build, desired), plans, ids);
      forall p: Proto, i: Id | ActiveAt(w', i, p).Some? ensures ActiveAt(w', i, p) == ActiveAt(w, i, p) {
        assert i != id;
        UntouchedKeeps(w, w', i);
      }
    }
    forall x | x in desired && (x !in ids[1..] || plans[x] == Plan.Unchanged)
      ensures Settled(w0, w', x, Built(build, desired[x]), plans[x])
    {
      UntouchedKeeps(w, w', x);
    }
    forall x | x in w'.entries ensures x in desired || x in ids[1..] {
      assert Untouched(w, w', x);
    }
  }

  lemma SucceededResults(results: seq<EndpointResult>, id: Id, os: seq<Outcome>)
    requires Succeeded(os) && !AnyResultFailed(results)
    ensures !AnyFailed(os) && !AnyResultFailed(results + IntoResults(id, os))
  {
    forall i | 0 <= i < |results + IntoResults(id, os)|
      ensures (results + IntoResults(id, os))[i].action != Action.Failed
    {
      if i >= |results| { assert os[i - |results|].action != Action.Failed; }
    }
  }

  lemma ReportSucceeds(results: seq<EndpointResult>, id: Id, protos: seq<Proto>)
    requires !AnyResultFailed(results)
    ensures !AnyResultFailed(results + Report(id, protos, Action.Unchanged, None))
  {
    forall i | 0 <= i < |results + Report(id, protos, Action.Unchanged, None)|
      ensures (results + Report(id, protos, Action.Unchanged, None))[i].action != Action.Failed
    {
    }
  }

  /** One plan of a generation that is on track. */
  lemma ApplyPlanStep(s: State, env: Env, build: Build, generation: Generation, candidate: bool,
                      desired: map<Id, Desc>, plans: map<Id, Plan>, p: Progress, ids: seq<Id>)
    requires Tidy(s, build, desired) && Proper(build, desired) && PlansOf(s, build, desired, plans)
    requires OnTrack(s.world, p.world, env, build, desired, plans, ids)
    requires ids != [] && ids[0] !in ids[1..] && ids[0] in plans
    requires p.desired == desired && !AnyResultFailed(p.results)
    ensures var p' := ApplyPlan(s, env, build, generation, candidate, p, ids[0], plans[ids[0]]);
            && OnTrack(s.world, p'.world, env, build, desired, plans, ids[1..])
            && p'.desired == desired && !AnyResultFailed(p'.results) && p'.world.host.exited == p.world.host.exited
  {
    hide Apply, Remove, Inv, Tidy, AnyResultFailed, AnyFailed, Settled, Succeeded;
    var id := ids[0];
    if id !in desired {
      DeleteStep(s.world, p.world, env, build, desired, plans, ids);
      SucceededResults(p.results, id, Remove(p.world, env, id).1);
      assert desired - {id} == desired;
    } else if plans[id] == Plan.Unchanged {
      ReportSucceeds(p.results, id, ProtosOf(p.world, id));
    } else {
      BindStep(s.world, p.world, env, build, desired, plans, ids, generation);
      assert plans[id].built == Built(build, desired[id]);
      SucceededResults(p.results, id, Apply(p.world, env, id, generation, plans[id].built).1);
    }
  }

  lemma {:induction false} ApplyPlansOnTrack(s: State, env: Env, build: Build, generation: Generation,
                                             desired: map<Id, Desc>, plans: map<Id, Plan>, p: Progress, ids: seq<Id>)
    requires Tidy(s, build, desired) && Proper(build, desired) && PlansOf(s, build, desired, plans)
    requires OnTrack(s.world, p.world, env, build, desired, plans, ids)
    requires forall i :: 0 <= i < |ids| ==> ids[i] in plans
    requires forall i, j :: 0 <= i < j < |ids| ==> ids[i] < ids[j]
    requires p.desired == desired && !AnyResultFailed(p.results)
    ensures var p' := ApplyPlans(s, env, build, generation, s.world, plans, p, ids);
            && OnTrack(s.world, p'.world, env, build, desired, plans, [])
            && p'.desired == desired && !AnyResultFailed(p'.results) && p'.world.host.exited == p.world.host.exited
    decreases |ids|
  {
    hide ApplyPlan, Tidy, OnTrack, AnyResultFailed, Proper, PlansOf;
    if ids != [] {
      var c := RestoreCandidate(s.world, plans, ids[0]);
      ApplyPlanStep(s, env, build, generation, c, desired, plans, p, ids);
      var p1 := ApplyPlan(s, env, build, generation, c, p, ids[0], plans[ids[0]]);
      ApplyPlansOnTrack(s, env, build, generation, desired, plans, p1, ids[1..]);
    } else {
      assert ids == [];
    }
  }

  lemma StartsOnTrack(s: State, env: Env, build: Build, desired: map<Id, Desc>, plans: map<Id, Plan>)
    requires Tidy(s, build, desired) && Proper(build, desired) && PlansOf(s, build, desired, plans)
    requires Calm(env, s.world.host.tick, AddressesOf(build, desired))
    ensures OnTrack(s.world, Release(s.world, plans), env, build, desired, plans, SortedKeys(plans.Keys))
    ensures Release(s.world, plans).host.exited == s.world.host.exited
  {
    hide Release, Inv, Released, Calm, SortedKeys;
    ReleaseEffect(s.world, plans);
    var w' := Release(s.world, plans);
    forall i: Id, p | ActiveAt(w', i, p).Some? ensures ActiveAt(w', i, p).value.cohort !in w'.host.exited {
      assert i in plans;
      assert ReleasedFrom(s.world, s.world, plans, w', i);
    }
    forall id | id in desired && Binds(plans[id])
      ensures AllFreeBy(w', id, Built(build, desired[id]), AddressesOf(build, desired), plans,
                        SortedKeys(plans.Keys))
    {
      AddressesAreFree(s, build, desired, plans, id);
    }
    forall id | id in desired && plans[id] == Plan.Unchanged
      ensures Settled(s.world, w', id, Built(build, desired[id]), plans[id])
    {
      UnchangedIsSettled(s, build, desired, plans, id);
    }
    hide AllFreeBy, Settled, Tidy, Proper, ReleasedFrom;
  }

  lemma UnchangedIsSettled(s: State, build: Build, desired: map<Id, Desc>, plans: map<Id, Plan>, id: Id)
    requires Tidy(s, build, desired) && Proper(build, desired) && PlansOf(s, build, desired, plans)
    requires id in desired && id in plans && plans[id] == Plan.Unchanged
    ensures Settled(s.world, Release(s.world, plans), id, Built(build, desired[id]), plans[id])
  {
    hide Release, Inv, Released;
    ReleaseEffect(s.world, plans);
    NeverReleased(s.world, plans, id, Tcp);
    NeverReleased(s.world, plans, id, Udp);
    SameEntryServes(s.world, Release(s.world, plans), id, Built(build, desired[id]));
  }

  lemma SameEntryServes(w: World, w': World, id: Id, spec: Spec)
    requires id in w.entries && id in w'.entries && w'.entries[id] == w.entries[id]
    ensures Serves(w, id, spec) ==> Serves(w', id, spec)
    ensures Exactly(w, id, spec) ==> Exactly(w', id, spec)
  {
    forall p ensures AlreadyServes(w', id, spec, p) == AlreadyServes(w, id, spec, p) && SlotAt(w', id, p) == SlotAt(w,
        id, p) {
    }
    assert forall p :: ActiveAt(w', id, p) == ActiveAt(w, id, p);
  }

  lemma GenerationConverges(s: State, env: Env, build: Build, generation: Generation, endpoints: seq<Desired>)
    requires Tidy(s, build, Submitted(endpoints)) && DistinctIds(endpoints) && Proper(build, Submitted(endpoints))
    requires Calm(env, s.world.host.tick, AddressesOf(build, Submitted(endpoints)))
    ensures var p := ApplyGeneration(s, env, build, generation, endpoints, {});
            && OnTrack(s.world, p.world, env, build, Submitted(endpoints), Plans(s, build, {}, endpoints), [])
            && p.desired == Submitted(endpoints) && !AnyResultFailed(p.results)
            && p.world.host.exited == s.world.host.exited
  {
    hide Release, Inv, OnTrack, ApplyPlans, Diff, Calm, Tidy, Submitted, MarkDuplicates;
    var desired := Submitted(endpoints);
    DiffOfProper(s, build, endpoints);
    NothingCollides(s, build, desired);
    var plans := Plans(s, build, {}, endpoints);
    StartsOnTrack(s, env, build, desired, plans);
    ApplyPlansOnTrack(s, env, build, generation, desired, plans, Progress(Release(s.world, plans), desired, []),
                      SortedKeys(plans.Keys));
  }

  /** The plan of a submitted endpoint. */
  lemma PlannedAs(s: State, build: Build, endpoints: seq<Desired>, id: Id)
    requires Tidy(s, build, Submitted(endpoints)) && DistinctIds(endpoints) && Proper(build, Submitted(endpoints))
    requires id in Submitted(endpoints)
    ensures var plans := Plans(s, build, {}, endpoints);
            && id in plans && plans[id] == PlanFor(s, id, Submitted(endpoints)[id],
                                                   Built(build, Submitted(endpoints)[id]))
            && (Binds(plans[id]) ==> plans[id].built == Built(build, Submitted(endpoints)[id]))
  {
    hide Tidy, Diff, MarkDuplicates, Submitted;
    DiffOfProper(s, build, endpoints);
    NothingCollides(s, build, Submitted(endpoints));
  }

  /** A request that is carried out: the process is ready, the generation new or not yet answered, every
      description up to date, every id submitted once, and the desired state a proper one. */
  ghost predicate Timely(s: State, build: Build, disk: Disk, request: Request) {
    && s.ready && (s.active.Some? ==> s.active.value <= request.generation)
    && (s.active == Some(request.generation) ==> s.last.None?)
    && Unrefreshed(request.endpoints, disk) == {} && DistinctIds(request.endpoints)
    && Proper(build, Wanted(disk, request))
  }

  /** The desired state of a request. */
  ghost function Wanted(disk: Disk, request: Request): map<Id, Desc> {
    Submitted(RefreshAll(request.endpoints, disk))
  }

  /** Convergence in one generation, from whatever the generations before have left of the endpoints it touches. */
  lemma Converges(s: State, env: Env, build: Build, disk: Disk, request: Request)
    requires Tidy(s, build, Wanted(disk, request)) && Timely(s, build, disk, request)
    requires Calm(env, s.world.host.tick, AddressesOf(build, Wanted(disk, request)))
    ensures var (s', reply) := Reconcile(s, env, build, disk, request);
            && reply.Answer? && reply.response.state == Applied && reply.response.generation == request.generation
            && InStep(s', build)
            && s'.applied == Wanted(disk, request)
            && s'.active == Some(request.generation) && !s'.partial && s'.world.host.exited == s.world.host.exited
            && (forall id :: id in s'.applied ==>
                  var spec := Built(build, s'.applied[id]);
                  PlanFor(s, id, s'.applied[id], spec) != Plan.Unchanged || Exactly(s.world, id, spec) ==>
                    Exactly(s'.world, id, spec))
  {
    hide ApplyGeneration, Inv, Calm, Submitted, Plans;
    var endpoints := RefreshAll(request.endpoints, disk);
    GenerationConverges(s, env, build, request.generation, endpoints);
    var s' := Reconcile(s, env, build, disk, request).0;
    forall id | id in s'.applied
      ensures var spec := Built(build, s'.applied[id]);
              && Settled(s.world, s'.world, id, spec, PlanFor(s, id, s'.applied[id], spec))
              && Buildable(build, s'.applied[id])
    {
      PlannedAs(s, build, endpoints, id);
    }
  }

  lemma CleanIsTidy(s: State, build: Build, desired: map<Id, Desc>)
    requires Clean(s, build)
    ensures Tidy(s, build, desired)
  {
    forall id | id in desired && PlanFor(s, id, desired[id], Built(build, desired[id])) == Plan.Unchanged
      ensures Serves(s.world, id, Built(build, desired[id]))
    {
      ExactlyServes(s.world, id, Built(build, desired[id]));
    }
  }

  /** Cleanliness is kept: no slot is left over from what was served before. */
  lemma ConvergesCleanly(s: State, env: Env, build: Build, disk: Disk, request: Request)
    requires Clean(s, build) && Timely(s, build, disk, request)
    requires Calm(env, s.world.host.tick, AddressesOf(build, Wanted(disk, request)))
    ensures var (s', reply) := Reconcile(s, env, build, disk, request);
            && reply.Answer? && reply.response.state == Applied && reply.response.generation == request.generation
            && Clean(s', build)
            && s'.applied == Wanted(disk, request)
            && s'.active == Some(request.generation) && !s'.partial && s'.world.host.exited == s.world.host.exited
  {
    hide Reconcile, Calm, Timely, Wanted;
    CleanIsTidy(s, build, Wanted(disk, request));
    Converges(s, env, build, disk, request);
  }
}
