/** A restart is transparent: restoring the snapshot of a clean state gives a clean state again, and
    the next equivalent submission finds nothing to do. */
module Restart {
  import opened Lifecycle
  import opened Manager
  import opened ManagerInvariant
  import opened ManagerFrame
  import opened ManagerServe
  import opened Reconciliation
  import opened Convergence

  // ---------------------------------------------------------------- restoring

  /** The descriptions of a snapshot over the material on disk now. */
  ghost function Recovered(snapshot: Snapshot, disk: Disk): map<Id, Desc> {
    map id | id in snapshot.endpoints ::
      var digest := disk(snapshot.endpoints[id]);
      Desc(snapshot.endpoints[id], if digest.Some? then digest.value else None)
  }

  ghost predicate Readable(snapshot: Snapshot, disk: Disk) {
    forall id :: id in snapshot.endpoints ==> disk(snapshot.endpoints[id]).Some?
  }

  /** Everything up to `ids` is back, and the addresses of `ids` are free. */
  ghost predicate Recovering(r: Restoring, env: Env, build: Build, desired: map<Id, Desc>, ids: seq<Id>) {
    && Inv(r.world, {}) && AllAlive(r.world) && Calm(env, r.world.host.tick, AddressesOf(build, desired))
    && r.failed == {}
    && r.world.entries.Keys == r.applied.Keys
    && (forall id :: id in r.applied <==> id in desired && id !in ids)
    && (forall id :: id in r.applied ==>
          r.applied[id] == desired[id] && Exactly(r.world, id, Built(build, desired[id])))
  }

  lemma RecoveringFree(r: Restoring, env: Env, build: Build, desired: map<Id, Desc>, ids: seq<Id>, id: Id)
    requires Recovering(r, env, build, desired, ids) && Proper(build, desired) && id in desired && id in ids
    ensures AllFree(r.world, id, Built(build, desired[id]), AddressesOf(build, desired))
  {
    var spec := Built(build, desired[id]);
    forall p | Wants(spec, p) ensures Free(r.world, Key(spec.endpoint.laddr, p), id) {
      forall i: Id | ActiveAt(r.world, i, p).Some? && ActiveAt(r.world, i, p).value.laddr == spec.endpoint.laddr
        ensures i == id
      {
        assert i in r.applied;
        ExactlyServes(r.world, i, Built(build, desired[i]));
        ActiveInServed(r.world, i, Built(build, desired[i]), p);
        assert i != id ==> !Share(Built(build, desired[i]), spec, p);
      }
    }
  }

  lemma RestoreOneRecovers(r: Restoring, env: Env, build: Build, disk: Disk, snapshot: Snapshot, ids: seq<Id>)
    requires Readable(snapshot, disk) && Proper(build, Recovered(snapshot, disk))
    requires ids != [] && ids[0] !in ids[1..] && ids[0] in snapshot.endpoints
    requires Recovering(r, env, build, Recovered(snapshot, disk), ids)
    ensures Recovering(RestoreOne(r, env, build, disk, snapshot.generation, ids[0], snapshot.endpoints[ids[0]]),
                       env, build, Recovered(snapshot, disk), ids[1..])
  {
    hide Inv, Calm, Apply, AddressesOf;
    var id := ids[0];
    var desired := Recovered(snapshot, disk);
    var spec := Built(build, desired[id]);
    assert Buildable(build, desired[id]);
    RecoveringFree(r, env, build, desired, ids, id);
    ServeEndpoint(r.world, env, id, snapshot.generation, spec, AddressesOf(build, desired));
    var (w', os) := Apply(r.world, env, id, snapshot.generation, spec);
    assert !AnyFailed(os);
    var r' := RestoreOne(r, env, build, disk, snapshot.generation, id, snapshot.endpoints[id]);
    assert r' == Restoring(w', r.applied[id := desired[id]], r.failed);
    forall x | x in r'.applied ensures r'.applied[x] == desired[x] && Exactly(w', x, Built(build, desired[x])) {
      if x != id { UntouchedKeeps(r.world, w', x); }
    }
    forall x | x in w'.entries ensures x in r'.applied {
      if x != id { assert Untouched(r.world, w', x); }
    }
  }

  lemma {:induction false} RestoreIdsRecovers(r: Restoring, env: Env, build: Build, disk: Disk, snapshot: Snapshot,
                                              ids: seq<Id>)
    requires Readable(snapshot, disk) && Proper(build, Recovered(snapshot, disk))
    requires forall i :: 0 <= i < |ids| ==> ids[i] in snapshot.endpoints
    requires forall i, j :: 0 <= i < j < |ids| ==> ids[i] != ids[j]
    requires Recovering(r, env, build, Recovered(snapshot, disk), ids)
    ensures Recovering(RestoreIds(r, env, build, disk, snapshot, ids), env, build, Recovered(snapshot, disk), [])
    decreases |ids|
  {
    hide Recovering, RestoreOne, Recovered, Proper;
    if ids != [] {
      RestoreOneRecovers(r, env, build, disk, snapshot, ids);
      RestoreIdsRecovers(RestoreOne(r, env, build, disk, snapshot.generation, ids[0], snapshot.endpoints[ids[0]]),
                         env, build, disk, snapshot, ids[1..]);
    } else {
      assert ids == [];
    }
  }

  lemma EmptyIsClean(policy: DrainPolicy, build: Build)
    ensures Clean(Restarted(policy), build)
  {
  }

  /** Restoring a proper snapshot in calm weather gives a clean state at its generation. */
  lemma RestoreIsClean(policy: DrainPolicy, env: Env, build: Build, disk: Disk, snapshot: Snapshot)
    requires Readable(snapshot, disk) && Proper(build, Recovered(snapshot, disk))
    requires Calm(env, 0, AddressesOf(build, Recovered(snapshot, disk)))
    ensures var s := Restore(Restarted(policy), env, build, disk, snapshot);
            && Clean(s, build) && s.applied == Recovered(snapshot, disk)
            && s.active == Some(snapshot.generation) && s.partial == snapshot.partial && s.ready && s.last.None?
  {
    hide RestoreIds, Recovering, Recovered, Clean, Proper, Calm;
    var s0 := Restarted(policy);
    var ids := SortedKeys(snapshot.endpoints.Keys);
    var r := Restoring(s0.world, s0.applied, {});
    StartsRecovering(policy, env, build, Recovered(snapshot, disk), ids) by { RecoveredKeys(snapshot, disk); }
    RestoreIdsRecovers(r, env, build, disk, snapshot, ids);
    var r' := RestoreIds(r, env, build, disk, snapshot, ids);
    EndsRecovered(r', env, build, Recovered(snapshot, disk), Restore(s0, env, build, disk, snapshot));
  }

  lemma RecoveredKeys(snapshot: Snapshot, disk: Disk)
    ensures Recovered(snapshot, disk).Keys == snapshot.endpoints.Keys
  {
  }

  lemma StartsRecovering(policy: DrainPolicy, env: Env, build: Build, desired: map<Id, Desc>, ids: seq<Id>)
    requires Calm(env, 0, AddressesOf(build, desired)) && forall id :: id in desired ==> id in ids
    ensures Recovering(Restoring(Empty(policy), map[], {}), env, build, desired, ids)
  {
    hide Calm, AddressesOf;
    EmptyIsClean(policy, build);
  }

  lemma EndsRecovered(r: Restoring, env: Env, build: Build, desired: map<Id, Desc>, s: State)
    requires Recovering(r, env, build, desired, []) && Proper(build, desired)
    requires s.world == r.world && s.applied == r.applied
    ensures Clean(s, build) && s.applied == desired && r.failed == {}
  {
    hide Inv, Calm, AddressesOf, Exactly;
  }

  // ---------------------------------------------------------------- persisting

  /** The digests recorded as applied are those of the material on disk. */
  ghost predicate Current(s: State, disk: Disk) {
    forall id :: id in s.applied ==> disk(s.applied[id].config) == Some(s.applied[id].digest)
  }

  lemma RecoversWhatWasApplied(s: State, disk: Disk)
    requires Current(s, disk)
    ensures Readable(SnapshotOf(s), disk) && Recovered(SnapshotOf(s), disk) == s.applied
  {
  }

  /** In a clean state no two endpoints ask for the same address. */
  lemma CleanIsProper(s: State, build: Build)
    requires Clean(s, build)
    ensures Proper(build, s.applied)
  {
    forall a, b, p | a in s.applied && b in s.applied && a != b
      ensures !Share(Built(build, s.applied[a]), Built(build, s.applied[b]), p)
    {
      if Share(Built(build, s.applied[a]), Built(build, s.applied[b]), p) {
        assert AlreadyServes(s.world, a, Built(build, s.applied[a]), p);
        assert AlreadyServes(s.world, b, Built(build, s.applied[b]), p);
        assert Truthful(s.world, a, p) && Truthful(s.world, b, p);
        UniqueListener(s.world, a, b, p);
      }
    }
  }

  /** Restart transparency, first half: persist a clean state, restart, restore. */
  lemma RestartIsTransparent(s: State, policy: DrainPolicy, env: Env, build: Build, disk: Disk)
    requires Clean(s, build) && Current(s, disk) && s.active.Some?
    requires Calm(env, 0, AddressesOf(build, s.applied))
    ensures var s' := Restore(Restarted(policy), env, build, disk, SnapshotOf(s));
            && Clean(s', build) && s'.applied == s.applied && s'.active == s.active
            && s'.partial == s.partial && s'.ready && s'.last.None?
  {
    hide Clean, Restore, Calm, Proper;
    RecoversWhatWasApplied(s, disk);
    CleanIsProper(s, build);
    RestoreIsClean(policy, env, build, disk, SnapshotOf(s));
  }

  // ---------------------------------------------------------------- resubmitting

  ghost predicate AllUnchanged(plans: map<Id, Plan>) {
    forall id :: id in plans ==> plans[id] == Plan.Unchanged
  }

  lemma {:induction false} NothingToRelease(w: World, w0: World, plans: map<Id, Plan>, ids: seq<Id>)
    requires AllUnchanged(plans)
    ensures ReleaseIds(w, w0, plans, ids) == w
    decreases |ids|
  {
    if ids != [] { NothingToRelease(w, w0, plans, ids[1..]); }
  }

  ghost predicate OnlyUnchanged(results: seq<EndpointResult>) {
    forall i :: 0 <= i < |results| ==> results[i].action == Action.Unchanged
  }

  lemma {:induction false} NothingToApply(s: State, env: Env, build: Build, generation: Generation, w0: World,
                                          plans: map<Id, Plan>,
                                          p: Progress, ids: seq<Id>)
    requires AllUnchanged(plans) && (forall i :: 0 <= i < |ids| ==> ids[i] in plans) && OnlyUnchanged(p.results)
    ensures var p' := ApplyPlans(s, env, build, generation, w0, plans, p, ids);
            p'.world == p.world && p'.desired == p.desired && OnlyUnchanged(p'.results)
    decreases |ids|
  {
    if ids != [] {
      var p1 := p.(results := p.results + Report(ids[0], ProtosOf(p.world, ids[0]), Action.Unchanged, None));
      assert ApplyPlan(s, env, build, generation, RestoreCandidate(w0, plans, ids[0]), p, ids[0], plans[ids[0]]) == p1;
      hide ApplyPlan, RestoreCandidate;
      NothingToApply(s, env, build, generation, w0, plans, p1, ids[1..]);
    }
  }

  lemma PlannedUnchanged(s: State, build: Build, endpoints: seq<Desired>)
    requires DistinctIds(endpoints) && Submitted(endpoints) == s.applied && s.world.entries.Keys <= s.applied.Keys
    requires forall id :: id in s.applied ==>
               Buildable(build, s.applied[id]) && AllRunning(s.world, id, Built(build, s.applied[id]))
    ensures AllUnchanged(Plans(s, build, {}, endpoints)) && Diff(s, build, {}, endpoints).desired == s.applied
  {
    DiffOfProper(s, build, endpoints);
    hide Diff, Submitted;
    assert AllUnchanged(Planned(s, build, s.applied));
  }

  /** An endpoint whose description is the applied one and whose protocols all have a listener is left alone,
      whatever these listeners serve: the answer reports only `Unchanged`, and the world stays as it was. */
  lemma RunningIsTrusted(s: State, env: Env, build: Build, disk: Disk, request: Request)
    requires s.ready && (s.active.Some? ==> s.active.value <= request.generation)
    requires s.active == Some(request.generation) ==> s.last.None?
    requires Unrefreshed(request.endpoints, disk) == {} && DistinctIds(request.endpoints)
    requires Submitted(RefreshAll(request.endpoints, disk)) == s.applied && s.world.entries.Keys <= s.applied.Keys
    requires forall id :: id in s.applied ==>
               Buildable(build, s.applied[id]) && AllRunning(s.world, id, Built(build, s.applied[id]))
    ensures var (s', reply) := Reconcile(s, env, build, disk, request);
            && reply.Answer? && reply.response.state == Applied && OnlyUnchanged(reply.response.results)
            && s'.world == s.world && s'.applied == s.applied && s'.active == Some(request.generation)
  {
    hide Diff, Plans, ReleaseIds, ApplyPlans, Submitted, AllUnchanged;
    var endpoints := RefreshAll(request.endpoints, disk);
    var plans := Plans(s, build, {}, endpoints);
    PlannedUnchanged(s, build, endpoints);
    var ids := SortedKeys(plans.Keys);
    NothingToRelease(s.world, s.world, plans, ids);
    NothingToApply(s, env, build, request.generation, s.world, plans, Progress(s.world, s.applied, []), ids);
  }

  /** Restart transparency, second half: submitting what is applied, in any weather, reports only
      `Unchanged` and leaves the whole world exactly as it was. */
  lemma ResubmittingIsUnchanged(s: State, env: Env, build: Build, disk: Disk, request: Request)
    requires Clean(s, build) && s.ready && (s.active.Some? ==> s.active.value <= request.generation)
    requires s.active == Some(request.generation) ==> s.last.None?
    requires Unrefreshed(request.endpoints, disk) == {} && DistinctIds(request.endpoints)
    requires Submitted(RefreshAll(request.endpoints, disk)) == s.applied
    ensures var (s', reply) := Reconcile(s, env, build, disk, request);
            && reply.Answer? && reply.response.state == Applied && OnlyUnchanged(reply.response.results)
            && s'.world == s.world && s'.applied == s.applied && s'.active == Some(request.generation)
  {
    forall id | id in s.applied ensures AllRunning(s.world, id, Built(build, s.applied[id])) {
      var spec := Built(build, s.applied[id]);
      assert forall p :: Wants(spec, p) ==> AlreadyServes(s.world, id, spec, p);
      assert Wants(spec, Tcp) == spec.tcp && Wants(spec, Udp) == spec.udp;
    }
    hide Reconcile, Inv, Submitted;
    RunningIsTrusted(s, env, build, disk, request);
  }

  /** Restart transparency: persist a clean state, restart, restore, and submit the same descriptions again
      at the same or a later generation: every listener of the restored process stays, and every answer is
      `Unchanged`. */
  lemma RestartThenResubmit(s: State, policy: DrainPolicy, env: Env, later: Env, build: Build, disk: Disk,
                            request: Request)
    requires Clean(s, build) && Current(s, disk) && s.active.Some?
    requires Calm(env, 0, AddressesOf(build, s.applied))
    requires s.active.value <= request.generation && DistinctIds(request.endpoints)
    requires Unrefreshed(request.endpoints, disk) == {} && Submitted(RefreshAll(request.endpoints, disk)) == s.applied
    ensures var restored := Restore(Restarted(policy), env, build, disk, SnapshotOf(s));
            var (s', reply) := Reconcile(restored, later, build, disk, request);
            && reply.Answer? && reply.response.state == Applied && OnlyUnchanged(reply.response.results)
            && s'.world == restored.world && s'.applied == s.applied && Clean(s', build)
  {
    hide Restore, Reconcile, Submitted, Calm;
    RestartIsTransparent(s, policy, env, build, disk);
    ResubmittingIsUnchanged(Restore(Restarted(policy), env, build, disk, SnapshotOf(s)), later, build, disk, request);
  }
}
