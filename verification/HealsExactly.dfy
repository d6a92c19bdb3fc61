/** Exactly which states one generation heals, if every listener is found running, and that it has to be. */
module HealsExactly {
  import opened Lifecycle
  import opened Manager
  import opened ManagerInvariant
  import opened ManagerFrame
  import opened ManagerServe
  import opened Reconciliation
  import opened Convergence
  import opened NonInterference
  import opened Healing
  import QuietWeather
  import Turns

  lemma UntouchedServesBefore(w: World, w': World, id: Id, spec: Spec)
    requires Untouched(w, w', id) && Serves(w', id, spec) && AllAlive(w) && w'.host.exited == w.host.exited
    ensures Serves(w, id, spec)
  {
    UntouchedKeeps(w, w', id);
    forall p ensures if Wants(spec, p) then AlreadyServes(w, id, spec, p) else ActiveAt(w, id, p).None? {
      assert if Wants(spec, p) then AlreadyServes(w', id, spec, p) else ActiveAt(w', id, p).None?;
      if p in w.entries[id].slots {
        assert WeatheredSlot(w.entries[id].slots[p], w'.entries[id].slots[p], w.entries[id].drain.onDelete, w'.host);
      }
    }
  }

  /** A proper submission in calm weather that finds every listener running is reached in one generation if and only
      if the endpoints planned as unchanged listen as submitted, and none that is not recorded as applied listens
      where one that comes before it is to listen. */
  lemma HealsExactlyWhenTidy(s: State, env: Env, build: Build, disk: Disk, request: Request)
    requires Inv(s.world, {}) && AllAlive(s.world) && Timely(s, build, disk, request)
    requires Calm(env, s.world.host.tick, AddressesOf(build, Wanted(disk, request)))
    ensures var s' := Reconcile(s, env, build, disk, request).0;
            InStep(s', build) && s'.applied == Wanted(disk, request) <==> Tidy(s, build, Wanted(disk, request))
  {
    hide Reconcile, Wanted, Timely, Inv, Serves, Blocks;
    var s' := Reconcile(s, env, build, disk, request).0;
    var desired := Wanted(disk, request);
    if Tidy(s, build, desired) {
      Converges(s, env, build, disk, request);
    } else if InStep(s', build) && s'.applied == desired {
      OnlyIfServed(s, env, build, disk, request);
      forall id, other, p | id in desired && other in desired && other < id && id !in s.applied
        ensures !Blocks(s.world, id, Built(build, desired[other]), p)
      {
        if Blocks(s.world, id, Built(build, desired[other]), p) {
          OnlyIfUnblocked(s, env, build, disk, request, id, other, p);
        }
      }
    }
  }

  lemma OnlyIfServed(s: State, env: Env, build: Build, disk: Disk, request: Request)
    requires Inv(s.world, {}) && AllAlive(s.world) && Timely(s, build, disk, request)
    requires NoExits(env, s.world.host.tick)
    requires var s' := Reconcile(s, env, build, disk, request).0;
             InStep(s', build) && s'.applied == Wanted(disk, request)
    ensures var desired := Wanted(disk, request);
            forall id :: id in desired && PlanFor(s, id, desired[id], Built(build, desired[id])) == Plan.Unchanged ==>
              Serves(s.world, id, Built(build, desired[id]))
  {
    hide Inv, ApplyGeneration, Content, Submitted, Plans, Serves, Untouched, Proper;
    var s' := Reconcile(s, env, build, disk, request).0;
    var desired := Wanted(disk, request);
    var endpoints := RefreshAll(request.endpoints, disk);
    QuietWeather.GenerationQuiet(s, env, build, request.generation, endpoints);
    forall id | id in desired && PlanFor(s, id, desired[id], Built(build, desired[id])) == Plan.Unchanged
      ensures Serves(s.world, id, Built(build, desired[id]))
    {
      UnchangedStays(s, build, endpoints, id);
      StayingIsUntouched(s, env, build, request.generation, endpoints, {}, id);
      UntouchedServesBefore(s.world, s'.world, id, Built(build, desired[id]));
    }
  }

  // ---------------------------------------------------------------- a listener in the way

  /** What is not recorded as applied is not expected to leave an address. */
  lemma UnrecordedStaysPut(s: State, build: Build, endpoints: seq<Desired>, id: Id, proto: Proto)
    requires id in Diff(s, build, {}, endpoints).desired && id !in s.applied
    ensures !Released(s.world, Plans(s, build, {}, endpoints), id, proto)
  {
    hide Diff, Collides;
    DiffKeys(s, build, {}, endpoints);
    DiffPlans(s, build, {}, endpoints, id);
  }

  /** Untouched, a listener that still runs is the same. */
  lemma StillThere(w: World, w': World, id: Id, proto: Proto)
    requires Untouched(w, w', id)
    ensures ActiveAt(w', id, proto).Some? ==> ActiveAt(w, id, proto) == ActiveAt(w', id, proto)
    ensures ActiveAt(w, id, proto).Some? && ActiveAt(w, id, proto).value.cohort !in w'.host.exited ==>
              ActiveAt(w', id, proto) == ActiveAt(w, id, proto)
  {
    if id in w.entries && proto in w.entries[id].slots {
      assert WeatheredSlot(w.entries[id].slots[proto], w'.entries[id].slots[proto], w.entries[id].drain.onDelete,
                           w'.host);
    }
  }

  lemma UniqueAlive(w: World, i: Id, j: Id, proto: Proto)
    requires Inv(w, {}) && ActiveAt(w, i, proto).Some? && ActiveAt(w, j, proto).Some?
    requires ActiveAt(w, i, proto).value.cohort !in w.host.exited
    requires ActiveAt(w, j, proto).value.cohort !in w.host.exited
    requires ActiveAt(w, i, proto).value.laddr == ActiveAt(w, j, proto).value.laddr
    ensures i == j
  {
    assert Truthful(w, i, proto) && Truthful(w, j, proto);
  }

  lemma {:induction false} PlansInv(s: State, env: Env, build: Build, generation: Generation, w0: World,
                                    plans: map<Id, Plan>, p: Progress, ids: seq<Id>)
    requires Inv(p.world, {}) && forall i :: 0 <= i < |ids| ==> ids[i] in plans
    ensures Inv(ApplyPlans(s, env, build, generation, w0, plans, p, ids).world, {})
    decreases |ids|
  {
    hide ApplyPlan, Inv;
    if ids != [] {
      var c := RestoreCandidate(w0, plans, ids[0]);
      PlanInv(s, env, build, generation, c, p, ids[0], plans[ids[0]]);
      PlansInv(s, env, build, generation, w0, plans,
               ApplyPlan(s, env, build, generation, c, p, ids[0], plans[ids[0]]), ids[1..]);
    }
  }

  /** What a generation has come to when the plan of `ids[k]` has been applied: a later endpoint that is not
      recorded as applied still has its listener, and `ids[k]` has the one it ends up with. */
  lemma AfterTurn(s: State, env: Env, build: Build, generation: Generation, endpoints: seq<Desired>, k: nat, id: Id,
                  proto: Proto) returns (w: World)
    requires Inv(s.world, {}) && NoExits(env, s.world.host.tick)
    requires var plans := Plans(s, build, {}, endpoints);
             k < |SortedKeys(plans.Keys)| && SortedKeys(plans.Keys)[k] < id
    requires id in Diff(s, build, {}, endpoints).desired && id !in s.applied
    requires ActiveAt(s.world, id, proto).Some? && ActiveAt(s.world, id, proto).value.cohort !in s.world.host.exited
    ensures var end := ApplyGeneration(s, env, build, generation, endpoints, {}).world;
            var other := SortedKeys(Plans(s, build, {}, endpoints).Keys)[k];
            && Inv(w, {}) && w.host.exited <= end.host.exited == s.world.host.exited
            && ActiveAt(w, id, proto) == ActiveAt(s.world, id, proto)
            && (ActiveAt(end, other, proto).Some? ==> ActiveAt(w, other, proto) == ActiveAt(end, other, proto))
  {
    hide Inv, Release, Diff, Plans, ApplyPlans, Untouched, NoExits, Released;
    var plans := Plans(s, build, {}, endpoints);
    var p0 := Progress(Release(s.world, plans), Diff(s, build, {}, endpoints).desired, []);
    QuietWeather.GenerationQuiet(s, env, build, generation, endpoints);
    ReleaseEffect(s.world, plans);
    UnrecordedStaysPut(s, build, endpoints, id, proto);
    ReleasedSlot(s.world, plans, id, proto);
    w := Turn(s, env, build, generation, s.world, plans, p0, SortedKeys(plans.Keys), k, id);
    StillThere(w, ApplyGeneration(s, env, build, generation, endpoints, {}).world, SortedKeys(plans.Keys)[k], proto);
    StillThere(p0.world, w, id, proto);
  }

  /** The plans up to that of `ids[k]` do not touch a later endpoint, and those after it do not touch `ids[k]`. */
  lemma Turn(s: State, env: Env, build: Build, generation: Generation, w0: World, plans: map<Id, Plan>, p0: Progress,
             ids: seq<Id>, k: nat, id: Id) returns (w: World)
    requires Inv(p0.world, {}) && (forall i :: 0 <= i < |ids| ==> ids[i] in plans)
    requires forall i, j :: 0 <= i < j < |ids| ==> ids[i] < ids[j]
    requires k < |ids| && ids[k] < id
    ensures var end := ApplyPlans(s, env, build, generation, w0, plans, p0, ids).world;
            && Inv(w, {}) && Untouched(p0.world, w, id)
            && Untouched(w, end, ids[k]) && w.host.exited <= end.host.exited
  {
    hide Inv, ApplyPlan, Untouched, RestoreCandidate;
    assert id !in ids[..k];
    var pk := ApplyPlans(s, env, build, generation, w0, plans, p0, ids[..k]);
    var c := RestoreCandidate(w0, plans, ids[k]);
    var q := ApplyPlan(s, env, build, generation, c, pk, ids[k], plans[ids[k]]);
    Turns.RestLeavesAlone(s, env, build, generation, w0, plans, p0, ids, k, q);
    PlansInv(s, env, build, generation, w0, plans, p0, ids[..k]);
    PlanInv(s, env, build, generation, c, pk, ids[k], plans[ids[k]]);
    ApplyPlansElsewhere(s, env, build, generation, w0, plans, p0, ids[..k], id);
    ApplyPlanElsewhere(s, env, build, generation, c, pk, ids[k], plans[ids[k]], id);
    hide ApplyPlans;
    UntouchedTrans(p0.world, pk.world, q.world, id);
    w := q.world;
  }

  lemma ReleasedSlot(w: World, plans: map<Id, Plan>, id: Id, proto: Proto)
    requires !Released(w, plans, id, proto)
    ensures SlotAt(Release(w, plans), id, proto) == SlotAt(w, id, proto)
  {
    hide ReleaseIds, Released;
    Turns.ReleaseSlot(w, w, plans, SortedKeys(plans.Keys), id, proto);
  }

  /** An endpoint that a listener is in the way of does not get its address. */
  lemma OnlyIfUnblocked(s: State, env: Env, build: Build, disk: Disk, request: Request, id: Id, other: Id,
                        proto: Proto)
    requires Inv(s.world, {}) && AllAlive(s.world) && Timely(s, build, disk, request)
    requires NoExits(env, s.world.host.tick)
    requires var desired := Wanted(disk, request);
             && id in desired && other in desired && other < id && id !in s.applied
             && Blocks(s.world, id, Built(build, desired[other]), proto)
    ensures var s' := Reconcile(s, env, build, disk, request).0;
            !(InStep(s', build) && s'.applied == Wanted(disk, request))
  {
    hide Inv, ApplyGeneration, Content, Submitted, Plans, Serves, Proper, NoExits, Diff;
    var s' := Reconcile(s, env, build, disk, request).0;
    var desired := Wanted(disk, request);
    var endpoints := RefreshAll(request.endpoints, disk);
    DiffOfTimely(s, build, disk, request);
    PlansKeys(s, build, {}, endpoints);
    var ids := SortedKeys(Plans(s, build, {}, endpoints).Keys);
    var k :| 0 <= k < |ids| && ids[k] == other;
    var w := AfterTurn(s, env, build, request.generation, endpoints, k, id, proto);
    if InStep(s', build) && s'.applied == desired {
      var spec := Built(build, desired[other]);
      ServedListener(s'.world, other, spec, proto);
      ActiveInServed(s'.world, other, spec, proto);
      UniqueAlive(w, id, other, proto);
    }
  }

  lemma ServedListener(w: World, id: Id, spec: Spec, proto: Proto)
    requires Serves(w, id, spec) && Wants(spec, proto)
    ensures ActiveAt(w, id, proto).Some?
  {
  }

  lemma DiffOfTimely(s: State, build: Build, disk: Disk, request: Request)
    requires Timely(s, build, disk, request)
    ensures Diff(s, build, {}, RefreshAll(request.endpoints, disk)).desired == Wanted(disk, request)
  {
    hide Diff, Submitted;
    assert DistinctIds(RefreshAll(request.endpoints, disk));
    DiffOfProper(s, build, RefreshAll(request.endpoints, disk));
  }

  // ---------------------------------------------------------------- unseen exits

  /** The listeners have to be found running: one that has exited unseen, of an endpoint that is left unchanged, is
      not brought back, in any weather. */
  lemma UnseenExitIsMissed(s: State, env: Env, build: Build, disk: Disk, request: Request, id: Id, proto: Proto)
    requires Timely(s, build, disk, request) && id in Wanted(disk, request)
    requires var spec := Built(build, Wanted(disk, request)[id]);
             PlanFor(s, id, Wanted(disk, request)[id], spec) == Plan.Unchanged && Wants(spec, proto)
    requires HasExited(s.world, id, proto)
    ensures var s' := Reconcile(s, env, build, disk, request).0;
            !(InStep(s', build) && s'.applied == Wanted(disk, request))
  {
    hide Inv, ApplyGeneration, Content, Submitted, Plans, Proper;
    var endpoints := RefreshAll(request.endpoints, disk);
    var s' := Reconcile(s, env, build, disk, request).0;
    UnchangedStays(s, build, endpoints, id);
    StayingIsUntouched(s, env, build, request.generation, endpoints, {}, id);
    GenerationAges(s, env, build, request.generation, endpoints, id);
    ExitedStaysOut(s.world, s'.world, id, proto);
  }

  lemma ExitedStaysOut(w: World, w': World, id: Id, proto: Proto)
    requires Untouched(w, w', id) && HasExited(w, id, proto) && w.host.exited <= w'.host.exited
    ensures ActiveAt(w', id, proto).None? || HasExited(w', id, proto)
  {
    assert WeatheredSlot(w.entries[id].slots[proto], w'.entries[id].slots[proto], w.entries[id].drain.onDelete,
                         w'.host);
  }

  lemma GenerationAges(s: State, env: Env, build: Build, generation: Generation, endpoints: seq<Desired>, id: Id)
    requires id in Plans(s, build, {}, endpoints) && Stays(Plans(s, build, {}, endpoints)[id])
    ensures Ages(s.world.host, ApplyGeneration(s, env, build, generation, endpoints, {}).world.host)
  {
    hide Plans, ReleaseIds, ApplyPlans, Diff, Untouched, Ages;
    var plans := Plans(s, build, {}, endpoints);
    var ids := SortedKeys(plans.Keys);
    ReleaseIdsFrame(s.world, s.world, plans, ids, id);
    var p := Progress(Release(s.world, plans), Diff(s, build, {}, endpoints).desired, []);
    ApplyPlansElsewhere(s, env, build, generation, s.world, plans, p, ids, id);
    AgesTrans(s.world.host, p.world.host, ApplyPlans(s, env, build, generation, s.world, plans, p, ids).world.host);
  }

  lemma UnchangedStays(s: State, build: Build, endpoints: seq<Desired>, id: Id)
    requires DistinctIds(endpoints) && Proper(build, Submitted(endpoints)) && id in Submitted(endpoints)
    requires PlanFor(s, id, Submitted(endpoints)[id], Built(build, Submitted(endpoints)[id])) == Plan.Unchanged
    ensures id in Plans(s, build, {}, endpoints) && Plans(s, build, {}, endpoints)[id] == Plan.Unchanged
  {
    DiffOfProper(s, build, endpoints);
  }
}
