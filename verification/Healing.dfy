/** What a later generation heals. A generation brings every endpoint it starts or replaces to what was submitted,
    whatever state it was left in, and trusts the endpoints it leaves unchanged. So it heals exactly when those
    listen as they should; and they do after every generation, whatever exits and however many of its binds fail,
    except one in which an endpoint that was applied has one protocol changed and the other refused. */
module Healing {
  import opened Lifecycle
  import opened Manager
  import opened ManagerInvariant
  import opened ManagerFrame
  import opened ManagerServe
  import opened ManagerTries
  import opened Reconciliation
  import opened Convergence
  import opened NonInterference
  import opened ReconcileRuns
  import Turns
  import Replay

  // ---------------------------------------------------------------- one generation

  /** Every listener is that of an applied endpoint, and an endpoint with every listener its description asks for
      listens exactly as it says. Others may be half up, or down. */
  ghost predicate Steady(s: State, build: Build) {
    Inv(s.world, {}) && forall id: Id :: SteadyAt(s.world, s.applied, build, id)
  }

  ghost predicate SteadyAt(w: World, applied: map<Id, Desc>, build: Build, id: Id) {
    && (Serving(w, id) ==> id in applied)
    && (id in applied ==> Upright(w, id, build, applied[id]))
  }

  ghost predicate Upright(w: World, id: Id, build: Build, d: Desc) {
    Buildable(build, d) && AllRunning(w, id, Built(build, d)) ==> Serves(w, id, Built(build, d))
  }

  /** A steady state is one every generation can start from that finds its listeners running. */
  lemma SteadyIsTidy(s: State, build: Build, desired: map<Id, Desc>)
    requires Steady(s, build) && AllAlive(s.world) && Proper(build, desired)
    ensures Tidy(s, build, desired)
  {
    forall id: Id, p | ActiveAt(s.world, id, p).Some? ensures id in s.applied {
      assert SteadyAt(s.world, s.applied, build, id);
      assert p == Tcp || p == Udp;
    }
    assert Unblocked(s, build, desired);
    forall id | id in desired && PlanFor(s, id, desired[id], Built(build, desired[id])) == Plan.Unchanged
      ensures Serves(s.world, id, Built(build, desired[id]))
    {
      assert SteadyAt(s.world, s.applied, build, id);
    }
  }

  lemma InStepIsSteady(s: State, build: Build)
    requires InStep(s, build)
    ensures Steady(s, build)
  {
    forall id: Id ensures SteadyAt(s.world, s.applied, build, id) {
    }
  }

  lemma ServingIsUpright(w: World, id: Id, build: Build, d: Desc)
    requires Serves(w, id, Built(build, d))
    ensures Upright(w, id, build, d)
  {
  }

  lemma UprightKept(w: World, w': World, id: Id, build: Build, d: Desc)
    requires Upright(w, id, build, d) && Kept(w, w', id) && id in w'.entries
    ensures Upright(w', id, build, d)
  {
    var spec := Built(build, d);
    if Buildable(build, d) && AllRunning(w', id, spec) {
      assert KeptSlot(w, w', id, Tcp) && KeptSlot(w, w', id, Udp);
      assert Wants(spec, Tcp) == spec.tcp && Wants(spec, Udp) == spec.udp;
      forall p ensures if Wants(spec, p) then AlreadyServes(w', id, spec, p) else ActiveAt(w', id, p).None? {
        assert p == Tcp || p == Udp;
        assert if Wants(spec, p) then AlreadyServes(w, id, spec, p) else ActiveAt(w, id, p).None?;
      }
    }
  }

  lemma UntouchedIsSteady(w: World, w': World, applied: map<Id, Desc>, build: Build, id: Id)
    requires Untouched(w, w', id) && SteadyAt(w, applied, build, id)
    ensures SteadyAt(w', applied, build, id)
  {
    UntouchedIsKept(w, w', id);
    assert KeptSlot(w, w', id, Tcp) && KeptSlot(w, w', id, Udp);
    if id in applied {
      if id in w'.entries {
        UprightKept(w, w', id, build, applied[id]);
      } else {
        assert Upright(w', id, build, applied[id]);
      }
    }
  }

  // ---------------------------------------------------------------- the plan of one endpoint

  /** An endpoint at the moment its own plan is applied: other plans and the hand-off may have stopped its
      listeners. */
  ghost predicate Due(s: State, build: Build, p: Progress, id: Id, plan: Plan) {
    && Kept(s.world, p.world, id) && (id in p.world.entries ==> id in s.world.entries)
    && SteadyAt(s.world, s.applied, build, id)
    && PlannedFrom(s, build, p.desired, id, plan)
  }

  lemma DueIsIdle(s: State, build: Build, p: Progress, id: Id, plan: Plan)
    requires Due(s, build, p, id, plan) && id !in s.applied
    ensures !Serving(p.world, id)
  {
    assert KeptSlot(s.world, p.world, id, Tcp) && KeptSlot(s.world, p.world, id, Udp);
  }

  lemma StaySteady(s: State, env: Env, build: Build, generation: Generation, candidate: bool, p: Progress, id: Id,
                   plan: Plan)
    requires Due(s, build, p, id, plan) && Stays(plan)
    ensures var p' := ApplyPlan(s, env, build, generation, candidate, p, id, plan);
            SteadyAt(p'.world, p'.desired, build, id)
  {
    var w := p.world;
    assert KeptSlot(s.world, w, id, Tcp) && KeptSlot(s.world, w, id, Udp);
    if id in s.applied && id in w.entries {
      UprightKept(s.world, w, id, build, s.applied[id]);
    }
  }

  /** Every listener `id` has is one that `spec` asks for. */
  ghost predicate Loyal(w: World, id: Id, spec: Spec) {
    forall p :: ActiveAt(w, id, p).Some? ==> Wants(spec, p) && AlreadyServes(w, id, spec, p)
  }

  /** The submission repeats what is applied of `id`, and what listens for it is of that description. */
  ghost predicate Repeats(s: State, build: Build, desired: map<Id, Desc>, id: Id) {
    && id in s.applied && id in desired && desired[id] == s.applied[id]
    && Loyal(s.world, id, Built(build, desired[id]))
  }

  /** The results of an endpoint that was applied before do not report a change beside a failure, unless the
      submission only repeats it. */
  ghost predicate Whole(s: State, build: Build, desired: map<Id, Desc>, results: seq<EndpointResult>) {
    forall i, j :: 0 <= i < |results| && 0 <= j < |results| && results[i].id == results[j].id
                   && results[i].id in s.applied && !Repeats(s, build, desired, results[i].id)
                   && results[i].action == Action.Failed ==>
                     results[j].action !in {Created, Updated}
  }

  lemma StartSteady(s: State, env: Env, build: Build, generation: Generation, candidate: bool, p: Progress, id: Id,
                    built: Spec)
    requires Due(s, build, p, id, Start(built))
    ensures var p' := ApplyBinding(s, env, build, generation, candidate, p, id, built);
            SteadyAt(p'.world, p'.desired, build, id)
  {
    hide Apply, Inv, Exactly, Serves;
    DueIsIdle(s, build, p, id, Start(built));
    TryEndpoint(p.world, env, id, generation, built);
    var (w1, os) := Apply(p.world, env, id, generation, built);
    if !AnyFailed(os) {
      ExactlyServes(w1, id, built);
    }
    assert Built(build, p.desired[id]) == built;
    assert Upright(w1, id, build, p.desired[id]);
  }

  /** A replacement that fails and leaves a listener: what was applied stays applied. */
  lemma KeepSteady(s: State, build: Build, p: Progress, id: Id, plan: Plan, w1: World)
    requires Due(s, build, p, id, plan) && id in s.applied && Kept(p.world, w1, id)
    ensures Upright(w1, id, build, s.applied[id])
  {
    KeptTrans(s.world, p.world, w1, id);
    if id in w1.entries {
      UprightKept(s.world, w1, id, build, s.applied[id]);
    } else {
      assert !Serving(w1, id);
    }
  }

  /** A released endpoint put back. */
  lemma RestoredSteady(w: World, env: Env, build: Build, id: Id, generation: Generation, d: Desc, built: Spec)
    requires build(d) == Some(built) && !Serving(w, id)
    ensures Upright(Apply(w, env, id, generation, built).0, id, build, d)
  {
    hide Apply, Inv, Exactly, Serves;
    TryEndpoint(w, env, id, generation, built);
    var (w1, os) := Apply(w, env, id, generation, built);
    if !AnyFailed(os) {
      ExactlyServes(w1, id, built);
    }
  }

  lemma LoyalIsUpright(w: World, id: Id, build: Build, d: Desc)
    requires Loyal(w, id, Built(build, d))
    ensures Upright(w, id, build, d)
  {
    var spec := Built(build, d);
    if Buildable(build, d) && AllRunning(w, id, spec) {
      assert Wants(spec, Tcp) == spec.tcp && Wants(spec, Udp) == spec.udp;
      forall p ensures if Wants(spec, p) then AlreadyServes(w, id, spec, p) else ActiveAt(w, id, p).None? {
        assert p == Tcp || p == Udp;
      }
    }
  }

  /** Repeating what is applied of an endpoint leaves its listeners of that description, whichever binds fail. */
  lemma RepeatSteady(s: State, build: Build, p: Progress, id: Id, plan: Plan, r: (World, seq<Outcome>), built: Spec)
    requires Due(s, build, p, id, plan) && Repeats(s, build, p.desired, id) && built == Built(build, p.desired[id])
    requires TriedEndpoint(p.world, r, id, built)
    ensures Upright(r.0, id, build, s.applied[id])
  {
    forall q | ActiveAt(r.0, id, q).Some? ensures Wants(built, q) && AlreadyServes(r.0, id, built, q) {
      assert KeptSlot(s.world, p.world, id, q);
      assert KeptSlot(p.world, r.0, id, q) || (Wants(built, q) && AlreadyServes(r.0, id, built, q));
    }
    LoyalIsUpright(r.0, id, build, s.applied[id]);
  }

  lemma ReplaceSteady(s: State, env: Env, build: Build, generation: Generation, candidate: bool, p: Progress, id: Id,
                      built: Spec)
    requires Due(s, build, p, id, Replace(built))
    requires Mixed(Apply(p.world, env, id, generation, built).1) ==> Repeats(s, build, p.desired, id)
    ensures var p' := ApplyBinding(s, env, build, generation, candidate, p, id, built);
            SteadyAt(p'.world, p'.desired, build, id)
  {
    hide Apply, Exactly, Serves, AllRunning, Upright, Loyal;
    TryEndpoint(p.world, env, id, generation, built);
    var (w1, os) := Apply(p.world, env, id, generation, built);
    var previous := s.applied[id];
    if !AnyFailed(os) {
      ExactlyServes(w1, id, built);
      ServingIsUpright(w1, id, build, p.desired[id]);
    } else {
      if Mixed(os) {
        RepeatSteady(s, build, p, id, Replace(built), (w1, os), built);
      } else {
        KeepSteady(s, build, p, id, Replace(built), w1);
      }
      if !Serving(w1, id) && build(previous).Some? {
        RestoredSteady(w1, env, build, id, generation, previous, build(previous).value);
      }
    }
  }

  // ---------------------------------------------------------------- all plans

  /** Results are only added; a later repair may note on one that the listener is back. */
  ghost predicate Extends(results: seq<EndpointResult>, more: seq<EndpointResult>) {
    && |results| <= |more|
    && forall i :: 0 <= i < |results| ==> more[i].id == results[i].id && more[i].action == results[i].action
  }

  lemma PlanExtends(s: State, env: Env, build: Build, generation: Generation, candidate: bool, p: Progress, id: Id,
                    plan: Plan)
    ensures var p' := ApplyPlan(s, env, build, generation, candidate, p, id, plan);
            && Extends(p.results, p'.results)
            && (Binds(plan) ==>
                  Extends(p.results + IntoResults(id, Apply(p.world, env, id, generation, plan.built).1), p'.results))
  {
    hide Apply, Remove;
  }

  lemma {:induction false} PlansExtend(s: State, env: Env, build: Build, generation: Generation, w0: World,
                                       plans: map<Id, Plan>, p: Progress, ids: seq<Id>)
    requires forall i :: 0 <= i < |ids| ==> ids[i] in plans
    ensures Extends(p.results, ApplyPlans(s, env, build, generation, w0, plans, p, ids).results)
    decreases |ids|
  {
    hide ApplyPlan;
    if ids != [] {
      var c := RestoreCandidate(w0, plans, ids[0]);
      PlanExtends(s, env, build, generation, c, p, ids[0], plans[ids[0]]);
      PlansExtend(s, env, build, generation, w0, plans,
                  ApplyPlan(s, env, build, generation, c, p, ids[0], plans[ids[0]]), ids[1..]);
    }
  }

  lemma ExtendsTrans(a: seq<EndpointResult>, b: seq<EndpointResult>, c: seq<EndpointResult>)
    requires Extends(a, b) && Extends(b, c)
    ensures Extends(a, c)
  {
  }

  lemma ResultsOf(results: seq<EndpointResult>, id: Id, os: seq<Outcome>, end: seq<EndpointResult>, k: nat)
    requires Extends(results + IntoResults(id, os), end) && k < |os|
    ensures |results| + k < |end| && end[|results| + k].id == id && end[|results| + k].action == os[k].action
  {
    assert (results + IntoResults(id, os))[|results| + k] == IntoResults(id, os)[k];
  }

  /** A change beside a failure shows in the results. */
  lemma MixedShows(s: State, build: Build, desired: map<Id, Desc>, results: seq<EndpointResult>, id: Id,
                   os: seq<Outcome>, end: seq<EndpointResult>)
    requires Extends(results + IntoResults(id, os), end) && id in s.applied && Whole(s, build, desired, end)
    ensures Mixed(os) ==> Repeats(s, build, desired, id)
  {
    hide Repeats, Extends;
    if Mixed(os) {
      var i :| 0 <= i < |os| && os[i].action == Action.Failed;
      var j :| 0 <= j < |os| && os[j].action in {Created, Updated};
      ResultsOf(results, id, os, end, i);
      ResultsOf(results, id, os, end, j);
    }
  }

  /** Where a generation that began with the submission `desired` stands while the plans of `ids` are still to be
      applied. */
  ghost predicate Midway(s: State, build: Build, desired: map<Id, Desc>, plans: map<Id, Plan>, p: Progress,
                         ids: seq<Id>) {
    && Inv(p.world, {})
    && (forall id :: id in ids ==>
          && id in plans && Due(s, build, p, id, plans[id])
          && (id in p.desired <==> id in desired) && (id in desired ==> p.desired[id] == desired[id]))
    && (forall id: Id :: id !in ids ==> SteadyAt(p.world, p.desired, build, id))
  }

  /** The plan of one endpoint leaves it steady. */
  lemma PlanSteady(s: State, env: Env, build: Build, generation: Generation, candidate: bool,
                   desired: map<Id, Desc>, p: Progress, id: Id, plan: Plan, end: seq<EndpointResult>)
    requires Due(s, build, p, id, plan) && Whole(s, build, desired, end)
    requires (id in p.desired <==> id in desired) && (id in desired ==> p.desired[id] == desired[id])
    requires Extends(ApplyPlan(s, env, build, generation, candidate, p, id, plan).results, end)
    ensures var p' := ApplyPlan(s, env, build, generation, candidate, p, id, plan);
            SteadyAt(p'.world, p'.desired, build, id)
  {
    hide ApplyBinding, Remove, Upright, SteadyAt, Loyal;
    match plan {
      case Start(built) => StartSteady(s, env, build, generation, candidate, p, id, built);
      case Replace(built) =>
        PlanExtends(s, env, build, generation, candidate, p, id, plan);
        var os := Apply(p.world, env, id, generation, built).1;
        hide Apply;
        ExtendsTrans(p.results + IntoResults(id, os),
                     ApplyPlan(s, env, build, generation, candidate, p, id, plan).results, end);
        MixedShows(s, build, desired, p.results, id, os, end);
        ReplaceSteady(s, env, build, generation, candidate, p, id, built);
      case Delete => RemovedIsSteady(s, env, build, p, id);
      case _ => StaySteady(s, env, build, generation, candidate, p, id, plan);
    }
  }

  lemma RemovedIsSteady(s: State, env: Env, build: Build, p: Progress, id: Id)
    ensures SteadyAt(Remove(p.world, env, id).0, p.desired - {id}, build, id)
  {
    RemoveFrame(p.world, env, id);
    hide Remove;
  }

  lemma PlanInv(s: State, env: Env, build: Build, generation: Generation, candidate: bool, p: Progress, id: Id,
                plan: Plan)
    requires Inv(p.world, {})
    ensures Inv(ApplyPlan(s, env, build, generation, candidate, p, id, plan).world, {})
  {
    hide Apply, Remove, Inv;
    if Binds(plan) {
      ApplyInv(p.world, env, id, generation, plan.built);
      var w1 := Apply(p.world, env, id, generation, plan.built).0;
      var previous := Lookup(s.applied, id);
      if previous.Some? && build(previous.value).Some? {
        ApplyInv(w1, env, id, generation, build(previous.value).value);
      }
    } else if plan == Delete {
      RemoveInv(p.world, env, id);
    }
  }

  /** An endpoint that is still due stays due while another plan is applied. */
  lemma DueStays(s: State, build: Build, p: Progress, p': Progress, id: Id, plan: Plan)
    requires Due(s, build, p, id, plan) && Untouched(p.world, p'.world, id)
    requires (id in p.desired <==> id in p'.desired) && (id in p.desired ==> p'.desired[id] == p.desired[id])
    ensures Due(s, build, p', id, plan)
  {
    UntouchedIsKept(p.world, p'.world, id);
    KeptTrans(s.world, p.world, p'.world, id);
  }

  lemma SteadyElsewhere(p: Progress, p': Progress, build: Build, id: Id)
    requires SteadyAt(p.world, p.desired, build, id) && Untouched(p.world, p'.world, id)
    requires (id in p.desired <==> id in p'.desired) && (id in p.desired ==> p'.desired[id] == p.desired[id])
    ensures SteadyAt(p'.world, p'.desired, build, id)
  {
    UntouchedIsSteady(p.world, p'.world, p.desired, build, id);
  }

  lemma PlanMidway(s: State, env: Env, build: Build, generation: Generation, candidate: bool,
                   desired: map<Id, Desc>, plans: map<Id, Plan>, p: Progress, ids: seq<Id>,
                   end: seq<EndpointResult>)
    requires Midway(s, build, desired, plans, p, ids) && ids != [] && ids[0] !in ids[1..]
    requires Whole(s, build, desired, end)
    requires Extends(ApplyPlan(s, env, build, generation, candidate, p, ids[0], plans[ids[0]]).results, end)
    ensures Midway(s, build, desired, plans,
                   ApplyPlan(s, env, build, generation, candidate, p, ids[0], plans[ids[0]]), ids[1..])
  {
    hide ApplyPlan, Inv, Due, SteadyAt, Untouched, Whole, Extends;
    var id := ids[0];
    var p' := ApplyPlan(s, env, build, generation, candidate, p, id, plans[id]);
    PlanInv(s, env, build, generation, candidate, p, id, plans[id]);
    PlanSteady(s, env, build, generation, candidate, desired, p, id, plans[id], end);
    ApplyPlanDesired(s, env, build, generation, candidate, p, id, plans[id]);
    forall x: Id | x != id ensures Untouched(p.world, p'.world, x) {
      ApplyPlanElsewhere(s, env, build, generation, candidate, p, id, plans[id], x);
    }
    forall x | x in ids[1..] ensures x in plans && Due(s, build, p', x, plans[x]) {
      DueStays(s, build, p, p', x, plans[x]);
    }
    forall x: Id | x !in ids[1..] ensures SteadyAt(p'.world, p'.desired, build, x) {
      if x != id { SteadyElsewhere(p, p', build, x); }
    }
  }

  lemma {:induction false} PlansMidway(s: State, env: Env, build: Build, generation: Generation, w0: World,
                                       desired: map<Id, Desc>, plans: map<Id, Plan>, p: Progress, ids: seq<Id>)
    requires Midway(s, build, desired, plans, p, ids)
    requires forall i :: 0 <= i < |ids| ==> ids[i] in plans
    requires forall i, j :: 0 <= i < j < |ids| ==> ids[i] != ids[j]
    requires Whole(s, build, desired, ApplyPlans(s, env, build, generation, w0, plans, p, ids).results)
    ensures Midway(s, build, desired, plans, ApplyPlans(s, env, build, generation, w0, plans, p, ids), [])
    decreases |ids|
  {
    hide ApplyPlan, Midway, Whole, Extends;
    if ids != [] {
      var c := RestoreCandidate(w0, plans, ids[0]);
      var p1 := ApplyPlan(s, env, build, generation, c, p, ids[0], plans[ids[0]]);
      var end := ApplyPlans(s, env, build, generation, w0, plans, p, ids).results;
      PlansExtend(s, env, build, generation, w0, plans, p1, ids[1..]);
      PlanMidway(s, env, build, generation, c, desired, plans, p, ids, end);
      PlansMidway(s, env, build, generation, w0, desired, plans, p1, ids[1..]);
    } else {
      assert ids == [];
    }
  }

  // ---------------------------------------------------------------- a generation

  lemma StartsMidway(s: State, build: Build, endpoints: seq<Desired>, unrefreshed: set<Id>)
    requires Steady(s, build)
    ensures var plans := Plans(s, build, unrefreshed, endpoints);
            var desired := Diff(s, build, unrefreshed, endpoints).desired;
            Midway(s, build, desired, plans, Progress(Release(s.world, plans), desired, []), SortedKeys(plans.Keys))
  {
    hide Inv, Release, Diff, Plans, SteadyAt, Kept;
    var plans := Plans(s, build, unrefreshed, endpoints);
    var p := Progress(Release(s.world, plans), Diff(s, build, unrefreshed, endpoints).desired, []);
    ReleaseEffect(s.world, plans);
    PlansKeys(s, build, unrefreshed, endpoints);
    forall id | id in plans ensures Due(s, build, p, id, plans[id]) {
      ReleaseKeeps(s.world, plans, id);
      PlansAreFrom(s, build, unrefreshed, endpoints, id);
    }
    forall id: Id | id !in plans ensures SteadyAt(p.world, p.desired, build, id) {
      AbsentIsSteady(p.world, p.desired, build, id);
    }
  }

  lemma ReleaseAlive(w: World, plans: map<Id, Plan>)
    requires AllAlive(w)
    ensures AllAlive(Release(w, plans))
  {
    hide ReleaseIds;
    var w' := Release(w, plans);
    forall i: Id, p | ActiveAt(w', i, p).Some? ensures ActiveAt(w', i, p).value.cohort !in w'.host.exited {
      Turns.ReleaseSlot(w, w, plans, SortedKeys(plans.Keys), i, p);
      assert ActiveAt(w, i, p) == ActiveAt(w', i, p);
    }
  }

  lemma ReleaseKeeps(w: World, plans: map<Id, Plan>, id: Id)
    ensures Kept(w, Release(w, plans), id)
  {
    hide ReleaseIds;
    forall p ensures KeptSlot(w, Release(w, plans), id, p) {
      Turns.ReleaseSlot(w, w, plans, SortedKeys(plans.Keys), id, p);
    }
  }

  lemma AbsentIsSteady(w: World, applied: map<Id, Desc>, build: Build, id: Id)
    requires id !in w.entries && id !in applied
    ensures SteadyAt(w, applied, build, id)
  {
  }

  /** Whatever exits, however many binds fail and however many endpoints are invalid: unless an endpoint that was
      applied has one protocol changed and the other refused, a generation ends steady. */
  lemma GenerationEndsSteady(s: State, env: Env, build: Build, generation: Generation, endpoints: seq<Desired>,
                             unrefreshed: set<Id>)
    requires Steady(s, build)
    requires Whole(s, build, Diff(s, build, unrefreshed, endpoints).desired,
                   ApplyGeneration(s, env, build, generation, endpoints, unrefreshed).results)
    ensures var p := ApplyGeneration(s, env, build, generation, endpoints, unrefreshed);
            Inv(p.world, {}) && forall id: Id :: SteadyAt(p.world, p.desired, build, id)
  {
    hide Inv, Release, Diff, Plans, SteadyAt, ApplyPlans, Whole, Due, Steady;
    StartsMidway(s, build, endpoints, unrefreshed);
    var plans := Plans(s, build, unrefreshed, endpoints);
    var desired := Diff(s, build, unrefreshed, endpoints).desired;
    PlansMidway(s, env, build, generation, s.world, desired, plans, Progress(Release(s.world, plans), desired, []),
                SortedKeys(plans.Keys));
  }

  // ---------------------------------------------------------------- every run

  /** What a submission asks for, as far as it can be refreshed and built. */
  ghost function Asked(s: State, build: Build, disk: Disk, request: Request): map<Id, Desc> {
    Diff(s, build, Unrefreshed(request.endpoints, disk), RefreshAll(request.endpoints, disk)).desired
  }

  /** If an event starts a generation, its results report no change beside a failure of an endpoint that was
      applied, unless it only repeats it. */
  ghost predicate WholeAnswer(s: State, env: Env, build: Build, event: Event) {
    event.Submit? && Replay.Starts(s, event.disk, event.request) ==>
      var reply := Reconcile(s, env, build, event.disk, event.request).1;
      reply.Answer? && Whole(s, build, Asked(s, build, event.disk, event.request), reply.response.results)
  }

  lemma SubmitSteady(s: State, env: Env, build: Build, disk: Disk, request: Request)
    requires Steady(s, build) && WholeAnswer(s, env, build, Submit(disk, request))
    ensures Steady(Reconcile(s, env, build, disk, request).0, build)
  {
    var endpoints, unrefreshed := RefreshAll(request.endpoints, disk), Unrefreshed(request.endpoints, disk);
    hide Inv, ApplyGeneration, Content, SteadyAt, Whole, Diff;
    if Replay.Starts(s, disk, request) {
      var p := ApplyGeneration(s, env, build, request.generation, endpoints, unrefreshed);
      assert Reconcile(s, env, build, disk, request).1.response.results == p.results;
      GenerationEndsSteady(s, env, build, request.generation, endpoints, unrefreshed);
    }
  }

  lemma StatusSteady(s: State, env: Env, build: Build)
    requires Steady(s, build)
    ensures Steady(s.(world := Refresh(s.world, env)), build)
  {
    hide Inv, Refresh, SteadyAt;
    RefreshInv(s.world, env);
    RefreshFrame(s.world, env);
    var w' := Refresh(s.world, env);
    forall id: Id ensures SteadyAt(w', s.applied, build, id) {
      UntouchedIsSteady(s.world, w', s.applied, build, id);
    }
  }

  lemma HandleSteady(s: State, env: Env, build: Build, event: Event)
    requires Steady(s, build) && WholeAnswer(s, env, build, event)
    ensures Steady(Handle(s, env, build, event), build)
  {
    hide Steady, Reconcile, Refresh, WholeAnswer;
    match event {
      case Submit(disk, request) => SubmitSteady(s, env, build, disk, request);
      case Status => StatusSteady(s, env, build);
    }
  }

  /** Every event of a run is answered without such a change beside a failure. */
  ghost predicate WholeRun(s: State, env: Env, build: Build, events: seq<Event>) {
    forall k :: 0 <= k < |events| ==> WholeAnswer(Run(s, env, build, events[..k]), env, build, events[k])
  }

  lemma {:induction false} RunSteady(s: State, env: Env, build: Build, events: seq<Event>)
    requires Steady(s, build) && WholeRun(s, env, build, events)
    ensures Steady(Run(s, env, build, events), build)
    decreases |events|
  {
    hide Steady, Handle, WholeAnswer;
    if events != [] {
      var n := |events| - 1;
      var rest := events[..n];
      assert forall k :: 0 <= k < n ==> rest[..k] == events[..k] && rest[k] == events[k];
      RunSteady(s, env, build, rest);
      HandleSteady(Run(s, env, build, rest), env, build, events[n]);
    }
  }

  /** A later generation heals: after any run of crashes, partial generations, failed binds and invalid submissions,
      one submission of a proper desired state in calm weather that finds every listener running is enough. */
  lemma LaterGenerationHeals(s: State, env: Env, build: Build, events: seq<Event>, disk: Disk, request: Request)
    requires Steady(s, build) && WholeRun(s, env, build, events)
    requires var s1 := Run(s, env, build, events);
             && AllAlive(s1.world) && Timely(s1, build, disk, request)
             && Calm(env, s1.world.host.tick, AddressesOf(build, Wanted(disk, request)))
    ensures var (s', reply) := Reconcile(Run(s, env, build, events), env, build, disk, request);
            && reply.Answer? && reply.response.state == Applied
            && InStep(s', build) && Steady(s', build) && s'.applied == Wanted(disk, request)
  {
    hide Run, Reconcile, Steady, Tidy, Calm, Wanted;
    RunSteady(s, env, build, events);
    SteadyIsTidy(Run(s, env, build, events), build, Wanted(disk, request));
    Converges(Run(s, env, build, events), env, build, disk, request);
    InStepIsSteady(Reconcile(Run(s, env, build, events), env, build, disk, request).0, build);
  }

  /** A status query finds every listener that has exited, so that after one a submission finds the others running:
      whatever had crashed before, query and submission together heal. */
  lemma StatusThenHeals(s: State, env: Env, build: Build, events: seq<Event>, disk: Disk, request: Request)
    requires Steady(s, build) && WholeRun(s, env, build, events)
    requires var s1 := Run(s, env, build, events + [Status]);
             Timely(s1, build, disk, request)
             && Calm(env, s1.world.host.tick, AddressesOf(build, Wanted(disk, request)))
    ensures var (s', reply) := Reconcile(Run(s, env, build, events + [Status]), env, build, disk, request);
            && reply.Answer? && reply.response.state == Applied
            && InStep(s', build) && Steady(s', build) && s'.applied == Wanted(disk, request)
  {
    var all := events + [Status];
    assert all[..|all| - 1] == events && all[|all| - 1] == Status;
    assert forall k :: 0 <= k < |events| ==> all[..k] == events[..k] && all[k] == events[k];
    hide Reconcile, Refresh, Steady, Calm, Wanted, Timely, WholeAnswer;
    RefreshAlive(Run(s, env, build, events).world, env);
    assert WholeAnswer(Run(s, env, build, events), env, build, Status) by { StatusIsWhole(s, env, build, events); }
    assert WholeRun(s, env, build, all);
    LaterGenerationHeals(s, env, build, all, disk, request);
  }

  lemma StatusIsWhole(s: State, env: Env, build: Build, events: seq<Event>)
    ensures WholeAnswer(Run(s, env, build, events), env, build, Status)
  {
  }

  // ---------------------------------------------------------------- after a restart

  /** Whatever a snapshot restores is up as described or not in full; the listeners of an endpoint that could not
      be restored in full are not recorded. */
  ghost predicate Restored(r: Restoring, build: Build, ids: seq<Id>) {
    && Inv(r.world, {})
    && (forall id :: id in r.applied ==> Upright(r.world, id, build, r.applied[id]))
    && (forall id :: id in ids ==> !Serving(r.world, id) && id !in r.applied)
  }

  lemma RestoreOneUpright(r: Restoring, env: Env, build: Build, disk: Disk, generation: Generation, config: nat,
                          ids: seq<Id>)
    requires Restored(r, build, ids) && ids != [] && ids[0] !in ids[1..]
    ensures Restored(RestoreOne(r, env, build, disk, generation, ids[0], config), build, ids[1..])
  {
    hide Apply, Inv, Upright, Untouched;
    var id := ids[0];
    var r' := RestoreOne(r, env, build, disk, generation, id, config);
    if disk(config).Some? && build(Desc(config, disk(config).value)).Some? {
      var d := Desc(config, disk(config).value);
      ApplyInv(r.world, env, id, generation, build(d).value);
      ApplyFrame(r.world, env, id, generation, build(d).value);
      RestoredSteady(r.world, env, build, id, generation, d, build(d).value);
      forall x: Id | x != id
        ensures x in r.applied ==> Upright(r'.world, x, build, r.applied[x])
        ensures Serving(r'.world, x) ==> Serving(r.world, x)
      {
        UntouchedIsUpright(r.world, r'.world, build, x);
      }
    }
  }

  lemma UntouchedIsUpright(w: World, w': World, build: Build, id: Id)
    requires Untouched(w, w', id)
    ensures forall d :: Upright(w, id, build, d) ==> Upright(w', id, build, d)
    ensures Serving(w', id) ==> Serving(w, id)
  {
    UntouchedIsKept(w, w', id);
    assert KeptSlot(w, w', id, Tcp) && KeptSlot(w, w', id, Udp);
    forall d | Upright(w, id, build, d) ensures Upright(w', id, build, d) {
      if id in w'.entries {
        UprightKept(w, w', id, build, d);
      }
    }
  }

  lemma {:induction false} RestoreUpright(r: Restoring, env: Env, build: Build, disk: Disk, snapshot: Snapshot,
                                          ids: seq<Id>)
    requires Restored(r, build, ids)
    requires forall i :: 0 <= i < |ids| ==> ids[i] in snapshot.endpoints
    requires forall i, j :: 0 <= i < j < |ids| ==> ids[i] < ids[j]
    ensures Restored(RestoreIds(r, env, build, disk, snapshot, ids), build, [])
    decreases |ids|
  {
    hide RestoreOne, Restored;
    if ids != [] {
      RestoreOneUpright(r, env, build, disk, snapshot.generation, snapshot.endpoints[ids[0]], ids);
      RestoreUpright(RestoreOne(r, env, build, disk, snapshot.generation, ids[0], snapshot.endpoints[ids[0]]), env,
                     build, disk, snapshot, ids[1..]);
    } else {
      assert ids == [];
    }
  }

  lemma RestoreIsUpright(policy: DrainPolicy, env: Env, build: Build, disk: Disk, snapshot: Snapshot)
    ensures var s := Restore(Restarted(policy), env, build, disk, snapshot);
            Inv(s.world, {}) && forall id :: id in s.applied ==> Upright(s.world, id, build, s.applied[id])
  {
    EmptyIsRestored(policy, build, SortedKeys(snapshot.endpoints.Keys));
    RestoreUpright(Restoring(Empty(policy), map[], {}), env, build, disk, snapshot,
                   SortedKeys(snapshot.endpoints.Keys));
    hide RestoreIds, Inv, Upright;
  }

  lemma EmptyIsRestored(policy: DrainPolicy, build: Build, ids: seq<Id>)
    ensures Restored(Restoring(Empty(policy), map[], {}), build, ids)
  {
  }

  /** However much of a snapshot could not come back and whatever exited, the restored process is steady if and
      only if no endpoint that counts as not restored has a listener all the same. */
  lemma RestoredIsSteady(policy: DrainPolicy, env: Env, build: Build, disk: Disk, snapshot: Snapshot)
    ensures var s := Restore(Restarted(policy), env, build, disk, snapshot);
            Steady(s, build) <==> forall id: Id :: id !in s.applied ==> !Serving(s.world, id)
  {
    RestoreIsUpright(policy, env, build, disk, snapshot);
    hide Restore, Inv, Upright, Serving;
    var s := Restore(Restarted(policy), env, build, disk, snapshot);
    if Steady(s, build) {
      forall id: Id | id !in s.applied ensures !Serving(s.world, id) {
        assert SteadyAt(s.world, s.applied, build, id);
      }
    }
    assert (forall id: Id :: id !in s.applied ==> !Serving(s.world, id)) ==>
        forall id: Id :: SteadyAt(s.world, s.applied, build, id);
  }

  /** What was restored in part is healed as well, by a submission that finds every listener running, if no endpoint
      of it is to listen where a later one that counts as not restored does. */
  lemma RestoreThenHeals(policy: DrainPolicy, env: Env, build: Build, disk: Disk, snapshot: Snapshot, later: Env,
                         disk': Disk, request: Request)
    requires var s := Restore(Restarted(policy), env, build, disk, snapshot);
             && AllAlive(s.world) && Timely(s, build, disk', request)
             && Calm(later, s.world.host.tick, AddressesOf(build, Wanted(disk', request)))
             && Unblocked(s, build, Wanted(disk', request))
    ensures var (s', reply) := Reconcile(Restore(Restarted(policy), env, build, disk, snapshot), later, build, disk',
                                         request);
            && reply.Answer? && reply.response.state == Applied
            && InStep(s', build) && Steady(s', build) && s'.applied == Wanted(disk', request)
  {
    RestoreIsUpright(policy, env, build, disk, snapshot);
    hide Restore, Inv, Wanted, Reconcile, Calm, Serves, Blocks;
    var s := Restore(Restarted(policy), env, build, disk, snapshot);
    Converges(s, later, build, disk', request);
    InStepIsSteady(Reconcile(s, later, build, disk', request).0, build);
  }
}
