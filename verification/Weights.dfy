/** What a slot serves after a generation without a failure. A slot is left alone when the rendered endpoint
    and the material are what it serves already; the balancer's weights are in neither, so a submission that
    changes only them is answered as applied while the old weights go on being used. */
module Weights {
  import opened Lifecycle
  import opened Manager
  import opened ManagerFrame
  import opened ManagerInvariant
  import opened ManagerServe
  import opened Reconciliation
  import opened Convergence
  import opened NonInterference
  import opened Turns
  import Collisions
  import Replay
  import Restart

  // ---------------------------------------------------------------- one endpoint

  lemma AppliedProto(w: World, env: Env, id: Id, generation: Generation, spec: Spec, proto: Proto, drain: DrainPolicy)
    requires id in w.entries && Wants(spec, proto)
    ensures var (w', os) := ApplyProto(w, env, id, generation, spec, proto, drain);
            !AnyFailed(os) ==>
              && ActiveAt(w', id, proto).Some?
              && w'.entries[id].slots[proto].endpoint ==
                   if AlreadyServes(w, id, spec, proto) then w.entries[id].slots[proto].endpoint else spec.endpoint
  {
    hide ApplySlot;
    AppliedSlot(w, env, id, generation, spec, proto, drain);
    var (w', os) := ApplyProto(w, env, id, generation, spec, proto, drain);
    assert os[0] == ApplySlot(w, env, id, generation, spec, proto, drain).1;
  }

  /** An `apply` without a failure, in any weather: a slot of the spec keeps the endpoint it serves if that is
      rendered alike over the same material, and serves the endpoint of the spec otherwise. */
  lemma AppliedEndpoint(w: World, env: Env, id: Id, generation: Generation, spec: Spec, proto: Proto)
    requires Wants(spec, proto) && !AnyFailed(Apply(w, env, id, generation, spec).1)
    ensures var w1, w' := Refresh(w, env), Apply(w, env, id, generation, spec).0;
            && ActiveAt(w', id, proto).Some? && Ages(w1.host, w'.host)
            && w'.entries[id].slots[proto].endpoint ==
                 if AlreadyServes(w1, id, spec, proto) then w1.entries[id].slots[proto].endpoint else spec.endpoint
  {
    hide Refresh, ApplyProto, Prune;
    var drain := PolicyOf(w, spec);
    var w1 := Refresh(w, env);
    var w2 := Upsert(w1, id, drain);
    assert forall p :: SlotAt(w2, id, p) == SlotAt(w1, id, p);
    var (w3, o3) := ApplyProto(w2, env, id, generation, spec, Tcp, drain);
    var (w4, o4) := ApplyProto(w3, env, id, generation, spec, Udp, drain);
    assert Apply(w, env, id, generation, spec) == (Prune(w4, id), o3 + o4);
    NoneFailed(o3, o4);
    ApplyProtoFrame(w2, env, id, generation, spec, Tcp, drain);
    ApplyProtoFrame(w3, env, id, generation, spec, Udp, drain);
    PruneActives(w4, id);
    hide AnyFailed;
    if proto == Tcp {
      AppliedProto(w2, env, id, generation, spec, Tcp, drain);
      assert SlotAt(w4, id, Tcp) == SlotAt(w3, id, Tcp);
    } else {
      assert proto == Udp && SlotAt(w3, id, Udp) == SlotAt(w2, id, Udp);
      AppliedProto(w3, env, id, generation, spec, Udp, drain);
    }
  }

  lemma NoneFailed(a: seq<Outcome>, b: seq<Outcome>)
    requires !AnyFailed(a + b)
    ensures !AnyFailed(a) && !AnyFailed(b)
  {
    assert forall i :: 0 <= i < |a| ==> (a + b)[i] == a[i];
    assert forall i :: 0 <= i < |b| ==> (a + b)[|a| + i] == b[i];
  }

  // ---------------------------------------------------------------- one generation

  /** An address an endpoint keeps is not handed off. */
  lemma KeptIsNotReleased(w: World, drafted: map<Id, Plan>, id: Id, proto: Proto)
    requires var plans := WithDeletions(w, MarkDuplicates(w, drafted));
             && id in plans && Binds(plans[id])
             && AlreadyServes(w, id, plans[id].built, proto) && Wants(plans[id].built, proto)
    ensures !Released(w, WithDeletions(w, MarkDuplicates(w, drafted)), id, proto)
  {
    var plans := WithDeletions(w, MarkDuplicates(w, drafted));
    var key := Key(plans[id].built.endpoint.laddr, proto);
    assert id in drafted && Claims(MarkDuplicates(w, drafted)[id], key);
    forall other | other in plans ensures !Wanting(w, plans[other], other, key) {
      if other != id && other in drafted {
        Collisions.SurvivorsAreDisjoint(w, drafted, id, other, key);
      }
    }
  }

  /** An endpoint whose results hold no failure was applied, and not repaired. */
  lemma BindingApplied(s: State, env: Env, build: Build, generation: Generation, candidate: bool, p: Progress, id: Id,
                       built: Spec)
    requires !AnyResultFailed(ApplyBinding(s, env, build, generation, candidate, p, id, built).results)
    ensures var (w1, outcomes) := Apply(p.world, env, id, generation, built);
            !AnyFailed(outcomes) && ApplyBinding(s, env, build, generation, candidate, p, id, built).world == w1
  {
    var (w1, outcomes) := Apply(p.world, env, id, generation, built);
    hide Apply, AnyResultFailed;
    if AnyFailed(outcomes) {
      Replay.FailedOutcomes(id, outcomes);
      Replay.PrefixFailure(p.results, IntoResults(id, outcomes));
      var results := p.results + IntoResults(id, outcomes);
      var previous := Lookup(s.applied, id);
      if previous.Some? && build(previous.value).Some? {
        Replay.NotedFailure(results, id, Apply(w1, env, id, generation, build(previous.value).value).1);
      }
    }
  }

  /** What a slot has kept of what it served in an earlier world it was not operated on since. */
  lemma UntouchedSlot(w: World, w': World, id: Id, proto: Proto)
    requires Untouched(w, w', id)
    ensures SlotAt(w', id, proto).Some? <==> SlotAt(w, id, proto).Some?
    ensures SlotAt(w, id, proto).Some? ==>
              var slot, slot' := SlotAt(w, id, proto).value, SlotAt(w', id, proto).value;
              && slot'.endpoint == slot.endpoint && slot'.material == slot.material
              && (|| slot'.active == slot.active
                  || (slot'.active.None? && slot.active.Some? && slot.active.value.cohort in w'.host.exited))
  {
    if SlotAt(w, id, proto).Some? {
      assert WeatheredSlot(w.entries[id].slots[proto], w'.entries[id].slots[proto], w.entries[id].drain.onDelete,
                           w'.host);
    }
  }

  /** From the start of a generation to the refresh that opens the `apply` of one endpoint: what the slot still
      serves there it served from the start, and it still serves it unless its task exited. */
  lemma StillServes(w: World, w0: World, w1: World, plans: map<Id, Plan>, id: Id, spec: Spec, proto: Proto)
    requires w0 == Release(w, plans) && Untouched(w0, w1, id)
    requires AlreadyServes(w, id, spec, proto) ==> !Released(w, plans, id, proto)
    ensures AlreadyServes(w1, id, spec, proto) ==>
              AlreadyServes(w, id, spec,
                            proto) && w1.entries[id].slots[proto].endpoint == w.entries[id].slots[proto].endpoint
    ensures AlreadyServes(w, id, spec, proto) && ActiveAt(w, id, proto).value.cohort !in w1.host.exited ==>
              AlreadyServes(w1, id, spec, proto)
  {
    hide Released, SortedKeys, ReleaseIds;
    ReleaseSlot(w, w, plans, SortedKeys(plans.Keys), id, proto);
    UntouchedSlot(w0, w1, id, proto);
  }

  /** The world in which the plan of `id` is carried out, after the refresh that opens it. */
  ghost function Reached(s: State, env: Env, build: Build, generation: Generation, plans: map<Id, Plan>, p0: Progress,
                         k: nat): World
    requires k <= |SortedKeys(plans.Keys)|
  {
    Refresh(Before(s, env, build, generation, plans, p0, k).world, env)
  }

  /** The own step of the `k`-th endpoint in a generation without a failure. */
  lemma OwnStep(s: State, env: Env, build: Build, generation: Generation, plans: map<Id, Plan>, p0: Progress, k: nat,
                proto: Proto)
    requires k < |SortedKeys(plans.Keys)| && Binds(plans[SortedKeys(plans.Keys)[k]])
    requires Wants(plans[SortedKeys(plans.Keys)[k]].built, proto)
    requires !AnyResultFailed(ApplyPlans(s, env, build, generation, s.world, plans, p0, SortedKeys(plans.Keys)).results)
    ensures var id := SortedKeys(plans.Keys)[k];
            var spec := plans[id].built;
            var w1 := Reached(s, env, build, generation, plans, p0, k);
            var end := ApplyPlans(s, env, build, generation, s.world, plans, p0, SortedKeys(plans.Keys)).world;
            && Untouched(p0.world, w1, id) && w1.host.exited <= end.host.exited
            && SlotAt(end, id, proto).Some?
            && SlotAt(end, id, proto).value.endpoint ==
                 if AlreadyServes(w1, id, spec, proto) then w1.entries[id].slots[proto].endpoint else spec.endpoint
  {
    hide Apply, Refresh, AnyResultFailed, AnyFailed, Untouched, RestoreCandidate, AlreadyServes, ApplyPlans,
         ApplyBinding;
    var ids := SortedKeys(plans.Keys);
    var id := ids[k];
    var spec := plans[id].built;
    var c := RestoreCandidate(s.world, plans, id);
    var p := Before(s, env, build, generation, plans, p0, k);
    NoFailureSoFar(s, env, build, generation, s.world, plans, p0, ids, k);
    OwnFrame(s, env, build, generation, plans, p0, k);
    hide SortedKeys;
    var q := ApplyBinding(s, env, build, generation, c, p, id, spec);
    assert ApplyPlan(s, env, build, generation, c, p, id, plans[id]) == q;
    BindingApplied(s, env, build, generation, c, p, id, spec);
    AppliedEndpoint(p.world, env, id, generation, spec, proto);
    UntouchedSlot(q.world, ApplyPlans(s, env, build, generation, s.world, plans, p0, ids).world, id, proto);
  }

  lemma OwnFrame(s: State, env: Env, build: Build, generation: Generation, plans: map<Id, Plan>, p0: Progress, k: nat)
    requires k < |SortedKeys(plans.Keys)|
    ensures var id := SortedKeys(plans.Keys)[k];
            var p := Before(s, env, build, generation, plans, p0, k);
            var q := ApplyPlan(s, env, build, generation, RestoreCandidate(s.world, plans, id), p, id, plans[id]);
            var end := ApplyPlans(s, env, build, generation, s.world, plans, p0, SortedKeys(plans.Keys)).world;
            && Untouched(p0.world, Refresh(p.world, env), id)
            && Untouched(q.world, end, id) && q.world.host.exited <= end.host.exited
  {
    hide ApplyPlan, ApplyPlans, Refresh, Untouched, RestoreCandidate;
    var ids := SortedKeys(plans.Keys);
    var id := ids[k];
    var p := Before(s, env, build, generation, plans, p0, k);
    var q := ApplyPlan(s, env, build, generation, RestoreCandidate(s.world, plans, id), p, id, plans[id]);
    RestLeavesAlone(s, env, build, generation, s.world, plans, p0, ids, k, q);
    hide SortedKeys;
    assert id !in ids[..k];
    ApplyPlansElsewhere(s, env, build, generation, s.world, plans, p0, ids[..k], id);
    RefreshFrame(p.world, env);
    UntouchedTrans(p0.world, p.world, Refresh(p.world, env), id);
  }

  lemma NoFailureSoFar(s: State, env: Env, build: Build, generation: Generation, w0: World, plans: map<Id, Plan>,
                       p0: Progress, ids: seq<Id>, k: nat)
    requires (forall i :: 0 <= i < |ids| ==> ids[i] in plans) && k < |ids|
    requires !AnyResultFailed(ApplyPlans(s, env, build, generation, w0, plans, p0, ids).results)
    ensures !AnyResultFailed(ApplyPlan(s, env, build, generation, RestoreCandidate(w0, plans, ids[k]),
                                       ApplyPlans(s, env, build, generation, w0, plans, p0,
                                                  ids[..k]), ids[k], plans[ids[k]]).results)
  {
    hide ApplyPlan, AnyResultFailed, RestoreCandidate;
    var p := ApplyPlans(s, env, build, generation, w0, plans, p0, ids[..k]);
    var q := ApplyPlan(s, env, build, generation, RestoreCandidate(w0, plans, ids[k]), p, ids[k], plans[ids[k]]);
    assert ids == ids[..k] + ids[k..] && ids[k..][1..] == ids[k + 1..];
    ApplyPlansSplit(s, env, build, generation, w0, plans, p0, ids[..k], ids[k..]);
    if AnyResultFailed(q.results) {
      Replay.FailuresPersist(s, env, build, generation, w0, plans, q, ids[k + 1..]);
    }
  }

  /** What a generation without a failure leaves a slot serving, from any state and in any weather: the
      submitted endpoint if the slot did not serve it already, as rendered and over the same material; and
      otherwise the endpoint it served, unless its task exited. So the slot has the submitted weights if and
      only if it had them already or did not already serve what is rendered. */
  lemma ServedWeights(s: State, env: Env, build: Build, generation: Generation, endpoints: seq<Desired>,
                      unrefreshed: set<Id>,
                      id: Id, proto: Proto)
    requires !AnyResultFailed(ApplyGeneration(s, env, build, generation, endpoints, unrefreshed).results)
    requires var plans := Plans(s, build, unrefreshed, endpoints);
             id in plans && Binds(plans[id]) && Wants(plans[id].built, proto)
    ensures var spec := Plans(s, build, unrefreshed, endpoints)[id].built;
            var end := ApplyGeneration(s, env, build, generation, endpoints, unrefreshed).world;
            var had := AlreadyServes(s.world, id, spec, proto);
            && SlotAt(end, id, proto).Some?
            && var e := SlotAt(end, id, proto).value.endpoint;
               && (!had ==> e == spec.endpoint)
               && (had && ActiveAt(s.world, id, proto).value.cohort !in end.host.exited ==>
                     && e == s.world.entries[id].slots[proto].endpoint
                     && (e.weights == spec.endpoint.weights <==>
                           s.world.entries[id].slots[proto].endpoint.weights == spec.endpoint.weights))
  {
    hide Release, Diff, MarkDuplicates, WithDeletions, ApplyPlans, AnyResultFailed, Released, Untouched;
    var drafted := Diff(s, build, unrefreshed, endpoints).plans;
    var plans := Plans(s, build, unrefreshed, endpoints);
    var p0 := Opening(s, build, endpoints, unrefreshed);
    var ids := SortedKeys(plans.Keys);
    var k :| 0 <= k < |ids| && ids[k] == id;
    OwnStep(s, env, build, generation, plans, p0, k, proto);
    if AlreadyServes(s.world, id, plans[id].built, proto) {
      KeptIsNotReleased(s.world, drafted, id, proto);
    }
    StillServes(s.world, p0.world, Reached(s, env, build, generation, plans, p0, k), plans, id, plans[id].built, proto);
  }

  // ---------------------------------------------------------------- a generation that converges

  /** The endpoint a slot serves after a submission that converges: the one it served already if that is
      rendered alike over the same material, and the submitted one otherwise. Hence it has the submitted
      weights if and only if it had them already, or did not already serve what is rendered. */
  lemma ConvergedWeights(s: State, env: Env, build: Build, disk: Disk, request: Request, id: Id, proto: Proto)
    requires Tidy(s, build, Wanted(disk, request)) && Timely(s, build, disk, request)
    requires Calm(env, s.world.host.tick, AddressesOf(build, Wanted(disk, request)))
    requires id in Wanted(disk, request) && Wants(Built(build, Wanted(disk, request)[id]), proto)
    ensures var (s', reply) := Reconcile(s, env, build, disk, request);
            var spec := Built(build, Wanted(disk, request)[id]);
            var had := AlreadyServes(s.world, id, spec, proto);
            && reply.Answer? && reply.response.state == Applied && AlreadyServes(s'.world, id, spec, proto)
            && var e := s'.world.entries[id].slots[proto].endpoint;
               && e == (if had then s.world.entries[id].slots[proto].endpoint else spec.endpoint)
               && (e.weights == spec.endpoint.weights <==>
                     !had || s.world.entries[id].slots[proto].endpoint.weights == spec.endpoint.weights)
  {
    hide Inv, Calm, Submitted, ApplyGeneration, Plans, Diff, MarkDuplicates, Planned;
    var endpoints := RefreshAll(request.endpoints, disk);
    var desired := Submitted(endpoints);
    Converges(s, env, build, disk, request);
    GenerationConverges(s, env, build, request.generation, endpoints);
    PlannedAs(s, build, endpoints, id);
    var plans := Plans(s, build, {}, endpoints);
    if plans[id] == Plan.Unchanged {
      StayingIsUntouched(s, env, build, request.generation, endpoints, {}, id);
      UntouchedSlot(s.world, ApplyGeneration(s, env, build, request.generation, endpoints, {}).world, id, proto);
    } else {
      ServedWeights(s, env, build, request.generation, endpoints, {}, id, proto);
    }
  }

  // ---------------------------------------------------------------- a submission that changes only weights

  /** One tcp endpoint on address 1 whose configuration is its weights. */
  function Weighed(d: Desc): Option<Spec> {
    Some(Spec(Endpoint(1, 0, d.config, None), true, false, None, None))
  }

  function Still(t: nat): Weather {
    Weather({}, {}, {}, false)
  }

  function Digest(config: nat): Option<Option<nat>> {
    Some(None)
  }

  function Weigh(generation: Generation, weights: nat): Request {
    Request(generation, [Desired(0, Desc(weights, None))])
  }

  /** What is needed to submit weights to a process that serves the endpoint with other weights, or not at all. */
  lemma Weighable(s: State, generation: Generation, weights: nat)
    ensures Unrefreshed(Weigh(generation, weights).endpoints, Digest) == {}
    ensures DistinctIds(Weigh(generation, weights).endpoints)
    ensures RefreshAll(Weigh(generation, weights).endpoints, Digest) == Weigh(generation, weights).endpoints
    ensures Submitted(Weigh(generation, weights).endpoints) == map[0 := Desc(weights, None)]
    ensures Proper(Weighed, map[0 := Desc(weights, None)])
    ensures Calm(Still, s.world.host.tick, AddressesOf(Weighed, map[0 := Desc(weights, None)]))
  {
    var endpoints := Weigh(generation, weights).endpoints;
    assert endpoints[..0] == [];
    assert Submitted([]) == map[];
    assert Submitted(endpoints) == Submitted([])[0 := Desc(weights, None)];
  }

  /** A process that serves the endpoint with weights 7 is told to use 9 instead: the answer is that this is
      applied and recorded, and the listener goes on with 7. */
  lemma WeightChangeIsNotServed(policy: DrainPolicy)
    ensures var s0 := Restarted(policy).(ready := true);
            var s1 := Reconcile(s0, Still, Weighed, Digest, Weigh(1, 7)).0;
            var (s2, reply) := Reconcile(s1, Still, Weighed, Digest, Weigh(2, 9));
            && reply.Answer? && reply.response.state == Applied && s2.applied == map[0 := Desc(9, None)]
            && SlotAt(s2.world, 0, Tcp).Some? && SlotAt(s2.world, 0, Tcp).value.endpoint.weights == 7
  {
    hide Reconcile, Inv;
    var s0 := Restarted(policy).(ready := true);
    assert Clean(s0, Weighed) by {
      Restart.EmptyIsClean(policy, Weighed);
    }
    Weighable(s0, 1, 7);
    ConvergesCleanly(s0, Still, Weighed, Digest, Weigh(1, 7));
    ConvergedWeights(s0, Still, Weighed, Digest, Weigh(1, 7), 0, Tcp);
    var s1 := Reconcile(s0, Still, Weighed, Digest, Weigh(1, 7)).0;
    assert s1.ready by { ReadyStays(s0, Still, Weighed, Digest, Weigh(1, 7)); }
    Weighable(s1, 2, 9);
    ConvergesCleanly(s1, Still, Weighed, Digest, Weigh(2, 9));
    ConvergedWeights(s1, Still, Weighed, Digest, Weigh(2, 9), 0, Tcp);
  }

  lemma ReadyStays(s: State, env: Env, build: Build, disk: Disk, request: Request)
    ensures Reconcile(s, env, build, disk, request).0.ready == s.ready
  {
    hide ApplyGeneration, Content;
  }
}
