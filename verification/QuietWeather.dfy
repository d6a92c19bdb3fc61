/** While no serving task exits, none is found to have exited. */
module QuietWeather {
  import opened Lifecycle
  import opened Manager
  import opened ManagerInvariant
  import opened ManagerFrame
  import opened ManagerServe
  import opened Reconciliation
  import opened Convergence

  lemma LaunchQuiet(w: World, env: Env, id: Id, proto: Proto, endpoint: Endpoint, generation: Generation)
    requires NoExits(env, w.host.tick)
    ensures var w' := Launch(w, env, id, proto, endpoint, generation).0;
            w'.host.exited == w.host.exited && w'.host.tick >= w.host.tick && w'.entries == w.entries
  {
    assert env(w.host.tick).exits == {};
  }

  lemma ReplaceQuiet(w: World, env: Env, id: Id, generation: Generation, spec: Spec, proto: Proto, drain: DrainPolicy)
    requires NoExits(env, w.host.tick) && ActiveAt(w, id, proto).Some?
    ensures ReplaceSlot(w, env, id, generation, spec, proto, drain).0.host.exited == w.host.exited
  {
    var slot := w.entries[id].slots[proto];
    var w1 := Vacate(w, id, proto);
    LaunchQuiet(w1, env, id, proto, spec.endpoint, generation);
    var w2 := Launch(w1, env, id, proto, spec.endpoint, generation).0;
    LaunchQuiet(w2, env, id, proto, slot.endpoint, slot.active.value.generation);
    hide Launch;
  }

  lemma MoveQuiet(w: World, env: Env, id: Id, generation: Generation, spec: Spec, proto: Proto, drain: DrainPolicy)
    requires NoExits(env, w.host.tick) && ActiveAt(w, id, proto).Some?
    ensures MoveSlot(w, env, id, generation, spec, proto, drain).0.host.exited == w.host.exited
  {
    LaunchQuiet(w, env, id, proto, spec.endpoint, generation);
    hide Launch;
  }

  lemma ApplySlotQuiet(w: World, env: Env, id: Id, generation: Generation, spec: Spec, proto: Proto,
                       drain: DrainPolicy)
    requires NoExits(env, w.host.tick) && id in w.entries
    ensures ApplySlot(w, env, id, generation, spec, proto, drain).0.host.exited == w.host.exited
  {
    hide ReplaceSlot, MoveSlot, AlreadyServes;
    if ActiveAt(w, id, proto).Some? {
      ReplaceQuiet(w, env, id, generation, spec, proto, drain);
      MoveQuiet(w, env, id, generation, spec, proto, drain);
    } else {
      LaunchQuiet(w, env, id, proto, spec.endpoint, generation);
    }
  }

  lemma ApplyProtoQuiet(w: World, env: Env, id: Id, generation: Generation, spec: Spec, proto: Proto,
                        drain: DrainPolicy)
    requires NoExits(env, w.host.tick) && id in w.entries
    ensures ApplyProto(w, env, id, generation, spec, proto, drain).0.host.exited == w.host.exited
  {
    hide ApplySlot, StopSlot;
    ApplySlotQuiet(w, env, id, generation, spec, proto, drain);
    StopSlotHost(w, id, proto, drain.onDelete);
  }

  lemma ApplyQuiet(w: World, env: Env, id: Id, generation: Generation, spec: Spec)
    requires NoExits(env, w.host.tick)
    ensures var w' := Apply(w, env, id, generation, spec).0;
            w'.host.exited == w.host.exited && w'.host.tick >= w.host.tick
  {
    ApplyFrame(w, env, id, generation, spec);
    RefreshFrame(w, env);
    var w1 := Refresh(w, env);
    assert w1.host.exited == w.host.exited by { assert env(w.host.tick).exits == {}; }
    hide Refresh, ApplyProto, Prune;
    if spec.tcp || spec.udp {
      var drain := PolicyOf(w, spec);
      var w2 := Upsert(w1, id, drain);
      var w3 := ApplyProto(w2, env, id, generation, spec, Tcp, drain).0;
      ApplyProtoQuiet(w2, env, id, generation, spec, Tcp, drain);
      ApplyProtoFrame(w2, env, id, generation, spec, Tcp, drain);
      ApplyProtoQuiet(w3, env, id, generation, spec, Udp, drain);
      PruneActives(ApplyProto(w3, env, id, generation, spec, Udp, drain).0, id);
    }
  }

  lemma RemoveQuiet(w: World, env: Env, id: Id)
    requires NoExits(env, w.host.tick)
    ensures var w' := Remove(w, env, id).0;
            w'.host.exited == w.host.exited && w'.host.tick >= w.host.tick
  {
    RemoveFrame(w, env, id);
    RefreshFrame(w, env);
    var w1 := Refresh(w, env);
    assert w1.host.exited == w.host.exited by { assert env(w.host.tick).exits == {}; }
    hide Refresh, StopSlot;
    if id in w1.entries {
      RemoveRefreshedEffect(w1, id, w1.entries[id].drain.onDelete);
    }
  }

  lemma PlanQuiet(s: State, env: Env, build: Build, generation: Generation, candidate: bool, p: Progress, id: Id,
                  plan: Plan)
    requires NoExits(env, p.world.host.tick)
    ensures var w' := ApplyPlan(s, env, build, generation, candidate, p, id, plan).world;
            w'.host.exited == p.world.host.exited && w'.host.tick >= p.world.host.tick
  {
    hide Apply, Remove;
    if Binds(plan) {
      ApplyQuiet(p.world, env, id, generation, plan.built);
      var w1 := Apply(p.world, env, id, generation, plan.built).0;
      var previous := Lookup(s.applied, id);
      if previous.Some? && build(previous.value).Some? {
        ApplyQuiet(w1, env, id, generation, build(previous.value).value);
      }
    } else if plan == Delete {
      RemoveQuiet(p.world, env, id);
    }
  }

  lemma {:induction false} PlansQuiet(s: State, env: Env, build: Build, generation: Generation, w0: World,
                                      plans: map<Id, Plan>, p: Progress, ids: seq<Id>)
    requires NoExits(env, p.world.host.tick)
    requires forall i :: 0 <= i < |ids| ==> ids[i] in plans
    ensures ApplyPlans(s, env, build, generation, w0, plans, p, ids).world.host.exited == p.world.host.exited
    decreases |ids|
  {
    hide ApplyPlan;
    if ids != [] {
      var c := RestoreCandidate(w0, plans, ids[0]);
      PlanQuiet(s, env, build, generation, c, p, ids[0], plans[ids[0]]);
      PlansQuiet(s, env, build, generation, w0, plans,
                 ApplyPlan(s, env, build, generation, c, p, ids[0], plans[ids[0]]), ids[1..]);
    }
  }

  lemma GenerationQuiet(s: State, env: Env, build: Build, generation: Generation, endpoints: seq<Desired>)
    requires Inv(s.world, {}) && NoExits(env, s.world.host.tick)
    ensures ApplyGeneration(s, env, build, generation, endpoints, {}).world.host.exited == s.world.host.exited
  {
    hide Inv, ReleaseIds, Diff, Plans, ApplyPlans;
    var plans := Plans(s, build, {}, endpoints);
    ReleaseEffect(s.world, plans);
    PlansQuiet(s, env, build, generation, s.world, plans,
               Progress(Release(s.world, plans), Diff(s, build, {}, endpoints).desired, []), SortedKeys(plans.Keys));
  }
}
