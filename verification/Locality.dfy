/** A call depends on the weather of its own ticks only, so what holds in weather that stays calm holds in weather
    that is calm until the call has returned. */
module Locality {
  import opened Lifecycle
  import opened Manager
  import opened ManagerInvariant
  import opened ManagerFrame
  import opened ManagerServe
  import opened Reconciliation
  import opened Convergence
  import opened NonInterference

  ghost predicate Agree(env: Env, env': Env, from: nat, to: nat) {
    forall t: nat :: from <= t < to ==> env'(t) == env(t)
  }

  lemma RefreshTick(w: World, env: Env)
    ensures Refresh(w, env).host.tick == w.host.tick + 1
  {
    RefreshFrame(w, env);
    hide Refresh;
  }

  lemma RefreshLocal(w: World, env: Env, env': Env)
    requires Agree(env, env', w.host.tick, Refresh(w, env).host.tick)
    ensures Refresh(w, env') == Refresh(w, env)
  {
    RefreshTick(w, env);
    assert env'(w.host.tick) == env(w.host.tick);
  }

  lemma LaunchLocal(w: World, env: Env, env': Env, id: Id, proto: Proto, endpoint: Endpoint, generation: Generation)
    requires Agree(env, env', w.host.tick, Launch(w, env, id, proto, endpoint, generation).0.host.tick)
    ensures Launch(w, env', id, proto, endpoint, generation) == Launch(w, env, id, proto, endpoint, generation)
    ensures Launch(w, env, id, proto, endpoint, generation).0.host.tick == w.host.tick + 1
  {
    hide CanBind;
    assert Launch(w, env, id, proto, endpoint, generation).0.host.tick == w.host.tick + 1;
    assert env'(w.host.tick) == env(w.host.tick);
  }

  lemma ReplaceLocal(w: World, env: Env, env': Env, id: Id, generation: Generation, spec: Spec, proto: Proto,
                     drain: DrainPolicy)
    requires ActiveAt(w, id, proto).Some?
    requires Agree(env, env', w.host.tick, ReplaceSlot(w, env, id, generation, spec, proto, drain).0.host.tick)
    ensures ReplaceSlot(w, env', id, generation, spec, proto, drain)
         == ReplaceSlot(w, env, id, generation, spec, proto, drain)
  {
    var slot := w.entries[id].slots[proto];
    var w1 := Vacate(w, id, proto);
    var (w2, started) := Launch(w1, env, id, proto, spec.endpoint, generation);
    LaunchFrame(w2, env, id, proto, slot.endpoint, slot.active.value.generation);
    assert w1.host.tick == w.host.tick;
    hide Advance, CanBind;
    LaunchLocal(w1, env, env', id, proto, spec.endpoint, generation);
    if started.None? {
      LaunchLocal(w2, env, env', id, proto, slot.endpoint, slot.active.value.generation);
    }
    hide Launch;
  }

  lemma ApplySlotLocal(w: World, env: Env, env': Env, id: Id, generation: Generation, spec: Spec, proto: Proto,
                       drain: DrainPolicy)
    requires id in w.entries
    requires Agree(env, env', w.host.tick, ApplySlot(w, env, id, generation, spec, proto, drain).0.host.tick)
    ensures ApplySlot(w, env', id, generation, spec, proto, drain)
         == ApplySlot(w, env, id, generation, spec, proto, drain)
  {
    if !AlreadyServes(w, id, spec, proto) {
      match ActiveAt(w, id, proto) {
        case None =>
          hide Advance, CanBind;
          LaunchLocal(w, env, env', id, proto, spec.endpoint, generation);
        case Some(a) =>
          if a.laddr == spec.endpoint.laddr {
            hide ReplaceSlot, MoveSlot;
            ReplaceLocal(w, env, env', id, generation, spec, proto, drain);
          } else {
            hide Advance, CanBind, ReplaceSlot;
            LaunchLocal(w, env, env', id, proto, spec.endpoint, generation);
          }
      }
    }
  }

  lemma ApplyProtoLocal(w: World, env: Env, env': Env, id: Id, generation: Generation, spec: Spec, proto: Proto,
                        drain: DrainPolicy)
    requires id in w.entries
    requires Agree(env, env', w.host.tick, ApplyProto(w, env, id, generation, spec, proto, drain).0.host.tick)
    ensures ApplyProto(w, env', id, generation, spec, proto, drain)
         == ApplyProto(w, env, id, generation, spec, proto, drain)
  {
    hide ApplySlot, StopSlot;
    if Wants(spec, proto) {
      ApplySlotLocal(w, env, env', id, generation, spec, proto, drain);
    }
  }

  lemma ApplyLocal(w: World, env: Env, env': Env, id: Id, generation: Generation, spec: Spec)
    requires Agree(env, env', w.host.tick, Apply(w, env, id, generation, spec).0.host.tick)
    ensures Apply(w, env', id, generation, spec) == Apply(w, env, id, generation, spec)
  {
    hide Refresh, ApplyProto, Prune;
    var w1 := Refresh(w, env);
    RefreshTick(w, env);
    if spec.tcp || spec.udp {
      var drain := PolicyOf(w, spec);
      var w2 := Upsert(w1, id, drain);
      var w3 := ApplyProto(w2, env, id, generation, spec, Tcp, drain).0;
      var w4 := ApplyProto(w3, env, id, generation, spec, Udp, drain).0;
      ApplyProtoFrame(w2, env, id, generation, spec, Tcp, drain);
      ApplyProtoFrame(w3, env, id, generation, spec, Udp, drain);
      PruneActives(w4, id);
      assert Apply(w, env, id, generation, spec).0.host.tick == w4.host.tick >= w3.host.tick >= w1.host.tick;
      ApplyProtoLocal(w2, env, env', id, generation, spec, Tcp, drain);
      ApplyProtoLocal(w3, env, env', id, generation, spec, Udp, drain);
    }
    RefreshLocal(w, env, env');
  }

  lemma RemoveLocal(w: World, env: Env, env': Env, id: Id)
    requires Agree(env, env', w.host.tick, Remove(w, env, id).0.host.tick)
    ensures Remove(w, env', id) == Remove(w, env, id)
  {
    hide Refresh, StopSlot;
    var w1 := Refresh(w, env);
    RefreshTick(w, env);
    if id in w1.entries {
      RemoveRefreshedEffect(w1, id, w1.entries[id].drain.onDelete);
    }
    RefreshLocal(w, env, env');
  }

  lemma BindingLocal(s: State, env: Env, env': Env, build: Build, generation: Generation, candidate: bool, p: Progress,
                     id: Id, built: Spec)
    requires Agree(env, env', p.world.host.tick,
                   ApplyBinding(s, env, build, generation, candidate, p, id, built).world.host.tick)
    ensures ApplyBinding(s, env', build, generation, candidate, p, id, built)
         == ApplyBinding(s, env, build, generation, candidate, p, id, built)
  {
    hide Apply, Only;
    var (w1, outcomes) := Apply(p.world, env, id, generation, built);
    TickGrows(p.world, env, id, generation, built);
    var previous := Lookup(s.applied, id);
    if previous.Some? && build(previous.value).Some? {
      var back := build(previous.value).value;
      TickGrows(w1, env, id, generation, back);
      if candidate && AnyFailed(outcomes) && !Serving(w1, id) {
        ApplyLocal(w1, env, env', id, generation, back);
      }
    }
    ApplyLocal(p.world, env, env', id, generation, built);
  }

  lemma TickGrows(w: World, env: Env, id: Id, generation: Generation, spec: Spec)
    ensures Apply(w, env, id, generation, spec).0.host.tick >= w.host.tick
  {
    ApplyFrame(w, env, id, generation, spec);
    hide Apply;
  }

  lemma PlanLocal(s: State, env: Env, env': Env, build: Build, generation: Generation, candidate: bool, p: Progress,
                  id: Id, plan: Plan)
    requires Agree(env, env', p.world.host.tick,
                   ApplyPlan(s, env, build, generation, candidate, p, id, plan).world.host.tick)
    ensures ApplyPlan(s, env', build, generation, candidate, p, id, plan)
         == ApplyPlan(s, env, build, generation, candidate, p, id, plan)
  {
    hide ApplyBinding, Remove;
    match plan {
      case Start(built) => BindingLocal(s, env, env', build, generation, candidate, p, id, built);
      case Replace(built) => BindingLocal(s, env, env', build, generation, candidate, p, id, built);
      case Delete => RemoveLocal(p.world, env, env', id);
      case _ =>
    }
  }

  lemma {:induction false} PlansLocal(s: State, env: Env, env': Env, build: Build, generation: Generation, w0: World,
                                      plans: map<Id, Plan>, p: Progress, ids: seq<Id>)
    requires forall i :: 0 <= i < |ids| ==> ids[i] in plans
    requires Agree(env, env', p.world.host.tick,
                   ApplyPlans(s, env, build, generation, w0, plans, p, ids).world.host.tick)
    ensures ApplyPlans(s, env', build, generation, w0, plans, p, ids)
         == ApplyPlans(s, env, build, generation, w0, plans, p, ids)
    decreases |ids|
  {
    hide ApplyPlan;
    if ids != [] {
      var c := RestoreCandidate(w0, plans, ids[0]);
      var p1 := ApplyPlan(s, env, build, generation, c, p, ids[0], plans[ids[0]]);
      PlanTick(s, env, build, generation, c, p, ids[0], plans[ids[0]]);
      PlansTick(s, env, build, generation, w0, plans, p1, ids[1..]);
      PlanLocal(s, env, env', build, generation, c, p, ids[0], plans[ids[0]]);
      PlansLocal(s, env, env', build, generation, w0, plans, p1, ids[1..]);
    }
  }

  lemma PlanTick(s: State, env: Env, build: Build, generation: Generation, candidate: bool, p: Progress, id: Id,
                 plan: Plan)
    ensures ApplyPlan(s, env, build, generation, candidate, p, id, plan).world.host.tick >= p.world.host.tick
  {
    hide ApplyPlan;
    ApplyPlanFrame(s, env, build, generation, candidate, p, id, plan);
  }

  lemma {:induction false} PlansTick(s: State, env: Env, build: Build, generation: Generation, w0: World,
                                     plans: map<Id, Plan>, p: Progress, ids: seq<Id>)
    requires forall i :: 0 <= i < |ids| ==> ids[i] in plans
    ensures ApplyPlans(s, env, build, generation, w0, plans, p, ids).world.host.tick >= p.world.host.tick
    decreases |ids|
  {
    hide ApplyPlan;
    if ids != [] {
      var c := RestoreCandidate(w0, plans, ids[0]);
      PlanTick(s, env, build, generation, c, p, ids[0], plans[ids[0]]);
      PlansTick(s, env, build, generation, w0, plans,
                ApplyPlan(s, env, build, generation, c, p, ids[0], plans[ids[0]]), ids[1..]);
    }
  }

  /** A submission is answered the same in any two weathers that agree while it is handled. */
  lemma ReconcileLocal(s: State, env: Env, env': Env, build: Build, disk: Disk, request: Request)
    requires Agree(env, env', s.world.host.tick, Reconcile(s, env, build, disk, request).0.world.host.tick)
    ensures Reconcile(s, env', build, disk, request) == Reconcile(s, env, build, disk, request)
  {
    var endpoints, unrefreshed := RefreshAll(request.endpoints, disk), Unrefreshed(request.endpoints, disk);
    hide Content, Diff, Plans, ApplyPlans, ReleaseIds;
    var plans := Plans(s, build, unrefreshed, endpoints);
    var p := Progress(Release(s.world, plans), Diff(s, build, unrefreshed, endpoints).desired, []);
    ReleaseTick(s.world, s.world, plans, SortedKeys(plans.Keys));
    if && s.ready && !(s.active.Some? && request.generation < s.active.value)
       && !(s.active == Some(request.generation) && unrefreshed == {} && s.last.Some?) {
      PlansLocal(s, env, env', build, request.generation, s.world, plans, p, SortedKeys(plans.Keys));
    }
  }

  lemma {:induction false} ReleaseTick(w: World, w0: World, plans: map<Id, Plan>, ids: seq<Id>)
    ensures ReleaseIds(w, w0, plans, ids).host.tick == w.host.tick
    decreases |ids|
  {
    hide Released, StopAccept;
    if ids != [] {
      var w1 := ReleaseProto(w, w0, plans, ids[0], Tcp);
      ReleaseProtoTick(w, w0, plans, ids[0], Tcp);
      ReleaseProtoTick(w1, w0, plans, ids[0], Udp);
      ReleaseTick(ReleaseProto(w1, w0, plans, ids[0], Udp), w0, plans, ids[1..]);
    }
  }

  lemma ReleaseProtoTick(w: World, w0: World, plans: map<Id, Plan>, id: Id, proto: Proto)
    ensures ReleaseProto(w, w0, plans, id, proto).host.tick == w.host.tick
  {
    if Released(w0, plans, id, proto) {
      StopAcceptEffect(w, id, proto, ReleaseDeadline(w, plans[id], id));
    }
  }

  // ---------------------------------------------------------------- calm until the answer

  /** From tick `from` until tick `to` no serving task exits, and nothing outside stands in the way of `wanted`. */
  ghost predicate CalmUntil(env: Env, from: nat, to: nat, wanted: set<Key>) {
    forall t: nat :: from <= t < to ==> env(t).exits == {} && !env(t).refuse && env(t).foreign !! wanted
  }

  /** The weather of `env`, clearing up for good at tick `to`. */
  ghost function ClearingUp(env: Env, to: nat): Env {
    (t: nat) => if t < to then env(t) else Weather({}, {}, {}, false)
  }

  /** Convergence needs the weather to be calm until the answer, and no longer. */
  lemma ConvergesByTheAnswer(s: State, env: Env, build: Build, disk: Disk, request: Request)
    requires Tidy(s, build, Wanted(disk, request)) && Timely(s, build, disk, request)
    requires CalmUntil(env, s.world.host.tick, Reconcile(s, env, build, disk, request).0.world.host.tick,
                       AddressesOf(build, Wanted(disk, request)))
    ensures var (s', reply) := Reconcile(s, env, build, disk, request);
            && reply.Answer? && reply.response.state == Applied && reply.response.generation == request.generation
            && InStep(s', build) && s'.applied == Wanted(disk, request)
            && s'.active == Some(request.generation) && !s'.partial && s'.world.host.exited == s.world.host.exited
            && (Clean(s, build) ==> Clean(s', build))
  {
    hide Reconcile, Tidy, Timely, Wanted, InStep, Clean;
    var to := Reconcile(s, env, build, disk, request).0.world.host.tick;
    var env' := ClearingUp(env, to);
    ReconcileLocal(s, env, env', build, disk, request);
    Converges(s, env', build, disk, request);
    if Clean(s, build) {
      ConvergesCleanly(s, env', build, disk, request);
    }
  }
}
