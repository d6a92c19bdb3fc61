/** Whole runs of the reconciler: what every sequence of submissions and status queries keeps, from an
    empty or a restored process on, in any weather. */
module ReconcileRuns {
  import opened Lifecycle
  import opened Manager
  import opened ManagerInvariant
  import opened ManagerFrame
  import opened ManagerRuns
  import opened ManagerServe
  import opened Reconciliation
  import opened Convergence
  import opened NonInterference
  import Replay

  // ---------------------------------------------------------------- the manager's invariant

  /** Built specs carry the digest of what their endpoint was built from. */
  ghost predicate Faithful(build: Build) {
    forall d :: WellBuilt(Built(build, d))
  }

  /** With `d`, digests are honest too. */
  ghost predicate Sound(w: World, d: bool) {
    Inv(w, {}) && Honest(w, d)
  }

  lemma BindingSound(s: State, env: Env, build: Build, generation: Generation, candidate: bool, p: Progress, id: Id,
                     built: Spec, d: bool)
    requires Sound(p.world, d) && (d ==> Faithful(build) && WellBuilt(built))
    ensures Sound(ApplyBinding(s, env, build, generation, candidate, p, id, built).world, d)
  {
    hide Inv, Honest, Apply;
    ApplyInv(p.world, env, id, generation, built);
    ApplyHonest(p.world, env, id, generation, built, d);
    var w1 := Apply(p.world, env, id, generation, built).0;
    var previous := Lookup(s.applied, id);
    if previous.Some? && build(previous.value).Some? {
      var back := build(previous.value).value;
      assert d ==> WellBuilt(Built(build, previous.value));
      ApplyInv(w1, env, id, generation, back);
      ApplyHonest(w1, env, id, generation, back, d);
    }
  }

  ghost predicate WellBuiltPlans(plans: map<Id, Plan>) {
    forall id :: id in plans && Binds(plans[id]) ==> WellBuilt(plans[id].built)
  }

  lemma PlanSound(s: State, env: Env, build: Build, generation: Generation, candidate: bool, p: Progress, id: Id,
                  plan: Plan, d: bool)
    requires Sound(p.world, d) && (d ==> Faithful(build) && (Binds(plan) ==> WellBuilt(plan.built)))
    ensures Sound(ApplyPlan(s, env, build, generation, candidate, p, id, plan).world, d)
  {
    hide Inv, Honest, ApplyBinding, Remove;
    match plan {
      case Start(built) => BindingSound(s, env, build, generation, candidate, p, id, built, d);
      case Replace(built) => BindingSound(s, env, build, generation, candidate, p, id, built, d);
      case Delete =>
        RemoveInv(p.world, env, id);
        RemoveHonest(p.world, env, id, d);
      case _ =>
    }
  }

  lemma {:induction false} PlansSound(s: State, env: Env, build: Build, generation: Generation, w0: World,
                                      plans: map<Id, Plan>,
                                      p: Progress, ids: seq<Id>, d: bool)
    requires Sound(p.world, d) && (d ==> Faithful(build) && WellBuiltPlans(plans))
    requires forall i :: 0 <= i < |ids| ==> ids[i] in plans
    ensures Sound(ApplyPlans(s, env, build, generation, w0, plans, p, ids).world, d)
    decreases |ids|
  {
    hide Sound, ApplyPlan;
    if ids != [] {
      var c := RestoreCandidate(w0, plans, ids[0]);
      PlanSound(s, env, build, generation, c, p, ids[0], plans[ids[0]], d);
      var q := ApplyPlan(s, env, build, generation, c, p, ids[0], plans[ids[0]]);
      PlansSound(s, env, build, generation, w0, plans, q, ids[1..], d);
    }
  }

  lemma {:induction false} ReleaseSound(w: World, w0: World, plans: map<Id, Plan>, ids: seq<Id>, d: bool)
    requires Sound(w, d)
    ensures Sound(ReleaseIds(w, w0, plans, ids), d)
    decreases |ids|
  {
    hide Inv, Honest, StopAccept, Released;
    if ids != [] {
      var w1 := ReleaseProto(w, w0, plans, ids[0], Tcp);
      var w2 := ReleaseProto(w1, w0, plans, ids[0], Udp);
      if ids[0] in plans {
        StopAcceptInv(w, ids[0], Tcp, ReleaseDeadline(w, plans[ids[0]], ids[0]));
        StopAcceptHonest(w, ids[0], Tcp, ReleaseDeadline(w, plans[ids[0]], ids[0]), d);
        StopAcceptInv(w1, ids[0], Udp, ReleaseDeadline(w1, plans[ids[0]], ids[0]));
        StopAcceptHonest(w1, ids[0], Udp, ReleaseDeadline(w1, plans[ids[0]], ids[0]), d);
      } else {
        NeverReleased(w0, plans, ids[0], Tcp);
        NeverReleased(w0, plans, ids[0], Udp);
      }
      ReleaseSound(w2, w0, plans, ids[1..], d);
    }
  }

  lemma {:induction false} DiffWellBuilt(s: State, build: Build, unrefreshed: set<Id>, endpoints: seq<Desired>)
    requires Faithful(build)
    ensures WellBuiltPlans(Diff(s, build, unrefreshed, endpoints).plans)
  {
    if endpoints != [] {
      DiffWellBuilt(s, build, unrefreshed, endpoints[..|endpoints| - 1]);
      assert WellBuilt(Built(build, endpoints[|endpoints| - 1].spec));
    }
  }

  lemma GenerationSound(s: State, env: Env, build: Build, generation: Generation, endpoints: seq<Desired>,
                        unrefreshed: set<Id>, d: bool)
    requires Sound(s.world, d) && (d ==> Faithful(build))
    ensures Sound(ApplyGeneration(s, env, build, generation, endpoints, unrefreshed).world, d)
  {
    hide Sound, Diff, ReleaseIds, ApplyPlans;
    if d {
      DiffWellBuilt(s, build, unrefreshed, endpoints);
    }
    var plans := Plans(s, build, unrefreshed, endpoints);
    var ids := SortedKeys(plans.Keys);
    ReleaseSound(s.world, s.world, plans, ids, d);
    var p0 := Progress(Release(s.world, plans), Diff(s, build, unrefreshed, endpoints).desired, []);
    PlansSound(s, env, build, generation, s.world, plans, p0, ids, d);
  }

  // ---------------------------------------------------------------- whatever is applied is held

  /** Everything recorded as applied has an entry in the manager. */
  ghost predicate Held(w: World, applied: map<Id, Desc>) {
    forall id :: id in applied ==> id in w.entries
  }

  /** An `apply` without a failure leaves the endpoint serving. */
  lemma SucceededServes(w: World, env: Env, id: Id, generation: Generation, spec: Spec)
    ensures var (w', os) := Apply(w, env, id, generation, spec);
            !AnyFailed(os) ==> Serving(w', id)
  {
    var (w', os) := Apply(w, env, id, generation, spec);
    assert !spec.tcp && !spec.udp ==> os[0].action == Action.Failed;
    if !AnyFailed(os) {
      if spec.tcp || spec.udp {
        hide Refresh, ApplySlot, StopSlot, Prune;
        var drain := PolicyOf(w, spec);
        var w2 := Upsert(Refresh(w, env), id, drain);
        var (w3, o3) := ApplyProto(w2, env, id, generation, spec, Tcp, drain);
        var (w4, o4) := ApplyProto(w3, env, id, generation, spec, Udp, drain);
        ApplyProtoFrame(w2, env, id, generation, spec, Tcp, drain);
        ApplyProtoFrame(w3, env, id, generation, spec, Udp, drain);
        PruneActives(w4, id);
        assert os == o3 + o4;
        if spec.tcp {
          AppliedSlot(w2, env, id, generation, spec, Tcp, drain);
          assert os[0] == o3[0];
          assert SlotAt(w4, id, Tcp) == SlotAt(w3, id, Tcp);
        } else {
          AppliedSlot(w3, env, id, generation, spec, Udp, drain);
          assert os[|o3|] == o4[0];
        }
      }
    }
  }

  /** After its own plan, an endpoint that is desired is held. */
  lemma PlanHolds(s: State, env: Env, build: Build, generation: Generation, candidate: bool, p: Progress, id: Id,
                  plan: Plan)
    requires plan == Plan.Unchanged ==> id in p.world.entries
    ensures var p' := ApplyPlan(s, env, build, generation, candidate, p, id, plan);
            id in p'.desired ==> id in p'.world.entries
  {
    hide Apply, Remove;
    if Binds(plan) {
      SucceededServes(p.world, env, id, generation, plan.built);
    }
  }

  lemma {:induction false} PlansHold(s: State, env: Env, build: Build, generation: Generation, w0: World,
                                     plans: map<Id, Plan>,
                                     p: Progress, ids: seq<Id>)
    requires forall i :: 0 <= i < |ids| ==> ids[i] in plans
    requires forall id :: id in ids && plans[id] == Plan.Unchanged ==> id in p.world.entries
    requires forall id :: id in p.desired && id !in ids ==> id in p.world.entries
    requires forall i, j :: 0 <= i < j < |ids| ==> ids[i] != ids[j]
    ensures var p' := ApplyPlans(s, env, build, generation, w0, plans, p, ids);
            Held(p'.world, p'.desired)
    decreases |ids|
  {
    hide ApplyPlan, Untouched;
    if ids != [] {
      var id := ids[0];
      var c := RestoreCandidate(w0, plans, id);
      PlanHolds(s, env, build, generation, c, p, id, plans[id]);
      ApplyPlanDesired(s, env, build, generation, c, p, id, plans[id]);
      var p1 := ApplyPlan(s, env, build, generation, c, p, id, plans[id]);
      forall x | x != id && x in p.world.entries ensures x in p1.world.entries {
        ApplyPlanElsewhere(s, env, build, generation, c, p, id, plans[id], x);
        UntouchedHeld(p.world, p1.world, x);
      }
      PlansHold(s, env, build, generation, w0, plans, p1, ids[1..]);
    }
  }

  lemma UntouchedHeld(w: World, w': World, x: Id)
    requires Untouched(w, w', x)
    ensures x in w.entries <==> x in w'.entries
  {
  }

  lemma GenerationHolds(s: State, env: Env, build: Build, generation: Generation, endpoints: seq<Desired>,
                        unrefreshed: set<Id>)
    requires Held(s.world, s.applied)
    ensures var p := ApplyGeneration(s, env, build, generation, endpoints, unrefreshed);
            Held(p.world, p.desired)
  {
    hide Diff, ReleaseIds, ApplyPlans;
    var draft := Diff(s, build, unrefreshed, endpoints);
    var plans := Plans(s, build, unrefreshed, endpoints);
    var ids := SortedKeys(plans.Keys);
    DiffKeys(s, build, unrefreshed, endpoints);
    ReleaseIdsKeys(s.world, s.world, plans, ids);
    forall id | id in ids && plans[id] == Plan.Unchanged ensures id in s.world.entries {
      assert id in draft.plans && draft.plans[id] == Plan.Unchanged;
      DiffPlans(s, build, unrefreshed, endpoints, id);
    }
    PlansHold(s, env, build, generation, s.world, plans, Progress(Release(s.world, plans), draft.desired, []), ids);
  }

  // ---------------------------------------------------------------- runs

  /** `disk` is what the material reads as when the submission is handled. */
  datatype Event = Submit(disk: Disk, request: Request) | Status

  function Handle(s: State, env: Env, build: Build, event: Event): State {
    match event
    case Submit(disk, request) => Reconcile(s, env, build, disk, request).0
    case Status => s.(world := Refresh(s.world, env))
  }

  function Run(s: State, env: Env, build: Build, events: seq<Event>): State {
    if events == [] then s else Handle(Run(s, env, build, events[..|events| - 1]), env, build, events[|events| - 1])
  }

  function Fresh(policy: DrainPolicy): State {
    Restarted(policy).(ready := true)
  }

  ghost predicate Ordered(a: Option<Generation>, b: Option<Generation>) {
    a.Some? ==> b.Some? && a.value <= b.value
  }

  lemma HandleKeeps(s: State, env: Env, build: Build, event: Event, d: bool)
    requires Sound(s.world, d) && Held(s.world, s.applied) && (d ==> Faithful(build))
    ensures var s' := Handle(s, env, build, event);
            Sound(s'.world, d) && Held(s'.world, s'.applied)
  {
    hide Sound, Refresh, ApplyGeneration, Held;
    match event {
      case Submit(disk, request) =>
        var endpoints, unrefreshed := RefreshAll(request.endpoints, disk), Unrefreshed(request.endpoints, disk);
        GenerationSound(s, env, build, request.generation, endpoints, unrefreshed, d);
        GenerationHolds(s, env, build, request.generation, endpoints, unrefreshed);
      case Status =>
        StatusKeeps(s, env, d);
    }
  }

  lemma StatusKeeps(s: State, env: Env, d: bool)
    requires Sound(s.world, d) && Held(s.world, s.applied)
    ensures Sound(Refresh(s.world, env), d) && Held(Refresh(s.world, env), s.applied)
  {
    hide Refresh;
    RefreshInv(s.world, env);
    RefreshHonest(s.world, env, d);
    RefreshFrame(s.world, env);
    assert forall i: Id :: i in s.world.entries ==> Untouched(s.world, Refresh(s.world, env), i);
  }

  lemma {:induction false} RunKeeps(s: State, env: Env, build: Build, events: seq<Event>, d: bool)
    requires (d ==> Faithful(build)) && Sound(s.world, d) && Held(s.world, s.applied)
    ensures Sound(Run(s, env, build, events).world, d) && Held(Run(s, env, build, events).world,
                                                            Run(s, env, build, events).applied)
  {
    hide Sound, Held, Handle;
    if events != [] {
      RunKeeps(s, env, build, events[..|events| - 1], d);
      HandleKeeps(Run(s, env, build, events[..|events| - 1]), env, build, events[|events| - 1], d);
    }
  }

  lemma ApplySound(w: World, env: Env, id: Id, generation: Generation, spec: Spec, d: bool)
    requires Sound(w, d) && (d ==> WellBuilt(spec))
    ensures var (w', os) := Apply(w, env, id, generation, spec);
            && Sound(w', d)
            && (forall i: Id :: i in w.entries && i != id ==> i in w'.entries)
            && (!AnyFailed(os) ==> id in w'.entries)
  {
    hide Apply, Inv, Honest, AnyFailed;
    ApplyInv(w, env, id, generation, spec);
    ApplyHonest(w, env, id, generation, spec, d);
    ApplyFrame(w, env, id, generation, spec);
    SucceededServes(w, env, id, generation, spec);
    var w' := Apply(w, env, id, generation, spec).0;
    forall i: Id | i in w.entries && i != id ensures i in w'.entries {
      UntouchedHeld(w, w', i);
    }
  }

  lemma RestoreOneKeeps(r: Restoring, env: Env, build: Build, disk: Disk, generation: Generation, id: Id, config: nat,
                        d: bool)
    requires (d ==> Faithful(build)) && Sound(r.world, d) && Held(r.world, r.applied) && id !in r.applied
    ensures var r' := RestoreOne(r, env, build, disk, generation, id, config);
            Sound(r'.world, d) && Held(r'.world, r'.applied) && r'.applied.Keys <= r.applied.Keys + {id}
  {
    hide Sound, Apply, AnyFailed;
    if disk(config).Some? && build(Desc(config, disk(config).value)).Some? {
      var spec := Desc(config, disk(config).value);
      assert d ==> WellBuilt(Built(build, spec));
      ApplySound(r.world, env, id, generation, build(spec).value, d);
    }
  }

  lemma {:induction false} RestoreKeeps(r: Restoring, env: Env, build: Build, disk: Disk, snapshot: Snapshot,
                                        ids: seq<Id>, d: bool)
    requires (d ==> Faithful(build)) && Sound(r.world, d) && Held(r.world, r.applied)
    requires forall i :: 0 <= i < |ids| ==> ids[i] in snapshot.endpoints && ids[i] !in r.applied
    requires forall i, j :: 0 <= i < j < |ids| ==> ids[i] < ids[j]
    ensures var r' := RestoreIds(r, env, build, disk, snapshot, ids);
            Sound(r'.world, d) && Held(r'.world, r'.applied)
    decreases |ids|
  {
    hide Sound, Held, RestoreOne;
    if ids != [] {
      RestoreOneKeeps(r, env, build, disk, snapshot.generation, ids[0], snapshot.endpoints[ids[0]], d);
      RestoreKeeps(RestoreOne(r, env, build, disk, snapshot.generation, ids[0], snapshot.endpoints[ids[0]]), env,
                   build, disk, snapshot, ids[1..], d);
    }
  }

  /** In every state of every run the cohorts, sockets and slots agree, a running slot has a listener,
      and everything recorded as applied is held by the manager: from an empty process, and from one
      that restored any snapshot, however much of it could not come back. If what is built carries the digest of
      its material, so does every slot with a listener. */
  lemma EveryRun(policy: DrainPolicy, env: Env, build: Build, disk: Disk, snapshot: Snapshot, events: seq<Event>)
    ensures var s := Run(Fresh(policy), env, build, events);
            Sound(s.world, Faithful(build)) && Held(s.world, s.applied)
    ensures var s := Run(Restore(Restarted(policy), env, build, disk, snapshot), env, build, events);
            Sound(s.world, Faithful(build)) && Held(s.world, s.applied)
  {
    var d := Faithful(build);
    RunKeeps(Fresh(policy), env, build, events, d);
    RestoreKeeps(Restoring(Restarted(policy).world, map[], {}), env, build, disk, snapshot,
                 SortedKeys(snapshot.endpoints.Keys), d);
    hide Sound, Held;
    RunKeeps(Restore(Restarted(policy), env, build, disk, snapshot), env, build, events, d);
  }

  lemma HandleOrdered(s: State, env: Env, build: Build, event: Event)
    ensures Ordered(s.active, Handle(s, env, build, event).active)
  {
    hide Refresh, ApplyGeneration;
  }

  /** The active generation never goes back. */
  lemma {:induction false} GenerationsOnlyGrow(s: State, env: Env, build: Build, events: seq<Event>, k: nat)
    requires k <= |events|
    ensures Ordered(Run(s, env, build, events[..k]).active, Run(s, env, build, events).active)
    decreases |events|
  {
    hide Handle;
    if k == |events| {
      assert events[..k] == events;
    } else {
      var rest := events[..|events| - 1];
      GenerationsOnlyGrow(s, env, build, rest, k);
      assert rest[..k] == events[..k];
      HandleOrdered(Run(s, env, build, rest), env, build, events[|events| - 1]);
    }
  }

  // ---------------------------------------------------------------- answers last

  /** An event that starts no new generation while `generation` is active and answered: a status query, or a
      submission of that generation or an older one whose refreshes succeed. */
  ghost predicate StartsNothing(event: Event, generation: Generation) {
    event.Submit? ==>
      || event.request.generation < generation
      || (event.request.generation == generation && Unrefreshed(event.request.endpoints, event.disk) == {})
  }

  lemma SettledKeeps(s: State, env: Env, build: Build, event: Event)
    requires s.active.Some? && s.last.Some? && StartsNothing(event, s.active.value)
    ensures var s' := Handle(s, env, build, event); s' == s.(world := s'.world)
    ensures event.Submit? ==> Handle(s, env, build, event) == s
  {
    hide Refresh, ApplyGeneration, Content;
  }

  lemma {:induction false} SettledRun(s: State, env: Env, build: Build, events: seq<Event>)
    requires s.active.Some? && s.last.Some?
    requires forall i :: 0 <= i < |events| ==> StartsNothing(events[i], s.active.value)
    ensures var s' := Run(s, env, build, events); s' == s.(world := s'.world)
  {
    hide Handle, StartsNothing;
    if events != [] {
      var rest := events[..|events| - 1];
      SettledRun(s, env, build, rest);
      SettledKeeps(Run(s, env, build, rest), env, build, events[|events| - 1]);
    }
  }

  /** Replay safety along a run: once a generation was applied in full, any number of status queries, refused
      submissions and replays later, submitting the same content over unchanged material still returns the
      first answer, and still changes nothing. */
  lemma AnswersLast(s: State, env: Env, build: Build, disk: Disk, request: Request, events: seq<Event>, disk': Disk,
                    again: Request)
    requires Unrefreshed(request.endpoints, disk) == {} && Unrefreshed(again.endpoints, disk') == {}
    requires var (s1, reply) := Reconcile(s, env, build, disk, request);
             reply.Answer? && reply.response.state == Applied && (s.active == Some(request.generation) ==> s.last.None?)
    requires forall i :: 0 <= i < |events| ==> StartsNothing(events[i], request.generation)
    requires again.generation == request.generation && Content(again.endpoints) == Content(request.endpoints)
    requires forall i :: 0 <= i < |request.endpoints| ==>
               disk'(request.endpoints[i].spec.config) == disk(request.endpoints[i].spec.config)
    ensures var (s1, reply) := Reconcile(s, env, build, disk, request);
            var s2 := Run(s1, env, build, events);
            Reconcile(s2, env, build, disk', again) == (s2, reply)
  {
    var s1 := Reconcile(s, env, build, disk, request).0;
    assert s1.active == Some(request.generation) && s1.last.Some? by { hide ApplyGeneration, Content; }
    hide Reconcile, StartsNothing;
    SettledRun(s1, env, build, events);
    Replay.ReplaysTheAnswer(s, env, build, disk, request, Run(s1, env, build, events).world, env, build, disk', again);
  }
}
