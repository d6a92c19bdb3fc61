/** A hand-off gone wrong strands nobody needlessly: an endpoint whose address was released for
    another one, and whose own move then leaves it with nothing serving, is back on its previous
    description at the end of the generation, unless no address of it could be bound. */
module Stranding {
  import opened Lifecycle
  import opened Manager
  import opened ManagerFrame
  import opened Reconciliation
  import opened NonInterference
  import opened Turns

  /** The host at which `apply` tries to bind `proto` of an endpoint with nothing serving: right after its
      refresh or, for udp, right after the bind of tcp. */
  ghost function AttemptAt(w: World, env: Env, id: Id, generation: Generation, spec: Spec, proto: Proto): Host {
    var w1 := Refresh(w, env);
    if proto == Tcp || !spec.tcp then w1.host else Launch(w1, env, id, Tcp, spec.endpoint, generation).0.host
  }

  /** A bind of `key` tried on host `h` succeeds. */
  ghost predicate BindSucceeds(env: Env, h: Host, key: Key) {
    CanBind(Advance(h, env(h.tick)), env(h.tick), key)
  }

  /** What `apply` comes to on an endpoint with nothing serving: a protocol is served if and only if the spec
      asks for it and its bind, at the moment it was tried, succeeded; and what is served is the spec. */
  ghost predicate ServesWhatBinds(w: World, env: Env, w': World, id: Id, generation: Generation, spec: Spec) {
    && (forall p :: ActiveAt(w', id, p).Some? <==>
          Wants(spec, p) && BindSucceeds(env, AttemptAt(w, env, id, generation, spec, p), Key(spec.endpoint.laddr, p)))
    && (forall p :: ActiveAt(w', id, p).Some? ==>
          w'.entries[id].slots[p].endpoint == spec.endpoint && w'.entries[id].slots[p].material == spec.material)
  }

  /** One protocol of `apply` on a slot without a listener. */
  lemma IdleProto(w: World, env: Env, id: Id, generation: Generation, spec: Spec, proto: Proto, drain: DrainPolicy)
    requires id in w.entries && ActiveAt(w, id, proto).None?
    ensures var w' := ApplyProto(w, env, id, generation, spec, proto, drain).0;
            && AtSlot(w, w', id, proto)
            && (ActiveAt(w', id, proto).Some? <==>
                  Wants(spec, proto) && BindSucceeds(env, w.host, Key(spec.endpoint.laddr, proto)))
            && (ActiveAt(w', id, proto).Some? ==>
                  && w'.entries[id].slots[proto].endpoint == spec.endpoint
                  && w'.entries[id].slots[proto].material == spec.material)
            && w'.host == if Wants(spec, proto) then Launch(w, env, id, proto, spec.endpoint,
                                                            generation).0.host else w.host
  {
    ApplyProtoFrame(w, env, id, generation, spec, proto, drain);
    hide AtSlot, Advance, CanBind;
  }

  lemma IdleBoth(w: World, env: Env, id: Id, generation: Generation, spec: Spec, drain: DrainPolicy)
    requires id in w.entries && !Serving(w, id)
    ensures var w1 := ApplyProto(w, env, id, generation, spec, Tcp, drain).0;
            var w2 := ApplyProto(w1, env, id, generation, spec, Udp, drain).0;
            var h := if spec.tcp then Launch(w, env, id, Tcp, spec.endpoint, generation).0.host else w.host;
            && (ActiveAt(w2, id, Tcp).Some? <==> spec.tcp && BindSucceeds(env, w.host, Key(spec.endpoint.laddr, Tcp)))
            && (ActiveAt(w2, id, Udp).Some? <==> spec.udp && BindSucceeds(env, h, Key(spec.endpoint.laddr, Udp)))
            && forall p :: ActiveAt(w2, id, p).Some? ==>
                 w2.entries[id].slots[p].endpoint == spec.endpoint && w2.entries[id].slots[p].material == spec.material
  {
    hide ApplyProto, BindSucceeds, Launch;
    IdleProto(w, env, id, generation, spec, Tcp, drain);
    var w1 := ApplyProto(w, env, id, generation, spec, Tcp, drain).0;
    assert SlotAt(w1, id, Udp) == SlotAt(w, id, Udp);
    IdleProto(w1, env, id, generation, spec, Udp, drain);
    var w2 := ApplyProto(w1, env, id, generation, spec, Udp, drain).0;
    assert SlotAt(w2, id, Tcp) == SlotAt(w1, id, Tcp);
    forall p | ActiveAt(w2, id, p).Some?
      ensures w2.entries[id].slots[p].endpoint == spec.endpoint && w2.entries[id].slots[p].material == spec.material
    {
      assert p == Tcp || p == Udp;
    }
  }

  lemma UpsertIdle(w: World, env: Env, id: Id, generation: Generation, spec: Spec, drain: DrainPolicy)
    requires !Serving(w, id)
    ensures var w' := Upsert(w, id, drain);
            && id in w'.entries && !Serving(w', id) && w'.host == w.host
            && Launch(w', env, id, Tcp, spec.endpoint, generation).0.host
            == Launch(w, env, id, Tcp, spec.endpoint, generation).0.host
  {
  }

  lemma IdlePruned(w: World, env: Env, id: Id, generation: Generation, spec: Spec, drain: DrainPolicy)
    requires id in w.entries && !Serving(w, id)
    ensures var w1 := ApplyProto(w, env, id, generation, spec, Tcp, drain).0;
            var w' := Prune(ApplyProto(w1, env, id, generation, spec, Udp, drain).0, id);
            var h := if spec.tcp then Launch(w, env, id, Tcp, spec.endpoint, generation).0.host else w.host;
            && (ActiveAt(w', id, Tcp).Some? <==> spec.tcp && BindSucceeds(env, w.host, Key(spec.endpoint.laddr, Tcp)))
            && (ActiveAt(w', id, Udp).Some? <==> spec.udp && BindSucceeds(env, h, Key(spec.endpoint.laddr, Udp)))
            && forall p :: ActiveAt(w', id, p).Some? ==>
                 w'.entries[id].slots[p].endpoint == spec.endpoint && w'.entries[id].slots[p].material == spec.material
  {
    hide ApplyProto, Prune, Serving, Launch, BindSucceeds;
    IdleBoth(w, env, id, generation, spec, drain);
    PruneActives(ApplyProto(ApplyProto(w, env, id, generation, spec, Tcp, drain).0,
                            env, id, generation, spec, Udp, drain).0, id);
  }

  lemma IdleApplied(w: World, env: Env, id: Id, generation: Generation, spec: Spec, drain: DrainPolicy)
    requires !Serving(Refresh(w, env), id)
    ensures var w' := ApplyRefreshed(Refresh(w, env), env, id, generation, spec, drain);
            ServesWhatBinds(w, env, w', id, generation, spec)
  {
    var w1 := Refresh(w, env);
    hide Refresh, ApplyProto, Prune, Upsert, Serving, Launch, BindSucceeds, ActiveAt;
    UpsertIdle(w1, env, id, generation, spec, drain);
    IdlePruned(Upsert(w1, id, drain), env, id, generation, spec, drain);
    var w' := ApplyRefreshed(w1, env, id, generation, spec, drain);
    forall p
      ensures ActiveAt(w', id, p).Some? <==>
                && Wants(spec, p)
                && BindSucceeds(env, AttemptAt(w, env, id, generation, spec, p), Key(spec.endpoint.laddr, p))
    {
      assert p == Tcp || p == Udp;
    }
  }

  /** `apply` on an endpoint with nothing serving. */
  lemma ApplyFromIdle(w: World, env: Env, id: Id, generation: Generation, spec: Spec)
    requires !Serving(w, id)
    ensures ServesWhatBinds(w, env, Apply(w, env, id, generation, spec).0, id, generation, spec)
  {
    hide Refresh;
    RefreshFrame(w, env);
    UntouchedIdle(w, Refresh(w, env), id);
    hide Nothing, Untouched;
    if spec.tcp || spec.udp {
      IdleApplied(w, env, id, generation, spec, PolicyOf(w, spec));
    } else {
      forall p ensures ActiveAt(Refresh(w, env), id, p).None? && !Wants(spec, p) { assert p == Tcp || p == Udp; }
    }
  }

  /** Some protocol of `spec` can be bound at the moment the repair of `id` tries it. */
  ghost predicate Repairable(w: World, env: Env, id: Id, generation: Generation, spec: Spec) {
    exists p :: Wants(spec, p) && BindSucceeds(env, AttemptAt(w, env, id, generation, spec, p),
                                               Key(spec.endpoint.laddr, p))
  }

  /** The repair of one failed move: back on exactly the protocols of the previous description that can be
      bound and recorded so, or none can and the endpoint is no longer recorded as applied. */
  lemma RepairOne(s: State, env: Env, build: Build, generation: Generation, p: Progress, id: Id, built: Spec)
    requires id in s.applied && build(s.applied[id]).Some?
    requires var (w1, outcomes) := Apply(p.world, env, id, generation, built);
             AnyFailed(outcomes) && !Serving(w1, id)
    ensures var w1 := Apply(p.world, env, id, generation, built).0;
            var p' := ApplyBinding(s, env, build, generation, true, p, id, built);
            var previous := build(s.applied[id]).value;
            && ServesWhatBinds(w1, env, p'.world, id, generation, previous)
            && (Serving(p'.world, id) <==> Repairable(w1, env, id, generation, previous))
            && if Repairable(w1, env, id, generation, previous) then id in p'.desired && p'.desired[id] == s.applied[id]
               else id !in p'.desired
  {
    hide Apply, BindSucceeds, AttemptAt;
    var w1 := Apply(p.world, env, id, generation, built).0;
    var previous := build(s.applied[id]).value;
    ApplyFromIdle(w1, env, id, generation, previous);
    var p' := ApplyBinding(s, env, build, generation, true, p, id, built);
    assert p'.world == Apply(w1, env, id, generation, previous).0;
    if proto :| Wants(previous, proto) && BindSucceeds(env, AttemptAt(w1, env, id, generation, previous, proto),
                                                       Key(previous.endpoint.laddr, proto)) {
      assert proto == Tcp || proto == Udp;
    }
  }

  // ---------------------------------------------------------------- to the end of the generation

  /** A listener of the replaced endpoint `id` was stopped ahead of time for another endpoint, its own move fails, and
      that leaves it with nothing serving. */
  ghost predicate MoveStrands(s: State, env: Env, build: Build, generation: Generation, plans: map<Id, Plan>,
                              p: Progress, id: Id) {
    && id in plans && plans[id].Replace? && StoppedAhead(s.world, plans, id)
    && id in s.applied && build(s.applied[id]).Some?
    && var (w1, outcomes) := Apply(p.world, env, id, generation, plans[id].built);
       AnyFailed(outcomes) && !Serving(w1, id)
  }

  /** What the end of a generation keeps of a protocol that was brought back: a listener of the previous description
      on exactly the protocols that could be bound, unless its task has exited since. */
  ghost predicate EndsBack(moved: World, env: Env, end: World, id: Id, generation: Generation, spec: Spec, p: Proto) {
    && (ActiveAt(end, id, p).Some? ==>
          && Wants(spec, p) && BindSucceeds(env, AttemptAt(moved, env, id, generation, spec, p),
                                            Key(spec.endpoint.laddr, p))
          && end.entries[id].slots[p].endpoint == spec.endpoint && end.entries[id].slots[p].material == spec.material)
    && (Wants(spec, p) && BindSucceeds(env, AttemptAt(moved, env, id, generation, spec, p),
                                       Key(spec.endpoint.laddr, p)) ==>
          || ActiveAt(end, id, p).Some?
          || (SlotAt(end, id, p).Some? && SlotAt(end, id, p).value.state == SlotState.Failed))
  }

  /** No needless stranding, over the whole generation: `q` is what the generation has really come to right after the
      turn of its `k`-th endpoint. The rest of the generation does not touch that endpoint, so at the end it serves
      exactly the protocols of its previous description that could be bound when the repair tried, and is recorded
      so; or none could, it serves nothing, and it is not recorded as applied. */
  lemma NoNeedlessStranding(s: State, env: Env, build: Build, generation: Generation, endpoints: seq<Desired>,
                            unrefreshed: set<Id>, k: nat)
    requires var plans := Plans(s, build, unrefreshed, endpoints);
             && k < |SortedKeys(plans.Keys)|
             && MoveStrands(s, env, build, generation, plans,
                            Before(s, env, build, generation, plans, Opening(s, build, endpoints, unrefreshed),
                                   k), SortedKeys(plans.Keys)[k])
    ensures var plans := Plans(s, build, unrefreshed, endpoints);
            var id := SortedKeys(plans.Keys)[k];
            var p := Before(s, env, build, generation, plans, Opening(s, build, endpoints, unrefreshed), k);
            var q := Before(s, env, build, generation, plans, Opening(s, build, endpoints, unrefreshed), k + 1);
            var end := ApplyGeneration(s, env, build, generation, endpoints, unrefreshed);
            var moved := Apply(p.world, env, id, generation, plans[id].built).0;
            var previous := build(s.applied[id]).value;
            && Untouched(q.world, end.world, id)
            && ServesWhatBinds(moved, env, q.world, id, generation, previous)
            && (forall proto :: EndsBack(moved, env, end.world, id, generation, previous, proto))
            && if Repairable(moved, env, id, generation, previous) then
                 Serving(q.world, id) && id in end.desired && end.desired[id] == s.applied[id]
               else !Serving(end.world, id) && id !in end.desired
  {
    hide Plans, Diff, Release, Apply, ApplyBinding, ServesWhatBinds, Repairable, RestoreCandidate, ApplyPlans,
         Untouched, Ages, Serving, EndsBack, StoppedAhead;
    var plans := Plans(s, build, unrefreshed, endpoints);
    var ids := SortedKeys(plans.Keys);
    var id := ids[k];
    var p, q := OwnTurn(s, env, build, generation, s.world, plans, Opening(s, build, endpoints, unrefreshed), ids, k);
    CandidateIsExact(s.world, plans, id);
    RepairOne(s, env, build, generation, p, id, plans[id].built);
    var end := ApplyGeneration(s, env, build, generation, endpoints, unrefreshed);
    if !Serving(q.world, id) { UntouchedIdle(q.world, end.world, id); }
    var moved := Apply(p.world, env, id, generation, plans[id].built).0;
    forall proto ensures EndsBack(moved, env, end.world, id, generation, build(s.applied[id]).value, proto) {
      BackToTheEnd(moved, env, q.world, end.world, id, generation, build(s.applied[id]).value, proto);
    }
  }

  lemma BackToTheEnd(moved: World, env: Env, w: World, end: World, id: Id, generation: Generation, spec: Spec,
                     proto: Proto)
    requires ServesWhatBinds(moved, env, w, id, generation, spec) && Untouched(w, end, id)
    ensures EndsBack(moved, env, end, id, generation, spec, proto)
  {
    hide BindSucceeds, AttemptAt;
    if id in w.entries && proto in w.entries[id].slots {
      assert WeatheredSlot(w.entries[id].slots[proto], end.entries[id].slots[proto], w.entries[id].drain.onDelete,
                           end.host);
    }
    assert proto == Tcp || proto == Udp;
  }

  /** Nobody else is repaired: if the move of an endpoint fails and leaves it with nothing serving, and none of its
      listeners was stopped ahead of time, or its previous description does not build, nothing more is tried. */
  lemma NobodyElseIsRepaired(s: State, env: Env, build: Build, generation: Generation, endpoints: seq<Desired>,
                             unrefreshed: set<Id>, k: nat)
    requires var plans := Plans(s, build, unrefreshed, endpoints);
             k < |SortedKeys(plans.Keys)| &&
             var id := SortedKeys(plans.Keys)[k];
             var p := Before(s, env, build, generation, plans, Opening(s, build, endpoints, unrefreshed), k);
             && (plans[id].Start? || plans[id].Replace?)
             && !(&& plans[id].Replace? && StoppedAhead(s.world, plans, id)
                  && id in s.applied && build(s.applied[id]).Some?)
             && var (w1, outcomes) := Apply(p.world, env, id, generation, plans[id].built);
                AnyFailed(outcomes) && !Serving(w1, id)
    ensures var plans := Plans(s, build, unrefreshed, endpoints);
            var id := SortedKeys(plans.Keys)[k];
            var p := Before(s, env, build, generation, plans, Opening(s, build, endpoints, unrefreshed), k);
            var q := Before(s, env, build, generation, plans, Opening(s, build, endpoints, unrefreshed), k + 1);
            var end := ApplyGeneration(s, env, build, generation, endpoints, unrefreshed);
            && q.world == Apply(p.world, env, id, generation, plans[id].built).0
            && !Serving(end.world, id) && id !in end.desired
  {
    hide Plans, Diff, Release, Apply, ApplyPlan, RestoreCandidate, ApplyPlans, Untouched, Ages, Serving, StoppedAhead;
    var plans := Plans(s, build, unrefreshed, endpoints);
    var ids := SortedKeys(plans.Keys);
    var p, q := OwnTurn(s, env, build, generation, s.world, plans, Opening(s, build, endpoints, unrefreshed), ids, k);
    CandidateIsExact(s.world, plans, ids[k]);
    GivenUp(s, env, build, generation, RestoreCandidate(s.world, plans, ids[k]), p, ids[k], plans[ids[k]]);
    UntouchedIdle(q.world, ApplyGeneration(s, env, build, generation, endpoints, unrefreshed).world, ids[k]);
  }

  lemma GivenUp(s: State, env: Env, build: Build, generation: Generation, restorable: bool, p: Progress, id: Id,
                plan: Plan)
    requires plan.Start? || plan.Replace?
    requires var (w1, outcomes) := Apply(p.world, env, id, generation, plan.built);
             AnyFailed(outcomes) && !Serving(w1, id)
    requires !(restorable && id in s.applied && build(s.applied[id]).Some?)
    ensures var q := ApplyPlan(s, env, build, generation, restorable, p, id, plan);
            q.world == Apply(p.world, env, id, generation, plan.built).0 && id !in q.desired
  {
    hide Apply, AnyFailed, Serving;
  }

  lemma UntouchedIdle(w: World, w': World, id: Id)
    requires Untouched(w, w', id) && !Serving(w, id)
    ensures !Serving(w', id)
  {
    if id in w.entries {
      assert forall p :: p in w.entries[id].slots ==>
          WeatheredSlot(w.entries[id].slots[p], w'.entries[id].slots[p], w.entries[id].drain.onDelete, w'.host);
    }
  }
}
