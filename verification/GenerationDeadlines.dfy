/** Under which deadline every listener a generation takes away drains. */
module GenerationDeadlines {
  import opened Lifecycle
  import opened Manager
  import opened ManagerFrame
  import opened ManagerRuns
  import opened Reconciliation
  import opened NonInterference
  import opened Turns

  /** What becomes of a listener of an endpoint that is not operated on: it stays, or its task has exited and it
      drains under the delete deadline of its endpoint. */
  ghost predicate Fate(w: World, w': World, i: Id, p: Proto)
    requires ActiveAt(w, i, p).Some?
  {
    var a := ActiveAt(w, i, p).value;
    || ActiveAt(w', i, p) == Some(a)
    || (a.cohort in w'.host.exited && DrainsUnder(w'.host, a, w.entries[i].drain.onDelete))
  }

  lemma FateTrans(w: World, w1: World, w2: World, i: Id, p: Proto)
    requires ActiveAt(w, i, p).Some? && Fate(w, w1, i, p) && Untouched(w, w1, i)
    requires ActiveAt(w1, i, p).Some? ==> Fate(w1, w2, i, p)
    requires Ages(w1.host, w2.host)
    ensures Fate(w, w2, i, p)
  {
    var a := ActiveAt(w, i, p).value;
    if ActiveAt(w1, i, p) != Some(a) {
      DrainsStill(w1.host, w2.host, a, w.entries[i].drain.onDelete);
    }
  }

  lemma RemoveElsewhere(w: World, env: Env, id: Id, i: Id, p: Proto)
    requires i != id && ActiveAt(w, i, p).Some?
    ensures Fate(w, Remove(w, env, id).0, i, p)
  {
    RefreshDeadline(w, env, i, p);
    var w1 := Refresh(w, env);
    hide Refresh, DrainsUnder;
    if id in w1.entries {
      RemoveRefreshedFrame(w1, id, w1.entries[id].drain.onDelete);
      var w' := RemoveRefreshed(w1, id, w1.entries[id].drain.onDelete);
      assert w' == Remove(w, env, id).0;
      if ActiveAt(w1, i, p) != ActiveAt(w, i, p) {
        DrainsStill(w1.host, w'.host, ActiveAt(w, i, p).value, w.entries[i].drain.onDelete);
      }
    }
  }

  lemma ApplyElsewhere(w: World, env: Env, id: Id, generation: Generation, spec: Spec, i: Id, p: Proto)
    requires i != id && ActiveAt(w, i, p).Some?
    ensures Fate(w, Apply(w, env, id, generation, spec).0, i, p)
  {
    hide Apply, DrainsUnder;
    ApplyDeadline(w, env, id, generation, spec, i, p);
  }

  lemma PlanElsewhere(s: State, env: Env, build: Build, generation: Generation, candidate: bool, p: Progress, id: Id,
                      plan: Plan, i: Id, proto: Proto)
    requires (i != id || Stays(plan)) && ActiveAt(p.world, i, proto).Some?
    ensures Fate(p.world, ApplyPlan(s, env, build, generation, candidate, p, id, plan).world, i, proto)
  {
    hide Apply, Remove, Fate, Only;
    if Stays(plan) {
      FateSelf(p.world, i, proto);
    } else if plan == Delete {
      RemoveElsewhere(p.world, env, id, i, proto);
    } else {
      ApplyElsewhere(p.world, env, id, generation, plan.built, i, proto);
      var w1 := Apply(p.world, env, id, generation, plan.built).0;
      var previous := Lookup(s.applied, id);
      if previous.Some? && build(previous.value).Some? {
        var back := build(previous.value).value;
        ApplyFrame(p.world, env, id, generation, plan.built);
        ApplyFrame(w1, env, id, generation, back);
        OnlyUntouched(p.world, w1, id, i);
        if ActiveAt(w1, i, proto).Some? {
          ApplyElsewhere(w1, env, id, generation, back, i, proto);
        }
        OnlyUntouched(w1, Apply(w1, env, id, generation, back).0, id, i);
        FateTrans(p.world, w1, Apply(w1, env, id, generation, back).0, i, proto);
      }
    }
  }

  lemma FateSelf(w: World, i: Id, p: Proto)
    requires ActiveAt(w, i, p).Some?
    ensures Fate(w, w, i, p)
  {
  }

  lemma OnlyUntouched(w: World, w': World, id: Id, i: Id)
    requires Only(w, w', id) && i != id
    ensures Untouched(w, w', i) && Ages(w.host, w'.host)
  {
  }

  lemma {:induction false} PlansElsewhere(s: State, env: Env, build: Build, generation: Generation, w0: World,
                                          plans: map<Id, Plan>, p: Progress, ids: seq<Id>, i: Id, proto: Proto)
    requires forall k :: 0 <= k < |ids| ==> ids[k] in plans
    requires i in ids ==> Stays(plans[i])
    requires ActiveAt(p.world, i, proto).Some?
    ensures Fate(p.world, ApplyPlans(s, env, build, generation, w0, plans, p, ids).world, i, proto)
    decreases |ids|
  {
    hide ApplyPlan, Fate, Untouched, Ages, RestoreCandidate;
    if ids == [] {
      FateSelf(p.world, i, proto);
    } else {
      var c := RestoreCandidate(w0, plans, ids[0]);
      var p1 := ApplyPlan(s, env, build, generation, c, p, ids[0], plans[ids[0]]);
      var p2 := ApplyPlans(s, env, build, generation, w0, plans, p1, ids[1..]);
      PlanElsewhere(s, env, build, generation, c, p, ids[0], plans[ids[0]], i, proto);
      ApplyPlanElsewhere(s, env, build, generation, c, p, ids[0], plans[ids[0]], i);
      ApplyPlansElsewhere(s, env, build, generation, w0, plans, p1, ids[1..], i);
      if ActiveAt(p1.world, i, proto).Some? {
        PlansElsewhere(s, env, build, generation, w0, plans, p1, ids[1..], i, proto);
      }
      FateTrans(p.world, p1.world, p2.world, i, proto);
    }
  }

  // ---------------------------------------------------------------- its own turn

  /** A listener of an endpoint that is brought to `spec` is superseded, and drains under the update deadline of the
      spec, or its delete deadline if the spec dropped the protocol; or its task has exited, and it drains under the
      delete deadline the endpoint had or has. */
  ghost predicate Gone(w: World, w': World, spec: Spec, i: Id, p: Proto)
    requires ActiveAt(w, i, p).Some?
  {
    var a, deadlines := ActiveAt(w, i, p).value, DeadlinesOf(spec, w.policy);
    || DrainsUnder(w'.host, a, if Wants(spec, p) then deadlines.onUpdate else deadlines.onDelete)
    || (&& a.cohort in w'.host.exited
        && (DrainsUnder(w'.host, a, w.entries[i].drain.onDelete) || DrainsUnder(w'.host, a, deadlines.onDelete)))
  }

  lemma GoneStays(w: World, w1: World, w2: World, spec: Spec, i: Id, p: Proto)
    requires ActiveAt(w, i, p).Some? && Gone(w, w1, spec, i, p) && Ages(w1.host, w2.host)
    ensures Gone(w, w2, spec, i, p)
  {
    hide DrainsUnder, Ages;
    var a, deadlines := ActiveAt(w, i, p).value, DeadlinesOf(spec, w.policy);
    var deadline := if Wants(spec, p) then deadlines.onUpdate else deadlines.onDelete;
    AgesExited(w1.host, w2.host);
    if DrainsUnder(w1.host, a, deadline) {
      DrainsStill(w1.host, w2.host, a, deadline);
    } else if DrainsUnder(w1.host, a, deadlines.onDelete) {
      DrainsStill(w1.host, w2.host, a, deadlines.onDelete);
    } else {
      DrainsStill(w1.host, w2.host, a, w.entries[i].drain.onDelete);
    }
  }

  lemma AgesExited(h: Host, h': Host)
    requires Ages(h, h')
    ensures h.exited <= h'.exited
  {
  }

  /** A listener that comes through the turn of its endpoint is there under the deadlines the endpoint had or has. */
  ghost predicate ComesThrough(w: World, w': World, spec: Spec, i: Id, p: Proto)
    requires ActiveAt(w, i, p).Some?
  {
    && ActiveAt(w', i, p) == ActiveAt(w, i, p)
    && (w'.entries[i].drain == w.entries[i].drain || w'.entries[i].drain == DeadlinesOf(spec, w.policy))
  }

  lemma BindingDeadline(s: State, env: Env, build: Build, generation: Generation, candidate: bool, p: Progress, id: Id,
                        built: Spec, proto: Proto)
    requires ActiveAt(p.world, id, proto).Some?
    ensures var w' := ApplyBinding(s, env, build, generation, candidate, p, id, built).world;
            Gone(p.world, w', built, id, proto) || ComesThrough(p.world, w', built, id, proto)
  {
    hide Apply, DrainsUnder, Only;
    ApplyDeadline(p.world, env, id, generation, built, id, proto);
    var w1 := Apply(p.world, env, id, generation, built).0;
    if id in w1.entries {
      ApplyKeepsPolicy(p.world, env, id, generation, built, id);
    }
    var previous := Lookup(s.applied, id);
    if !Serving(w1, id) && previous.Some? && build(previous.value).Some? {
      var back := build(previous.value).value;
      ApplyFrame(w1, env, id, generation, back);
      OnlyAges(w1, Apply(w1, env, id, generation, back).0, id);
      assert ActiveAt(w1, id, proto).None? by { assert proto == Tcp || proto == Udp; }
      hide Gone;
      GoneStays(p.world, w1, Apply(w1, env, id, generation, back).0, built, id, proto);
    }
  }

  lemma OnlyAges(w: World, w': World, id: Id)
    requires Only(w, w', id)
    ensures Ages(w.host, w'.host)
  {
  }

  /** The whole generation, for a listener that was not stopped ahead of time. */
  lemma BoundDeadline(w: World, w1: World, w2: World, w3: World, spec: Spec, i: Id, p: Proto)
    requires ActiveAt(w, i, p).Some? && Fate(w, w1, i, p) && Untouched(w, w1, i) && w1.policy == w.policy
    requires ActiveAt(w1, i, p).Some? ==> Gone(w1, w2, spec, i, p) || ComesThrough(w1, w2, spec, i, p)
    requires ActiveAt(w2, i, p).Some? ==> Fate(w2, w3, i, p)
    requires Ages(w1.host, w2.host) && Ages(w2.host, w3.host)
    ensures ActiveAt(w3, i, p) == ActiveAt(w, i, p) || Gone(w, w3, spec, i, p)
  {
    hide DrainsUnder, Ages;
    AgesExited(w1.host, w2.host);
    AgesExited(w2.host, w3.host);
    var a := ActiveAt(w, i, p).value;
    if ActiveAt(w1, i, p) != Some(a) {
      DrainsStill(w1.host, w2.host, a, w.entries[i].drain.onDelete);
      DrainsStill(w2.host, w3.host, a, w.entries[i].drain.onDelete);
    } else if Gone(w1, w2, spec, i, p) {
      GoneStays(w1, w2, w3, spec, i, p);
    }
  }

  lemma {:induction false} PlansKeepPolicy(s: State, env: Env, build: Build, generation: Generation, w0: World,
                                           plans: map<Id, Plan>, p: Progress, ids: seq<Id>)
    requires forall k :: 0 <= k < |ids| ==> ids[k] in plans
    ensures ApplyPlans(s, env, build, generation, w0, plans, p, ids).world.policy == p.world.policy
    decreases |ids|
  {
    hide ApplyPlan;
    if ids != [] {
      var c := RestoreCandidate(w0, plans, ids[0]);
      ApplyPlanFrame(s, env, build, generation, c, p, ids[0], plans[ids[0]]);
      PlansKeepPolicy(s, env, build, generation, w0, plans,
                      ApplyPlan(s, env, build, generation, c, p, ids[0], plans[ids[0]]), ids[1..]);
    }
  }

  // ---------------------------------------------------------------- the whole generation

  /** What becomes of every listener there was before a generation. Of an endpoint that stays as it is: it stays, or
      its task has exited and it drains under the endpoint's delete deadline. Of a deleted endpoint: it drains
      under that deadline. Of one that is started or replaced: it stays, is superseded or has exited; but if it was
      stopped ahead of time for another endpoint, it drains under the update deadline the endpoint had. */
  lemma GenerationDeadline(s: State, env: Env, build: Build, generation: Generation, endpoints: seq<Desired>,
                           unrefreshed: set<Id>, i: Id, p: Proto)
    requires ActiveAt(s.world, i, p).Some?
    ensures var plans := Plans(s, build, unrefreshed, endpoints);
            var end := ApplyGeneration(s, env, build, generation, endpoints, unrefreshed).world;
            var a, own := ActiveAt(s.world, i, p).value, s.world.entries[i].drain;
            i in plans && match plans[i]
              case Delete => DrainsUnder(end.host, a, own.onDelete)
              case Start(built) => ActiveAt(end, i, p) == Some(a) || Gone(s.world, end, built, i, p)
              case Replace(built) =>
                if ActiveAt(Release(s.world, plans), i, p).None? then DrainsUnder(end.host, a, own.onUpdate)
                else ActiveAt(end, i, p) == Some(a) || Gone(s.world, end, built, i, p)
              case _ => Fate(s.world, end, i, p)
  {
    hide Plans, Diff, ReleaseIds, ApplyPlans, Ages, DrainsUnder, Fate, Gone, HandedOff, GivesUp, Needed;
    var plans := Plans(s, build, unrefreshed, endpoints);
    var ids := SortedKeys(plans.Keys);
    var p0 := Opening(s, build, endpoints, unrefreshed);
    PlansKeys(s, build, unrefreshed, endpoints);
    var k :| 0 <= k < |ids| && ids[k] == i;
    ReleaseKeepsPolicy(s.world, s.world, plans, ids, i);
    ReleaseIsExact(s.world, plans, i, p);
    if ActiveAt(p0.world, i, p).None? {
      var a, deadline := ActiveAt(s.world, i, p).value, HandOffDeadline(s.world, plans[i], i);
      HandedOffDrains(s.world, p0.world, plans, i, p);
      PlansAge(s, env, build, generation, s.world, plans, p0, ids);
      DrainsStill(p0.world.host, ApplyPlans(s, env, build, generation, s.world, plans, p0, ids).world.host, a,
                  deadline);
    } else {
      HandedOffIsNot(s.world, p0.world, plans, i, p);
      FromOpening(s, env, build, generation, plans, p0, ids, k, p);
      SameOpening(s.world, p0.world, ApplyPlans(s, env, build, generation, s.world, plans, p0, ids).world, plans[i], i,
                  p);
    }
  }

  lemma HandedOffDrains(w: World, w': World, plans: map<Id, Plan>, i: Id, p: Proto)
    requires i in plans && ActiveAt(w, i, p).Some? && ActiveAt(w', i, p).None?
    requires if GivesUp(w, plans[i], i) && Needed(w, plans, Key(w.entries[i].slots[p].endpoint.laddr, p)) then
               HandedOff(w, w', plans, i, p)
             else SlotAt(w', i, p) == SlotAt(w, i, p)
    ensures plans[i] == Delete || plans[i].Replace?
    ensures DrainsUnder(w'.host, ActiveAt(w, i, p).value, HandOffDeadline(w, plans[i], i))
  {
  }

  lemma HandedOffIsNot(w: World, w': World, plans: map<Id, Plan>, i: Id, p: Proto)
    requires i in plans && ActiveAt(w, i, p).Some? && ActiveAt(w', i, p).Some?
    requires if GivesUp(w, plans[i], i) && Needed(w, plans, Key(w.entries[i].slots[p].endpoint.laddr, p)) then
               HandedOff(w, w', plans, i, p)
             else SlotAt(w', i, p) == SlotAt(w, i, p)
    ensures SlotAt(w', i, p) == SlotAt(w, i, p)
  {
  }

  /** The fate of a listener by the plan of its endpoint. */
  ghost predicate ByPlan(w: World, w': World, plan: Plan, i: Id, p: Proto)
    requires ActiveAt(w, i, p).Some?
  {
    match plan
    case Delete => DrainsUnder(w'.host, ActiveAt(w, i, p).value, w.entries[i].drain.onDelete)
    case Start(built) => ActiveAt(w', i, p) == ActiveAt(w, i, p) || Gone(w, w', built, i, p)
    case Replace(built) => ActiveAt(w', i, p) == ActiveAt(w, i, p) || Gone(w, w', built, i, p)
    case _ => Fate(w, w', i, p)
  }

  lemma SameOpening(w: World, w1: World, w2: World, plan: Plan, i: Id, p: Proto)
    requires ActiveAt(w, i, p).Some? && SlotAt(w1, i, p) == SlotAt(w, i, p)
    requires w1.entries[i].drain == w.entries[i].drain && w1.policy == w.policy
    requires ByPlan(w1, w2, plan, i, p)
    ensures ByPlan(w, w2, plan, i, p)
  {
  }

  /** From the opening of a generation to its end. */
  lemma FromOpening(s: State, env: Env, build: Build, generation: Generation, plans: map<Id, Plan>, p0: Progress,
                    ids: seq<Id>, k: nat, proto: Proto)
    requires forall i :: 0 <= i < |ids| ==> ids[i] in plans
    requires forall i, j :: 0 <= i < j < |ids| ==> ids[i] != ids[j]
    requires k < |ids| && ActiveAt(p0.world, ids[k], proto).Some?
    ensures ByPlan(p0.world, ApplyPlans(s, env, build, generation, s.world, plans, p0, ids).world, plans[ids[k]],
                   ids[k], proto)
  {
    hide ApplyPlans, ApplyPlan, Untouched, Ages, Fate, Gone, DrainsUnder, RestoreCandidate;
    var i := ids[k];
    var end := ApplyPlans(s, env, build, generation, s.world, plans, p0, ids).world;
    if Stays(plans[i]) {
      PlansElsewhere(s, env, build, generation, s.world, plans, p0, ids, i, proto);
    } else {
      assert i !in ids[..k] && i !in ids[k + 1..];
      var c := RestoreCandidate(s.world, plans, i);
      var p, q := OwnTurn(s, env, build, generation, s.world, plans, p0, ids, k);
      PlansElsewhere(s, env, build, generation, s.world, plans, p0, ids[..k], i, proto);
      ApplyPlanFrame(s, env, build, generation, c, p, i, plans[i]);
      OnlyAges(p.world, q.world, i);
      if plans[i] == Delete {
        DeleteTurn(s, env, build, generation, c, p0, p, q, end, i, proto);
      } else {
        assert ids == ids[..k + 1] + ids[k + 1..];
        ApplyPlansSplit(s, env, build, generation, s.world, plans, p0, ids[..k + 1], ids[k + 1..]);
        if ActiveAt(q.world, i, proto).Some? {
          PlansElsewhere(s, env, build, generation, s.world, plans, q, ids[k + 1..], i, proto);
        }
        if ActiveAt(p.world, i, proto).Some? {
          BindTurn(s, env, build, generation, c, p, i, plans[i], proto);
        }
        PlansKeepPolicy(s, env, build, generation, s.world, plans, p0, ids[..k]);
        BoundDeadline(p0.world, p.world, q.world, end, plans[i].built, i, proto);
      }
    }
  }

  lemma BindTurn(s: State, env: Env, build: Build, generation: Generation, c: bool, p: Progress, i: Id, plan: Plan,
                 proto: Proto)
    requires ActiveAt(p.world, i, proto).Some? && Binds(plan)
    ensures var w' := ApplyPlan(s, env, build, generation, c, p, i, plan).world;
            Gone(p.world, w', plan.built, i, proto) || ComesThrough(p.world, w', plan.built, i, proto)
  {
    hide ApplyBinding, Gone;
    BindingDeadline(s, env, build, generation, c, p, i, plan.built, proto);
  }

  lemma DeleteTurn(s: State, env: Env, build: Build, generation: Generation, c: bool, p0: Progress, p: Progress,
                   q: Progress, end: World, i: Id, proto: Proto)
    requires ActiveAt(p0.world, i, proto).Some? && Fate(p0.world, p.world, i, proto) && Untouched(p0.world, p.world, i)
    requires q == ApplyPlan(s, env, build, generation, c, p, i, Delete)
    requires Ages(p.world.host, q.world.host) && Ages(q.world.host, end.host)
    ensures ByPlan(p0.world, end, Delete, i, proto)
  {
    hide Remove, DrainsUnder, Ages;
    var a, deadline := ActiveAt(p0.world, i, proto).value, p0.world.entries[i].drain.onDelete;
    if ActiveAt(p.world, i, proto) == Some(a) {
      RemoveDeadline(p.world, env, i, proto);
    } else {
      DrainsStill(p.world.host, q.world.host, a, deadline);
    }
    DrainsStill(q.world.host, end.host, a, deadline);
  }

  lemma {:induction false} PlansAge(s: State, env: Env, build: Build, generation: Generation, w0: World,
                                    plans: map<Id, Plan>, p: Progress, ids: seq<Id>)
    requires forall k :: 0 <= k < |ids| ==> ids[k] in plans
    ensures Ages(p.world.host, ApplyPlans(s, env, build, generation, w0, plans, p, ids).world.host)
    decreases |ids|
  {
    hide ApplyPlan;
    if ids != [] {
      var c := RestoreCandidate(w0, plans, ids[0]);
      ApplyPlanFrame(s, env, build, generation, c, p, ids[0], plans[ids[0]]);
      PlansAge(s, env, build, generation, w0, plans,
               ApplyPlan(s, env, build, generation, c, p, ids[0], plans[ids[0]]), ids[1..]);
    }
  }
}
