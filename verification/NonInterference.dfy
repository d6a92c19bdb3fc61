/** What a generation does not do, in any weather and from any state: it does not touch an endpoint
    it leaves unchanged or finds invalid, and it leaves nothing behind that was not submitted. */
module NonInterference {
  import opened Lifecycle
  import opened Manager
  import opened ManagerFrame
  import opened Reconciliation

  // ---------------------------------------------------------------- the hand-off

  lemma SameEntry(w: World, w': World, id: Id)
    requires (id in w.entries <==> id in w'.entries) && (id in w.entries ==> w'.entries[id] == w.entries[id])
    ensures Untouched(w, w', id)
  {
    if id in w.entries { WeatheredSelf(w.entries[id], w'.host); }
  }

  lemma {:induction false} ReleaseIdsFrame(w: World, w0: World, plans: map<Id, Plan>, ids: seq<Id>, id: Id)
    requires id in plans ==> Stays(plans[id])
    ensures var w' := ReleaseIds(w, w0, plans, ids);
            && Ages(w.host, w'.host) && w'.entries.Keys == w.entries.Keys
            && (id in w.entries ==> w'.entries[id] == w.entries[id])
    decreases |ids|
  {
    hide StopAccept, Released;
    if ids != [] {
      NeverReleased(w0, plans, id, Tcp);
      NeverReleased(w0, plans, id, Udp);
      var w1 := ReleaseProto(w, w0, plans, ids[0], Tcp);
      var w2 := ReleaseProto(w1, w0, plans, ids[0], Udp);
      if ids[0] in plans {
        StopAcceptFrame(w, ids[0], Tcp, ReleaseDeadline(w, plans[ids[0]], ids[0]));
        StopAcceptFrame(w1, ids[0], Udp, ReleaseDeadline(w1, plans[ids[0]], ids[0]));
      } else {
        NeverReleased(w0, plans, ids[0], Tcp);
        NeverReleased(w0, plans, ids[0], Udp);
      }
      ReleaseIdsFrame(w2, w0, plans, ids[1..], id);
    }
  }

  // ---------------------------------------------------------------- the application

  lemma ApplyBindingFrame(s: State, env: Env, build: Build, generation: Generation, candidate: bool, p: Progress,
                          id: Id, built: Spec)
    ensures Only(p.world, ApplyBinding(s, env, build, generation, candidate, p, id, built).world, id)
  {
    hide Apply, Only;
    var w1 := Apply(p.world, env, id, generation, built).0;
    ApplyFrame(p.world, env, id, generation, built);
    var previous := Lookup(s.applied, id);
    if previous.Some? && build(previous.value).Some? {
      var back := build(previous.value).value;
      ApplyFrame(w1, env, id, generation, back);
      OnlyTrans(p.world, w1, Apply(w1, env, id, generation, back).0, id);
    }
  }

  lemma ApplyPlanFrame(s: State, env: Env, build: Build, generation: Generation, candidate: bool, p: Progress, id: Id,
                       plan: Plan)
    ensures var w' := ApplyPlan(s, env, build, generation, candidate, p, id, plan).world;
            if Stays(plan) then w' == p.world else Only(p.world, w', id)
    ensures plan == Delete ==> id !in ApplyPlan(s, env, build, generation, candidate, p, id, plan).world.entries
  {
    hide ApplyBinding, Remove, Only;
    match plan {
      case Start(built) => ApplyBindingFrame(s, env, build, generation, candidate, p, id, built);
      case Replace(built) => ApplyBindingFrame(s, env, build, generation, candidate, p, id, built);
      case Delete => RemoveFrame(p.world, env, id);
      case _ =>
    }
  }

  /** Applying the plan of one endpoint does not touch another one, nor one that stays. */
  lemma ApplyPlanElsewhere(s: State, env: Env, build: Build, generation: Generation, candidate: bool, p: Progress,
                           i: Id, plan: Plan, id: Id)
    requires i == id ==> Stays(plan)
    ensures var w' := ApplyPlan(s, env, build, generation, candidate, p, i, plan).world;
            Untouched(p.world, w', id) && Ages(p.world.host, w'.host)
  {
    hide ApplyPlan;
    ApplyPlanFrame(s, env, build, generation, candidate, p, i, plan);
    if Stays(plan) { SameEntry(p.world, p.world, id); }
  }

  lemma {:induction false} ApplyPlansElsewhere(s: State, env: Env, build: Build, generation: Generation, w0: World,
                                               plans: map<Id, Plan>,
                                               p: Progress, ids: seq<Id>, id: Id)
    requires forall i :: 0 <= i < |ids| ==> ids[i] in plans
    requires id in ids ==> Stays(plans[id])
    ensures var w' := ApplyPlans(s, env, build, generation, w0, plans, p, ids).world;
            Untouched(p.world, w', id) && Ages(p.world.host, w'.host)
    decreases |ids|
  {
    hide ApplyPlan, Untouched, Ages;
    if ids == [] {
      SameEntry(p.world, p.world, id);
      AgesSelf(p.world.host);
    } else {
      var c := RestoreCandidate(w0, plans, ids[0]);
      ApplyPlanElsewhere(s, env, build, generation, c, p, ids[0], plans[ids[0]], id);
      var p1 := ApplyPlan(s, env, build, generation, c, p, ids[0], plans[ids[0]]);
      ApplyPlansElsewhere(s, env, build, generation, w0, plans, p1, ids[1..], id);
      var w' := ApplyPlans(s, env, build, generation, w0, plans, p1, ids[1..]).world;
      UntouchedTrans(p.world, p1.world, w', id);
      AgesTrans(p.world.host, p1.world.host, w'.host);
    }
  }

  lemma AgesSelf(h: Host)
    ensures Ages(h, h)
  {
  }

  lemma AgesTrans(h: Host, h1: Host, h2: Host)
    requires Ages(h, h1) && Ages(h1, h2)
    ensures Ages(h, h2)
  {
  }

  /** Non-interference: whatever the other endpoints do and whichever binds fail, an endpoint whose
      plan is unchanged or invalid is not operated on. */
  lemma StayingIsUntouched(s: State, env: Env, build: Build, generation: Generation, endpoints: seq<Desired>,
                           unrefreshed: set<Id>, id: Id)
    requires id in Plans(s, build, unrefreshed, endpoints) && Stays(Plans(s, build, unrefreshed, endpoints)[id])
    ensures Untouched(s.world, ApplyGeneration(s, env, build, generation, endpoints, unrefreshed).world, id)
  {
    hide Plans, ReleaseIds, ApplyPlans, Diff, Untouched, Ages;
    var plans := Plans(s, build, unrefreshed, endpoints);
    ReleaseIdsFrame(s.world, s.world, plans, SortedKeys(plans.Keys), id);
    var w1 := Release(s.world, plans);
    SameEntry(s.world, w1, id);
    var p := Progress(w1, Diff(s, build, unrefreshed, endpoints).desired, []);
    ApplyPlansElsewhere(s, env, build, generation, s.world, plans, p, SortedKeys(plans.Keys), id);
    UntouchedTrans(s.world, w1, ApplyGeneration(s, env, build, generation, endpoints, unrefreshed).world, id);
  }

  /** ... and as long as none of its own tasks ends, its entry is the very same one: the same
      listeners, cohorts, generations and drains. */
  lemma StayingIsIdentical(s: State, env: Env, build: Build, generation: Generation, endpoints: seq<Desired>,
                           unrefreshed: set<Id>, id: Id)
    requires id in Plans(s, build, unrefreshed, endpoints) && Stays(Plans(s, build, unrefreshed, endpoints)[id])
    requires var h := ApplyGeneration(s, env, build, generation, endpoints, unrefreshed).world.host;
             id in s.world.entries ==> forall p :: p in s.world.entries[id].slots ==>
                   Quiet(s.world.entries[id].slots[p], h)
    ensures var w' := ApplyGeneration(s, env, build, generation, endpoints, unrefreshed).world;
            && (id in w'.entries <==> id in s.world.entries)
            && (id in s.world.entries ==> w'.entries[id] == s.world.entries[id])
  {
    hide Plans, ApplyGeneration;
    StayingIsUntouched(s, env, build, generation, endpoints, unrefreshed, id);
    var w' := ApplyGeneration(s, env, build, generation, endpoints, unrefreshed).world;
    if id in s.world.entries {
      var e, e' := s.world.entries[id], w'.entries[id];
      forall p | p in e.slots ensures e'.slots[p] == e.slots[p] {
        assert WeatheredSlot(e.slots[p], e'.slots[p], e.drain.onDelete, w'.host);
      }
      assert e'.slots == e.slots;
    }
  }

  // ---------------------------------------------------------------- deletion completeness

  ghost predicate Occurs(endpoints: seq<Desired>, id: Id) {
    exists i :: 0 <= i < |endpoints| && endpoints[i].id == id
  }

  lemma {:induction false} DiffKeys(s: State, build: Build, unrefreshed: set<Id>, endpoints: seq<Desired>)
    ensures forall id :: id in Diff(s, build, unrefreshed, endpoints).plans ==> Occurs(endpoints, id)
    ensures Diff(s, build, unrefreshed, endpoints).desired.Keys <= Diff(s, build, unrefreshed, endpoints).plans.Keys
    ensures forall id :: id in Diff(s, build, unrefreshed, endpoints).plans ==>
        Diff(s, build, unrefreshed, endpoints).plans[id] != Delete
  {
    if endpoints != [] {
      var n := |endpoints| - 1;
      DiffKeys(s, build, unrefreshed, endpoints[..n]);
      forall id | id in Diff(s, build, unrefreshed, endpoints).plans ensures Occurs(endpoints, id) {
        if id == endpoints[n].id {
        } else {
          assert id in Diff(s, build, unrefreshed, endpoints[..n]).plans;
          var i :| 0 <= i < n && endpoints[..n][i].id == id;
          assert endpoints[i].id == id;
        }
      }
    }
  }

  /** The plans of a submission, id by id: what is left unchanged is what is applied, what is
      started is not, what is replaced is, and what is desired is what is built. */
  ghost predicate PlannedFrom(s: State, build: Build, desired: map<Id, Desc>, id: Id, plan: Plan) {
    match plan
    case Unchanged => id in s.applied && id in desired && desired[id] == s.applied[id]
    case Start(built) => id !in s.applied && id in desired && build(desired[id]) == Some(built)
    case Replace(built) => id in s.applied && id in desired && build(desired[id]) == Some(built)
    case _ => true
  }

  lemma {:induction false} DiffPlans(s: State, build: Build, unrefreshed: set<Id>, endpoints: seq<Desired>, id: Id)
    ensures var d := Diff(s, build, unrefreshed, endpoints);
            id in d.plans ==> PlannedFrom(s, build, d.desired, id, d.plans[id])
  {
    if endpoints != [] {
      DiffPlans(s, build, unrefreshed, endpoints[..|endpoints| - 1], id);
    }
  }

  lemma PlansKeys(s: State, build: Build, unrefreshed: set<Id>, endpoints: seq<Desired>)
    ensures var plans := Plans(s, build, unrefreshed, endpoints);
            s.world.entries.Keys <= plans.Keys && Diff(s, build, unrefreshed, endpoints).desired.Keys <= plans.Keys
  {
    hide Diff, Collides;
    DiffKeys(s, build, unrefreshed, endpoints);
  }

  lemma PlansAreFrom(s: State, build: Build, unrefreshed: set<Id>, endpoints: seq<Desired>, id: Id)
    requires id in Plans(s, build, unrefreshed, endpoints)
    ensures PlannedFrom(s, build, Diff(s, build, unrefreshed, endpoints).desired, id,
                        Plans(s, build, unrefreshed, endpoints)[id])
  {
    hide Diff, Collides;
    DiffPlans(s, build, unrefreshed, endpoints, id);
  }

  /** Everything in the manager is submitted or still waiting to be deleted; everything desired is submitted. */
  ghost predicate Bounded(p: Progress, plans: map<Id, Plan>, ids: seq<Id>) {
    && (forall id :: id in p.world.entries ==> id in plans && (plans[id] != Delete || id in ids))
    && (forall id :: id in p.desired ==> id in plans && plans[id] != Delete)
  }

  lemma ApplyPlanBounded(s: State, env: Env, build: Build, generation: Generation, candidate: bool,
                         plans: map<Id, Plan>, p: Progress, ids: seq<Id>)
    requires ids != [] && ids[0] in plans && ids[0] !in ids[1..] && Bounded(p, plans, ids)
    ensures Bounded(ApplyPlan(s, env, build, generation, candidate, p, ids[0], plans[ids[0]]), plans, ids[1..])
  {
    hide ApplyPlan;
    var id := ids[0];
    ApplyPlanDesired(s, env, build, generation, candidate, p, id, plans[id]);
    ApplyPlanFrame(s, env, build, generation, candidate, p, id, plans[id]);
    var p' := ApplyPlan(s, env, build, generation, candidate, p, id, plans[id]);
    forall x | x in p'.world.entries ensures x in plans && (plans[x] != Delete || x in ids[1..]) {
      if x != id && !Stays(plans[id]) { assert Untouched(p.world, p'.world, x); }
    }
  }

  lemma ApplyPlanDesired(s: State, env: Env, build: Build, generation: Generation, candidate: bool, p: Progress,
                         id: Id, plan: Plan)
    ensures var p' := ApplyPlan(s, env, build, generation, candidate, p, id, plan);
            forall x :: x in p'.desired ==>
                  (x in p.desired && (x != id || plan != Delete)) || (x == id && plan != Delete)
    ensures var p' := ApplyPlan(s, env, build, generation, candidate, p, id, plan);
            forall x :: x != id ==> (x in p'.desired <==> x in p.desired) && (x in p.desired ==>
                  p'.desired[x] == p.desired[x])
  {
    hide Apply, Remove, RestoreReleased;
  }

  lemma {:induction false} ApplyPlansBounded(s: State, env: Env, build: Build, generation: Generation, w0: World,
                                             plans: map<Id, Plan>,
                                             p: Progress, ids: seq<Id>)
    requires forall i :: 0 <= i < |ids| ==> ids[i] in plans
    requires forall i, j :: 0 <= i < j < |ids| ==> ids[i] != ids[j]
    requires Bounded(p, plans, ids)
    ensures Bounded(ApplyPlans(s, env, build, generation, w0, plans, p, ids), plans, [])
    decreases |ids|
  {
    hide ApplyPlan, Bounded;
    if ids != [] {
      var c := RestoreCandidate(w0, plans, ids[0]);
      ApplyPlanBounded(s, env, build, generation, c, plans, p, ids);
      ApplyPlansBounded(s, env, build, generation, w0, plans,
                        ApplyPlan(s, env, build, generation, c, p, ids[0], plans[ids[0]]), ids[1..]);
    } else {
      assert ids == [];
    }
  }

  lemma {:induction false} ReleaseIdsKeys(w: World, w0: World, plans: map<Id, Plan>, ids: seq<Id>)
    ensures ReleaseIds(w, w0, plans, ids).entries.Keys == w.entries.Keys
    decreases |ids|
  {
    hide Released;
    if ids != [] {
      ReleaseIdsKeys(ReleaseProto(ReleaseProto(w, w0, plans, ids[0], Tcp), w0, plans, ids[0], Udp), w0, plans,
                     ids[1..]);
    }
  }

  /** Deletion completeness: whatever the state before and whichever binds fail, every endpoint the
      manager holds and every endpoint recorded as applied afterwards was submitted. */
  lemma OnlySubmittedRemain(s: State, env: Env, build: Build, generation: Generation, endpoints: seq<Desired>,
                            unrefreshed: set<Id>)
    ensures var p := ApplyGeneration(s, env, build, generation, endpoints, unrefreshed);
            forall id :: id in p.world.entries || id in p.desired ==> Occurs(endpoints, id)
  {
    hide ReleaseIds, ApplyPlans, Diff, Occurs;
    DiffKeys(s, build, unrefreshed, endpoints);
    var plans := Plans(s, build, unrefreshed, endpoints);
    var ids := SortedKeys(plans.Keys);
    ReleaseIdsKeys(s.world, s.world, plans, ids);
    var p := Progress(Release(s.world, plans), Diff(s, build, unrefreshed, endpoints).desired, []);
    ApplyPlansBounded(s, env, build, generation, s.world, plans, p, ids);
  }

  lemma EmptySubmissionEmpties(s: State, env: Env, build: Build, generation: Generation)
    ensures var p := ApplyGeneration(s, env, build, generation, [], {});
            p.world.entries == map[] && p.desired == map[]
  {
    hide ApplyGeneration;
    OnlySubmittedRemain(s, env, build, generation, [], {});
    var p := ApplyGeneration(s, env, build, generation, [], {});
    assert forall id :: id !in p.world.entries && id !in p.desired;
  }
}
