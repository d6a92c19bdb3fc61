/** The turn of one endpoint in a generation: what comes before it leaves the endpoint to it, what comes after leaves
    it as it is. */
module Turns {
  import opened Lifecycle
  import opened Manager
  import opened ManagerFrame
  import opened Reconciliation
  import opened NonInterference
  import opened Convergence

  lemma {:induction false} ApplyPlansSplit(s: State, env: Env, build: Build, generation: Generation, w0: World,
                                           plans: map<Id, Plan>,
                                           p: Progress, a: seq<Id>, b: seq<Id>)
    requires forall i :: 0 <= i < |a| ==> a[i] in plans
    requires forall i :: 0 <= i < |b| ==> b[i] in plans
    ensures forall i :: 0 <= i < |a + b| ==> (a + b)[i] in plans
    ensures ApplyPlans(s, env, build, generation, w0, plans, p, a + b)
         == ApplyPlans(s, env, build, generation, w0, plans, ApplyPlans(s, env, build, generation, w0, plans, p, a), b)
    decreases |a|
  {
    hide ApplyPlan;
    if a == [] {
      assert a + b == b;
    } else {
      assert (a + b)[1..] == a[1..] + b;
      ApplyPlansSplit(s, env, build, generation, w0, plans,
                      ApplyPlan(s, env, build, generation, RestoreCandidate(w0, plans, a[0]), p, a[0],
                                plans[a[0]]), a[1..], b);
    }
  }

  lemma {:induction false} DesiredElsewhere(s: State, env: Env, build: Build, generation: Generation, w0: World,
                                            plans: map<Id, Plan>,
                                            p: Progress, ids: seq<Id>, id: Id)
    requires (forall i :: 0 <= i < |ids| ==> ids[i] in plans) && id !in ids
    ensures var p' := ApplyPlans(s, env, build, generation, w0, plans, p, ids);
            (id in p'.desired <==> id in p.desired) && (id in p.desired ==> p'.desired[id] == p.desired[id])
    decreases |ids|
  {
    hide ApplyPlan;
    if ids != [] {
      var c := RestoreCandidate(w0, plans, ids[0]);
      ApplyPlanDesired(s, env, build, generation, c, p, ids[0], plans[ids[0]]);
      DesiredElsewhere(s, env, build, generation, w0, plans,
                       ApplyPlan(s, env, build, generation, c, p, ids[0], plans[ids[0]]), ids[1..], id);
    }
  }

  /** The rest of a generation, after the plan of its `k`-th endpoint left progress `q`. */
  lemma RestLeavesAlone(s: State, env: Env, build: Build, generation: Generation, w0: World, plans: map<Id, Plan>,
                        p0: Progress, ids: seq<Id>, k: nat, q: Progress)
    requires forall i :: 0 <= i < |ids| ==> ids[i] in plans
    requires forall i, j :: 0 <= i < j < |ids| ==> ids[i] != ids[j]
    requires k < |ids|
    requires q == ApplyPlan(s, env, build, generation, RestoreCandidate(w0, plans, ids[k]),
                            ApplyPlans(s, env, build, generation, w0, plans, p0, ids[..k]), ids[k], plans[ids[k]])
    ensures var end := ApplyPlans(s, env, build, generation, w0, plans, p0, ids);
            && Untouched(q.world, end.world, ids[k]) && Ages(q.world.host, end.world.host)
            && (ids[k] in end.desired <==> ids[k] in q.desired)
            && (ids[k] in q.desired ==> end.desired[ids[k]] == q.desired[ids[k]])
  {
    hide ApplyPlan, RestoreCandidate, Untouched;
    var id := ids[k];
    var rest := ids[k..];
    assert ids == ids[..k] + rest && rest[0] == id && rest[1..] == ids[k + 1..];
    ApplyPlansSplit(s, env, build, generation, w0, plans, p0, ids[..k], rest);
    ApplyPlansElsewhere(s, env, build, generation, w0, plans, q, ids[k + 1..], id);
    DesiredElsewhere(s, env, build, generation, w0, plans, q, ids[k + 1..], id);
  }

  /** The progress of a generation right before the plan of its `k`-th endpoint. */
  ghost function Before(s: State, env: Env, build: Build, generation: Generation, plans: map<Id, Plan>, p0: Progress,
                        k: nat): Progress
    requires k <= |SortedKeys(plans.Keys)|
  {
    ApplyPlans(s, env, build, generation, s.world, plans, p0, SortedKeys(plans.Keys)[..k])
  }

  /** Progress of a generation when its application begins: the contended addresses are released. */
  ghost function Opening(s: State, build: Build, endpoints: seq<Desired>, unrefreshed: set<Id>): Progress {
    Progress(Release(s.world, Plans(s, build, unrefreshed, endpoints)),
             Diff(s, build, unrefreshed, endpoints).desired, [])
  }

  /** The world, the record and the results when the turn of the `k`-th endpoint comes, `p`, and when it is over, `q`:
      nothing has been done to the endpoint before, and nothing is done to it afterwards. */
  lemma OwnTurn(s: State, env: Env, build: Build, generation: Generation, w0: World, plans: map<Id, Plan>, p0: Progress,
                ids: seq<Id>, k: nat) returns (p: Progress, q: Progress)
    requires forall i :: 0 <= i < |ids| ==> ids[i] in plans
    requires forall i, j :: 0 <= i < j < |ids| ==> ids[i] != ids[j]
    requires k < |ids|
    ensures var id, end := ids[k], ApplyPlans(s, env, build, generation, w0, plans, p0, ids);
            && p == ApplyPlans(s, env, build, generation, w0, plans, p0, ids[..k])
            && q == ApplyPlan(s, env, build, generation, RestoreCandidate(w0, plans, id), p, id, plans[id])
            && q == ApplyPlans(s, env, build, generation, w0, plans, p0, ids[..k + 1])
            && Untouched(p0.world, p.world, id) && Ages(p0.world.host, p.world.host)
            && SameRecord(p0, p, id)
            && Untouched(q.world, end.world, id) && Ages(q.world.host, end.world.host)
            && SameRecord(q, end, id)
  {
    hide ApplyPlan, RestoreCandidate, Untouched, Ages;
    var id := ids[k];
    p := ApplyPlans(s, env, build, generation, w0, plans, p0, ids[..k]);
    q := ApplyPlan(s, env, build, generation, RestoreCandidate(w0, plans, id), p, id, plans[id]);
    assert id !in ids[..k];
    ApplyPlansElsewhere(s, env, build, generation, w0, plans, p0, ids[..k], id);
    DesiredElsewhere(s, env, build, generation, w0, plans, p0, ids[..k], id);
    RestLeavesAlone(s, env, build, generation, w0, plans, p0, ids, k, q);
    assert ids[..k + 1] == ids[..k] + [id] && [id][1..] == [];
    ApplyPlansSplit(s, env, build, generation, w0, plans, p0, ids[..k], [id]);
  }

  /** What is recorded of `id` is the same. */
  ghost predicate SameRecord(p: Progress, q: Progress, id: Id) {
    (id in p.desired <==> id in q.desired) && (id in p.desired ==> q.desired[id] == p.desired[id])
  }

  // ---------------------------------------------------------------- the hand-off

  /** The hand-off stops a listener or leaves its slot as it is. */
  lemma {:induction false} ReleaseSlot(w: World, w0: World, plans: map<Id, Plan>, ids: seq<Id>, id: Id, proto: Proto)
    ensures var w' := ReleaseIds(w, w0, plans, ids);
            && w'.host.exited == w.host.exited
            && (!Released(w0, plans, id, proto) ==> SlotAt(w', id, proto) == SlotAt(w, id, proto))
            && (ActiveAt(w', id, proto).Some? ==> SlotAt(w', id, proto) == SlotAt(w, id, proto))
    decreases |ids|
  {
    hide Released, StopAccept;
    if ids != [] {
      var w1 := ReleaseProto(w, w0, plans, ids[0], Tcp);
      var w2 := ReleaseProto(w1, w0, plans, ids[0], Udp);
      ReleaseProtoSlot(w, w0, plans, ids[0], Tcp, id, proto);
      ReleaseProtoSlot(w1, w0, plans, ids[0], Udp, id, proto);
      ReleaseSlot(w2, w0, plans, ids[1..], id, proto);
    }
  }

  lemma ReleaseProtoSlot(w: World, w0: World, plans: map<Id, Plan>, i: Id, q: Proto, id: Id, proto: Proto)
    ensures var w' := ReleaseProto(w, w0, plans, i, q);
            && w'.host.exited == w.host.exited
            && (!Released(w0, plans, id, proto) ==> SlotAt(w', id, proto) == SlotAt(w, id, proto))
            && (ActiveAt(w', id, proto).Some? ==> SlotAt(w', id, proto) == SlotAt(w, id, proto))
  {
    assert Released(w0, plans, i, q) ==> i in plans;
    hide Released;
    if Released(w0, plans, i, q) {
      StopAcceptEffect(w, i, q, ReleaseDeadline(w, plans[i], i));
    }
  }

  /** A slot whose listener was stopped ahead of time. */
  ghost function StoppedSlot(slot: Slot, deadline: Deadline): Slot {
    match slot.active
    case None => slot
    case Some(a) =>
      slot.(active := None, state := SlotState.Draining,
            draining := slot.draining + [Drain(a.cohort, a.generation, deadline)])
  }

  lemma StopAcceptSlot(w: World, id: Id, proto: Proto, deadline: Deadline)
    ensures var w' := StopAccept(w, id, proto, deadline);
            && (SlotAt(w, id, proto).Some? ==>
                  SlotAt(w', id, proto) == Some(StoppedSlot(SlotAt(w, id, proto).value, deadline)))
            && (id in w.entries ==> id in w'.entries && w'.entries[id].drain == w.entries[id].drain)
            && w.host.drains <= w'.host.drains
            && (ActiveAt(w, id, proto).Some? ==>
                  var a := ActiveAt(w, id, proto).value;
                  w'.host.drains == w.host.drains + [Drain(a.cohort, a.generation, deadline)])
  {
  }

  /** The deadline a listener that is stopped ahead of time drains under: the delete deadline of its endpoint if that
      is deleted, the update deadline if it is replaced. */
  ghost function HandOffDeadline(w: World, plan: Plan, id: Id): Deadline
    requires id in w.entries
  {
    if plan == Delete then w.entries[id].drain.onDelete else w.entries[id].drain.onUpdate
  }

  /** What stopping ahead of time has done to a slot. */
  ghost predicate HandedOff(w: World, w': World, plans: map<Id, Plan>, id: Id, proto: Proto)
    requires id in plans && ActiveAt(w, id, proto).Some?
  {
    var a, deadline := ActiveAt(w, id, proto).value, HandOffDeadline(w, plans[id], id);
    && SlotAt(w', id, proto) == Some(StoppedSlot(w.entries[id].slots[proto], deadline))
    && Drain(a.cohort, a.generation, deadline) in w'.host.drains
  }

  lemma ReleaseProtoStops(w: World, w0: World, plans: map<Id, Plan>, i: Id, q: Proto, id: Id, proto: Proto)
    requires ActiveAt(w, id, proto).Some? && Released(w0, plans, id, proto)
    ensures var w' := ReleaseProto(w, w0, plans, i, q);
            && id in w'.entries && w'.entries[id].drain == w.entries[id].drain && w.host.drains <= w'.host.drains
            && if i == id && q == proto then HandedOff(w, w', plans, id, proto)
               else SlotAt(w', id, proto) == SlotAt(w, id, proto)
  {
    assert id in plans && (Released(w0, plans, i, q) ==> i in plans);
    hide Released;
    if Released(w0, plans, i, q) {
      var deadline := ReleaseDeadline(w, plans[i], i);
      StopAcceptSlot(w, i, q, deadline);
      StopAcceptEffect(w, i, q, deadline);
      hide StopAccept;
      if i == id && q == proto {
        var a := ActiveAt(w, id, proto).value;
        var w' := ReleaseProto(w, w0, plans, i, q);
        assert w'.host.drains[|w.host.drains|] == Drain(a.cohort, a.generation, deadline);
      }
    }
  }

  lemma HandedOffStays(w: World, w1: World, w2: World, plans: map<Id, Plan>, id: Id, proto: Proto)
    requires id in plans && ActiveAt(w, id, proto).Some? && HandedOff(w, w1, plans, id, proto)
    requires SlotAt(w2, id, proto) == SlotAt(w1, id, proto) && w1.host.drains <= w2.host.drains
    ensures HandedOff(w, w2, plans, id, proto)
  {
    var a := ActiveAt(w, id, proto).value;
    var d := Drain(a.cohort, a.generation, HandOffDeadline(w, plans[id], id));
    var i :| 0 <= i < |w1.host.drains| && w1.host.drains[i] == d;
    assert w2.host.drains[i] == d;
  }

  lemma {:induction false} ReleaseIdsStop(w: World, w0: World, plans: map<Id, Plan>, ids: seq<Id>, id: Id, proto: Proto)
    requires ActiveAt(w, id, proto).Some? && Released(w0, plans, id, proto)
    requires forall i, j :: 0 <= i < j < |ids| ==> ids[i] != ids[j]
    ensures var w' := ReleaseIds(w, w0, plans, ids);
            && w.host.drains <= w'.host.drains && id in plans
            && if id in ids then HandedOff(w, w', plans, id, proto) else SlotAt(w', id, proto) == SlotAt(w, id, proto)
    decreases |ids|
  {
    assert id in plans;
    hide Released, ReleaseProto;
    if ids != [] {
      var w1 := ReleaseProto(w, w0, plans, ids[0], Tcp);
      var w2 := ReleaseProto(w1, w0, plans, ids[0], Udp);
      ReleaseProtoStops(w, w0, plans, ids[0], Tcp, id, proto);
      if ids[0] == id {
        if proto == Udp {
          ReleaseProtoStops(w1, w0, plans, id, Udp, id, Udp);
        } else {
          ReleaseProtoAfter(w1, w0, plans, id, Udp, id, Tcp);
        }
        assert HandedOff(w, w2, plans, id, proto) by {
          if proto == Tcp { HandedOffStays(w, w1, w2, plans, id, proto); }
        }
        ReleaseIdsAfter(w2, w0, plans, ids[1..], id, proto);
        HandedOffStays(w, w2, ReleaseIds(w2, w0, plans, ids[1..]), plans, id, proto);
      } else {
        ReleaseProtoStops(w1, w0, plans, ids[0], Udp, id, proto);
        ReleaseIdsStop(w2, w0, plans, ids[1..], id, proto);
      }
    }
  }

  lemma ReleaseProtoAfter(w: World, w0: World, plans: map<Id, Plan>, i: Id, q: Proto, id: Id, proto: Proto)
    requires i != id || q != proto
    ensures var w' := ReleaseProto(w, w0, plans, i, q);
            SlotAt(w', id, proto) == SlotAt(w, id, proto) && w.host.drains <= w'.host.drains
  {
    assert Released(w0, plans, i, q) ==> i in plans;
    hide Released;
    if Released(w0, plans, i, q) {
      StopAcceptSlot(w, i, q, ReleaseDeadline(w, plans[i], i));
      StopAcceptEffect(w, i, q, ReleaseDeadline(w, plans[i], i));
      hide StopAccept;
    }
  }

  lemma {:induction false} ReleaseIdsAfter(w: World, w0: World, plans: map<Id, Plan>, ids: seq<Id>, id: Id,
                                           proto: Proto)
    requires id !in ids
    ensures var w' := ReleaseIds(w, w0, plans, ids);
            SlotAt(w', id, proto) == SlotAt(w, id, proto) && w.host.drains <= w'.host.drains
    decreases |ids|
  {
    hide ReleaseProto;
    if ids != [] {
      var w1 := ReleaseProto(w, w0, plans, ids[0], Tcp);
      ReleaseProtoAfter(w, w0, plans, ids[0], Tcp, id, proto);
      ReleaseProtoAfter(w1, w0, plans, ids[0], Udp, id, proto);
      ReleaseIdsAfter(ReleaseProto(w1, w0, plans, ids[0], Udp), w0, plans, ids[1..], id, proto);
    }
  }

  /** An endpoint gives up an address it listens on: it is deleted, or replaced by a description with another address
      or without that protocol. */
  ghost predicate GivesUp(w: World, plan: Plan, id: Id) {
    || plan == Delete
    || (&& plan.Replace?
        && exists q :: ActiveAt(w, id, q).Some?
             && (!Wants(plan.built, q) || w.entries[id].slots[q].endpoint.laddr != plan.built.endpoint.laddr))
  }

  /** Some endpoint is started or replaced on `key`, and does not listen there yet. */
  ghost predicate Needed(w: World, plans: map<Id, Plan>, key: Key) {
    exists other :: other in plans && (plans[other].Start? || plans[other].Replace?)
      && Wants(plans[other].built, key.proto) && plans[other].built.endpoint.laddr == key.addr
      && !(ActiveAt(w, other, key.proto).Some? && w.entries[other].slots[key.proto].endpoint.laddr == key.addr)
  }

  /** The hand-off is exact: a listener is stopped ahead of time if and only if its endpoint gives an address up and
      another one is going to bind the address of the listener. It then drains under the delete deadline of a
      deleted endpoint, under the update deadline of a replaced one; every other slot stays as it is. */
  lemma ReleaseIsExact(w: World, plans: map<Id, Plan>, id: Id, proto: Proto)
    requires ActiveAt(w, id, proto).Some?
    ensures var w' := Release(w, plans);
            var key := Key(w.entries[id].slots[proto].endpoint.laddr, proto);
            if id in plans && GivesUp(w, plans[id], id) && Needed(w, plans, key) then
              HandedOff(w, w', plans, id, proto)
            else SlotAt(w', id, proto) == SlotAt(w, id, proto)
  {
    var key := Key(w.entries[id].slots[proto].endpoint.laddr, proto);
    ReleasedExactly(w, plans, id, proto);
    hide ReleaseIds, Released;
    if Released(w, plans, id, proto) {
      ReleaseIdsStop(w, w, plans, SortedKeys(plans.Keys), id, proto);
    } else {
      ReleaseSlot(w, w, plans, SortedKeys(plans.Keys), id, proto);
    }
  }

  lemma ReleasedExactly(w: World, plans: map<Id, Plan>, id: Id, proto: Proto)
    requires ActiveAt(w, id, proto).Some?
    ensures Released(w, plans, id, proto) <==>
              && id in plans && GivesUp(w, plans[id], id)
              && Needed(w, plans, Key(w.entries[id].slots[proto].endpoint.laddr, proto))
  {
    var key := Key(w.entries[id].slots[proto].endpoint.laddr, proto);
    assert IsWanted(w, plans, key) <==> Needed(w, plans, key) by {
      if other :| other in plans && Wanting(w, plans[other], other, key) {
        assert Needed(w, plans, key);
      }
      if Needed(w, plans, key) {
        var other :| other in plans && (plans[other].Start? || plans[other].Replace?)
          && Wants(plans[other].built, key.proto) && plans[other].built.endpoint.laddr == key.addr
          && !(ActiveAt(w, other, key.proto).Some? && w.entries[other].slots[key.proto].endpoint.laddr == key.addr);
        assert Wanting(w, plans[other], other, key);
      }
    }
    if id in plans {
      LeavingExactly(w, plans[id], id);
    }
  }

  lemma LeavingExactly(w: World, plan: Plan, id: Id)
    ensures Leaving(w, plan, id) <==> GivesUp(w, plan, id)
  {
    if plan.Replace? {
      forall q ensures Drops(w, plan.built, id, q) <==>
          ActiveAt(w, id, q).Some?
          && (!Wants(plan.built, q) || w.entries[id].slots[q].endpoint.laddr != plan.built.endpoint.laddr)
      {
      }
      if q :| (ActiveAt(w, id, q).Some?
               && (!Wants(plan.built, q) || w.entries[id].slots[q].endpoint.laddr != plan.built.endpoint.laddr)) {
        assert q == Tcp || q == Udp;
      }
    }
  }

  /** A listener of `id` is stopped ahead of time. */
  ghost predicate StoppedAhead(w: World, plans: map<Id, Plan>, id: Id) {
    exists p :: ActiveAt(w, id, p).Some? && ActiveAt(Release(w, plans), id, p).None?
  }

  /** Whom a failed move is repaired for: a replaced endpoint one of whose listeners was stopped ahead of time. */
  lemma CandidateIsExact(w: World, plans: map<Id, Plan>, id: Id)
    ensures RestoreCandidate(w, plans, id) <==> id in plans && plans[id].Replace? && StoppedAhead(w, plans, id)
  {
    forall p: Proto | Released(w, plans, id, p) ensures ActiveAt(Release(w, plans), id, p).None? {
      ReleaseIsStopped(w, plans, id, p);
    }
    if StoppedAhead(w, plans, id) {
      var p :| ActiveAt(w, id, p).Some? && ActiveAt(Release(w, plans), id, p).None?;
      StoppedIsReleased(w, plans, id, p);
      assert p == Tcp || p == Udp;
    }
  }

  lemma ReleaseIsStopped(w: World, plans: map<Id, Plan>, id: Id, p: Proto)
    requires Released(w, plans, id, p)
    ensures ActiveAt(w, id, p).Some? && ActiveAt(Release(w, plans), id, p).None?
  {
    ReleasedExactly(w, plans, id, p);
    hide ReleaseIds, Released;
    ReleaseIdsStop(w, w, plans, SortedKeys(plans.Keys), id, p);
  }

  lemma StoppedIsReleased(w: World, plans: map<Id, Plan>, id: Id, p: Proto)
    requires ActiveAt(w, id, p).Some? && ActiveAt(Release(w, plans), id, p).None?
    ensures Released(w, plans, id, p)
  {
    hide ReleaseIds, Released;
    ReleaseSlot(w, w, plans, SortedKeys(plans.Keys), id, p);
  }

  /** The hand-off changes no policy. */
  lemma {:induction false} ReleaseKeepsPolicy(w: World, w0: World, plans: map<Id, Plan>, ids: seq<Id>, i: Id)
    ensures var w' := ReleaseIds(w, w0, plans, ids);
            && w'.policy == w.policy && (i in w.entries <==> i in w'.entries)
            && (i in w.entries ==> w'.entries[i].drain == w.entries[i].drain)
    decreases |ids|
  {
    hide ReleaseProto;
    if ids != [] {
      var w1 := ReleaseProto(w, w0, plans, ids[0], Tcp);
      ReleaseProtoPolicy(w, w0, plans, ids[0], Tcp, i);
      ReleaseProtoPolicy(w1, w0, plans, ids[0], Udp, i);
      ReleaseKeepsPolicy(ReleaseProto(w1, w0, plans, ids[0], Udp), w0, plans, ids[1..], i);
    }
  }

  lemma ReleaseProtoPolicy(w: World, w0: World, plans: map<Id, Plan>, id: Id, proto: Proto, i: Id)
    ensures var w' := ReleaseProto(w, w0, plans, id, proto);
            && w'.policy == w.policy && (i in w.entries <==> i in w'.entries)
            && (i in w.entries ==> w'.entries[i].drain == w.entries[i].drain)
  {
    assert Released(w0, plans, id, proto) ==> id in plans;
    hide Released;
  }

  /** The hand-off takes no slot away. */
  lemma ReleaseKeepsSlots(w: World, plans: map<Id, Plan>, id: Id, proto: Proto)
    ensures SlotAt(Release(w, plans), id, proto).Some? == SlotAt(w, id, proto).Some?
  {
    hide ReleaseIds, GivesUp, Needed, Released;
    if ActiveAt(w, id, proto).Some? {
      ReleaseIsExact(w, plans, id, proto);
    } else {
      assert !Released(w, plans, id, proto) by { NotReleased(w, plans, id, proto); }
      ReleaseSlot(w, w, plans, SortedKeys(plans.Keys), id, proto);
    }
  }

  lemma NotReleased(w: World, plans: map<Id, Plan>, id: Id, proto: Proto)
    requires ActiveAt(w, id, proto).None?
    ensures !Released(w, plans, id, proto)
  {
  }

  /** An endpoint that stays is not touched by the hand-off. */
  lemma ReleaseLeavesAlone(w: World, plans: map<Id, Plan>, id: Id)
    requires id in plans && Stays(plans[id])
    ensures Untouched(w, Release(w, plans), id) && Ages(w.host, Release(w, plans).host)
  {
    hide ReleaseIds, Untouched, Ages;
    ReleaseIdsFrame(w, w, plans, SortedKeys(plans.Keys), id);
    SameEntry(w, Release(w, plans), id);
  }
}
