/** The reconciler as the program has it: an object that drives an endpoint manager and updates its own
    record of what is applied, in loops over the tables of one generation. Every method is proved to
    perform the step of `Reconciliation` it stands for. */
module ReconcilerObject {
  import opened Lifecycle
  import opened Manager
  import opened ManagerObject
  import opened Reconciliation
  import Collisions

  class Reconciler {
    const manager: EndpointManager
    const build: Build
    var applied: map<Id, Desc>
    var active: Option<Generation>
    var last: Option<Response>
    var lastContent: map<Id, seq<nat>>
    var partial: bool
    var ready: bool

    function Value(): State
      reads this, manager
    {
      State(manager.Value(), applied, active, last, lastContent, partial, ready)
    }

    constructor (manager: EndpointManager, build: Build)
      ensures this.manager == manager && this.build == build
      ensures Value() == State(manager.Value(), map[], None, None, map[], false, false)
    {
      this.manager, this.build := manager, build;
      applied, active, last, lastContent, partial, ready := map[], None, None, map[], false, false;
    }

    // -------------------------------------------------------------- validation

    /** Diffs the submission against what is applied, without touching anything. */
    method DiffEndpoints(unrefreshed: set<Id>, endpoints: seq<Desired>)
      returns (desired: map<Id, Desc>, plans: map<Id, Plan>)
      ensures Draft(desired, plans) == Diff(Value(), build, unrefreshed, endpoints)
    {
      desired, plans := map[], map[];
      var s := Value();
      for i := 0 to |endpoints|
        invariant Draft(desired, plans) == Diff(s, build, unrefreshed, endpoints[..i])
      {
        assert endpoints[..i + 1][..i] == endpoints[..i] && endpoints[..i + 1][i] == endpoints[i];
        var e := endpoints[i];
        if e.id in plans || e.id in unrefreshed {
          plans := plans[e.id := Invalid];
        } else {
          var built := build(e.spec);
          if built.None? {
            plans := plans[e.id := Invalid];
          } else {
            desired := desired[e.id := e.spec];
            var plan :=
              if e.id !in applied then Start(built.value)
              else if applied[e.id] == e.spec && AllRunning(manager.Value(), e.id, built.value) then Plan.Unchanged
              else Replace(built.value);
            plans := plans[e.id := plan];
          }
        }
      }
      assert endpoints[..|endpoints|] == endpoints;
    }

    // -------------------------------------------------------------- address hand-off

    /** The addresses this generation is going to bind and does not listen on yet. */
    static method WantedKeys(w: World, plans: map<Id, Plan>) returns (wanted: set<Key>)
      ensures forall key :: key in wanted <==> IsWanted(w, plans, key)
    {
      wanted := {};
      var ids := SortedKeys(plans.Keys);
      for i := 0 to |ids|
        invariant forall key :: key in wanted <==> exists j :: 0 <= j < i && Wanting(w, plans[ids[j]], ids[j], key)
      {
        var added := WantedBy(w, plans[ids[i]], ids[i]);
        wanted := wanted + added;
      }
      forall key ensures key in wanted <==> IsWanted(w, plans, key) {
        if IsWanted(w, plans, key) {
          var id :| id in plans && Wanting(w, plans[id], id, key);
          assert id in ids;
        }
      }
    }

    static method WantedBy(w: World, plan: Plan, id: Id) returns (wanted: set<Key>)
      ensures forall key :: key in wanted <==> Wanting(w, plan, id, key)
    {
      wanted := {};
      if Binds(plan) {
        if plan.built.tcp {
          var key := Key(plan.built.endpoint.laddr, Tcp);
          var at := ActiveEndpoint(w, id, Tcp);
          if at.None? || at.value.laddr != key.addr {
            wanted := wanted + {key};
          }
        }
        if plan.built.udp {
          var key := Key(plan.built.endpoint.laddr, Udp);
          var at := ActiveEndpoint(w, id, Udp);
          if at.None? || at.value.laddr != key.addr {
            wanted := wanted + {key};
          }
        }
      }
      forall key: Key ensures key in wanted <==> Wanting(w, plan, id, key) {
        match key case Key(addr, proto) => assert proto == Tcp || proto == Udp;
      }
    }

    method ReleaseOne(w0: World, plans: map<Id, Plan>, wanted: set<Key>, id: Id, proto: Proto) returns (stopped: bool)
      requires id in plans && forall key :: key in wanted <==> IsWanted(w0, plans, key)
      modifies manager
      ensures manager.Value() == ReleaseProto(old(manager.Value()), w0, plans, id, proto)
      ensures stopped == Released(w0, plans, id, proto)
    {
      var at := ActiveEndpoint(w0, id, proto);
      stopped := Leaving(w0, plans[id], id) && at.Some? && Key(at.value.laddr, proto) in wanted;
      if stopped {
        var drain := if id in manager.entries then manager.entries[id].drain else DefaultPolicy();
        manager.StopAccepting(id, proto, if plans[id] == Delete then drain.onDelete else drain.onUpdate);
      }
    }

    method ReleaseEndpoint(w0: World, plans: map<Id, Plan>, wanted: set<Key>, id: Id) returns (candidate: bool)
      requires id in plans && forall key :: key in wanted <==> IsWanted(w0, plans, key)
      modifies manager
      ensures manager.Value() == ReleaseProto(ReleaseProto(old(manager.Value()), w0, plans, id, Tcp), w0, plans, id,
                                              Udp)
      ensures candidate == RestoreCandidate(w0, plans, id)
    {
      hide ReleaseProto, Released, IsWanted;
      var tcp := ReleaseOne(w0, plans, wanted, id, Tcp);
      var udp := ReleaseOne(w0, plans, wanted, id, Udp);
      candidate := (tcp || udp) && plans[id].Replace?;
    }

    /** Stops accepting on every listener whose address another endpoint of the generation needs. What
        gives an address up is decided before the first listener is stopped. */
    method ReleaseContended(plans: map<Id, Plan>) returns (released: set<Id>)
      modifies manager
      ensures manager.Value() == Release(old(manager.Value()), plans)
      ensures forall id :: id in released <==> RestoreCandidate(old(manager.Value()), plans, id)
    {
      assert forall id :: RestoreCandidate(manager.Value(), plans, id) ==> id in plans;
      hide ReleaseProto, RestoreCandidate, IsWanted, SortedKeys;
      var w0 := manager.Value();
      released := {};
      var wanted := WantedKeys(w0, plans);
      var ids := SortedKeys(plans.Keys);
      ghost var done: set<Id> := {};
      var i := 0;
      while i < |ids|
        invariant 0 <= i <= |ids|
        invariant ReleaseIds(manager.Value(), w0, plans, ids[i..]) == ReleaseIds(w0, w0, plans, ids)
        invariant forall j :: 0 <= j < i ==> ids[j] in done
        invariant forall id :: id in released <==> id in done && RestoreCandidate(w0, plans, id)
      {
        assert ids[i..][0] == ids[i] && ids[i..][1..] == ids[i + 1..];
        var candidate := ReleaseEndpoint(w0, plans, wanted, ids[i]);
        if candidate {
          released := released + {ids[i]};
        }
        done := done + {ids[i]};
        i := i + 1;
      }
    }

    // -------------------------------------------------------------- application

    method RestorePrevious(id: Id, generation: Generation, previous: Option<Desc>, results: seq<EndpointResult>)
      returns (r: seq<EndpointResult>)
      modifies manager
      ensures (manager.Value(), r) == RestoreReleased(old(manager.Value()), manager.env, build, id, generation,
                                                      previous, results)
    {
      r := results;
      if previous.None? {
        return;
      }
      var built := build(previous.value);
      if built.None? {
        return;
      }
      var outcomes := manager.ApplyEndpoint(id, generation, built.value);
      if !AnyFailed(outcomes) {
        r := NoteRestored(results, id, outcomes);
      }
    }

    method ApplyBound(generation: Generation, candidate: bool, desired: map<Id, Desc>, results: seq<EndpointResult>,
                      id: Id, built: Spec)
      returns (desired': map<Id, Desc>, results': seq<EndpointResult>)
      modifies manager
      ensures Progress(manager.Value(), desired', results')
           == ApplyBinding(old(Value()), manager.env, build, generation, candidate,
                           Progress(old(manager.Value()), desired, results), id, built)
    {
      hide Apply, RestoreReleased;
      var previous := Lookup(applied, id);
      var outcomes := manager.ApplyEndpoint(id, generation, built);
      desired', results' := desired, results + IntoResults(id, outcomes);
      if AnyFailed(outcomes) {
        if candidate && !Serving(manager.Value(), id) {
          results' := RestorePrevious(id, generation, previous, results');
        }
        if Serving(manager.Value(), id) {
          if previous.Some? {
            desired' := desired'[id := previous.value];
          }
        } else {
          desired' := desired' - {id};
        }
      }
    }

    method ApplyOnePlan(generation: Generation, candidate: bool, desired: map<Id, Desc>, results: seq<EndpointResult>,
                        id: Id, plan: Plan)
      returns (desired': map<Id, Desc>, results': seq<EndpointResult>)
      modifies manager
      ensures Progress(manager.Value(), desired', results')
           == ApplyPlan(old(Value()), manager.env, build, generation, candidate,
                        Progress(old(manager.Value()), desired, results), id, plan)
    {
      hide ApplyBinding, Remove;
      desired', results' := desired, results;
      match plan {
        case Unchanged =>
          results' := results + Report(id, ProtosOf(manager.Value(), id), Action.Unchanged, None);
        case Invalid =>
          var protos := ProtosOf(manager.Value(), id);
          if id !in manager.entries {
            desired' := desired - {id};
          } else if id in applied {
            desired' := desired[id := applied[id]];
          }
          results' := results + Report(id, if protos == [] then [Tcp] else protos, Action.Failed, Some(false));
        case Start(built) =>
          desired', results' := ApplyBound(generation, candidate, desired, results, id, built);
        case Replace(built) =>
          desired', results' := ApplyBound(generation, candidate, desired, results, id, built);
        case Delete =>
          var outcomes := manager.RemoveEndpoint(id);
          desired', results' := desired - {id}, results + IntoResults(id, outcomes);
      }
    }

    /** Carries the plans out in the order of the identifiers. */
    method ApplyEach(generation: Generation, ghost s: State, ghost w0: World, plans: map<Id, Plan>, released: set<Id>,
                     drafted: map<Id, Desc>)
      returns (desired: map<Id, Desc>, results: seq<EndpointResult>)
      requires s == Value().(world := s.world)
      requires forall id :: id in released <==> RestoreCandidate(w0, plans, id)
      modifies manager
      ensures Progress(manager.Value(), desired, results)
           == ApplyPlans(s, manager.env, build, generation, w0, plans, Progress(old(manager.Value()), drafted, []),
                         SortedKeys(plans.Keys))
    {
      hide ApplyPlan, RestoreCandidate, SortedKeys;
      desired, results := drafted, [];
      var ids := SortedKeys(plans.Keys);
      ghost var opening := Progress(manager.Value(), drafted, []);
      var i := 0;
      while i < |ids|
        invariant 0 <= i <= |ids|
        invariant ApplyPlans(s, manager.env, build, generation, w0, plans,
                             Progress(manager.Value(), desired, results), ids[i..])
               == ApplyPlans(s, manager.env, build, generation, w0, plans, opening, ids)
      {
        assert ids[i..][0] == ids[i] && ids[i..][1..] == ids[i + 1..];
        WorldIrrelevant(s, manager.Value(), manager.env, build, generation, ids[i] in released,
          Progress(manager.Value(), desired, results), ids[i], plans[ids[i]]);
        desired, results := ApplyOnePlan(generation, ids[i] in released, desired, results, ids[i], plans[ids[i]]);
        i := i + 1;
      }
    }

    /** One generation, from the diff to the new record of what is applied. */
    method ApplyAll(generation: Generation, endpoints: seq<Desired>, unrefreshed: set<Id>)
      returns (desired: map<Id, Desc>, results: seq<EndpointResult>)
      modifies manager
      ensures Progress(manager.Value(), desired, results)
           == ApplyGeneration(old(Value()), manager.env, build, generation, endpoints, unrefreshed)
    {
      hide ApplyPlans, RestoreCandidate, Diff, MarkDuplicates, Release, SortedKeys, WithDeletions;
      ghost var s := Value();
      var w0 := manager.Value();
      var drafted, drafts := DiffEndpoints(unrefreshed, endpoints);
      var marked := Collisions.MarkAll(w0, drafts);
      var plans := WithDeletions(w0, marked);
      var released := ReleaseContended(plans);
      desired, results := ApplyEach(generation, s, w0, plans, released, drafted);
    }

    // -------------------------------------------------------------- submissions

    static method Drifted(applied: map<Id, Desc>, endpoints: seq<Desired>) returns (drifted: bool)
      ensures drifted <==> exists i ::
        (0 <= i < |endpoints| && endpoints[i].id in applied
         && applied[endpoints[i].id] != endpoints[i].spec
         && applied[endpoints[i].id].config == endpoints[i].spec.config)
    {
      drifted := false;
      for i := 0 to |endpoints|
        invariant !drifted
        invariant forall j ::
                    (0 <= j < i && endpoints[j].id in applied
                     && applied[endpoints[j].id].config == endpoints[j].spec.config) ==>
                      applied[endpoints[j].id] == endpoints[j].spec
      {
        var e := endpoints[i];
        if e.id in applied && applied[e.id] != e.spec && applied[e.id].config == e.spec.config {
          return true;
        }
      }
    }

    /** Applies a desired state, or replays or refuses it. */
    method Submit(disk: Disk, request: Request) returns (reply: Reply)
      modifies this, manager
      ensures (Value(), reply) == Reconcile(old(Value()), manager.env, build, disk, request)
    {
      hide ApplyGeneration, Content;
      var generation := request.generation;
      if !ready {
        return Refusal(NotReady);
      }
      var content := Content(request.endpoints);
      if active.Some? && generation < active.value {
        return Refusal(Stale(active.value));
      }
      var endpoints := RefreshAll(request.endpoints, disk);
      var unrefreshed := Unrefreshed(request.endpoints, disk);
      if active == Some(generation) && unrefreshed == {} && last.Some? {
        if lastContent != content {
          return Refusal(Stale(generation));
        }
        var drifted := Drifted(applied, endpoints);
        if drifted {
          return Refusal(Stale(generation));
        }
        return Answer(last.value);
      }
      var desired, results := ApplyAll(generation, endpoints, unrefreshed);
      applied := desired;
      var response := Response(generation, if AnyResultFailed(results) then PartiallyApplied else Applied, results);
      active, partial := Some(generation), response.state == PartiallyApplied;
      last, lastContent := Some(response), content;
      reply := Answer(response);
    }

    // -------------------------------------------------------------- restore

    method RestoreEndpoint(disk: Disk, generation: Generation, id: Id, config: nat,
                           failed: set<Id>) returns (failed': set<Id>)
      modifies this`applied, manager
      ensures Restoring(manager.Value(), applied, failed')
           == RestoreOne(Restoring(old(manager.Value()), old(applied), failed), manager.env, build, disk, generation,
                         id, config)
    {
      hide Apply;
      var digest := disk(config);
      if digest.None? {
        return failed + {id};
      }
      var spec := Desc(config, digest.value);
      var built := build(spec);
      if built.None? {
        return failed + {id};
      }
      var outcomes := manager.ApplyEndpoint(id, generation, built.value);
      if AnyFailed(outcomes) {
        return failed + {id};
      }
      failed', applied := failed, applied[id := spec];
    }

    /** Brings the endpoints of a snapshot back one by one, and becomes ready. */
    method RestoreFrom(disk: Disk, snapshot: Snapshot)
      modifies this, manager
      ensures Value() == Restore(old(Value()), manager.env, build, disk, snapshot)
    {
      hide RestoreOne, SortedKeys;
      ghost var opening := Restoring(manager.Value(), applied, {});
      var failed: set<Id> := {};
      var ids := SortedKeys(snapshot.endpoints.Keys);
      var i := 0;
      while i < |ids|
        modifies this`applied, manager
        invariant 0 <= i <= |ids|
        invariant RestoreIds(Restoring(manager.Value(), applied, failed), manager.env, build, disk, snapshot, ids[i..])
               == RestoreIds(opening, manager.env, build, disk, snapshot, ids)
      {
        assert ids[i..][0] == ids[i] && ids[i..][1..] == ids[i + 1..];
        failed := RestoreEndpoint(disk, snapshot.generation, ids[i], snapshot.endpoints[ids[i]], failed);
        i := i + 1;
      }
      active, partial, ready := Some(snapshot.generation), snapshot.partial || failed != {}, true;
    }
  }

  /** Applying a plan reads the world it works on, not the world the generation started in. */
  lemma WorldIrrelevant(s: State, w: World, env: Env, build: Build, generation: Generation, candidate: bool,
                        p: Progress, id: Id, plan: Plan)
    ensures ApplyPlan(s.(world := w), env, build, generation, candidate, p, id, plan)
         == ApplyPlan(s, env, build, generation, candidate, p, id, plan)
  {
    hide Apply, Remove, RestoreReleased;
  }
}
