/** An endpoint that is up to date need not occur in the answer: if its listeners have exited by the time an endpoint
    before it is handled, it is left alone and nothing is said about it. */
module SilentAnswer {
  import opened Lifecycle
  import opened Manager
  import opened ManagerFrame
  import opened ManagerServe
  import opened Reconciliation
  import Answers
  import ManagerAnswers
  import Replay

  /** All listeners of `id` exit at the next tick. */
  ghost predicate AboutToExit(w: World, env: Env, id: Id) {
    forall p :: ActiveAt(w, id, p).Some? ==>
        && ActiveAt(w, id, p).value.cohort in env(w.host.tick).exits
        && ActiveAt(w, id, p).value.cohort < |w.host.starts|
  }

  lemma RefreshExits(w: World, env: Env)
    ensures forall c :: c in env(w.host.tick).exits && c < |w.host.starts| ==> c in Refresh(w, env).host.exited
  {
    RefreshIdsFrame(Elapse(w, env), SortedKeys(Elapse(w, env).entries.Keys));
    hide RefreshIds;
  }

  /** Removing `a` notices that the listeners of `b` have exited. */
  lemma RemoveNotices(w: World, env: Env, a: Id, b: Id, p: Proto)
    requires a != b && b in w.entries && AboutToExit(w, env, b)
    ensures ActiveAt(Remove(w, env, a).0, b, p).None?
  {
    var w1 := Refresh(w, env);
    RefreshFrame(w, env);
    RefreshExits(w, env);
    hide Refresh;
    assert Untouched(w, w1, b);
    StillThere(w, w1, b, p);
    assert ActiveAt(w1, b, p).Some? ==> ActiveAt(w1, b, p).value.cohort in w1.host.exited;
    hide Untouched, Ages, AboutToExit;
    RefreshAlive(w, env);
    RemoveElsewhere(w, env, a, b, p);
    hide Remove;
  }

  lemma StillThere(w: World, w': World, id: Id, p: Proto)
    requires Untouched(w, w', id)
    ensures ActiveAt(w', id, p).Some? ==> ActiveAt(w', id, p) == ActiveAt(w, id, p)
  {
    if id in w.entries && p in w.entries[id].slots {
      assert WeatheredSlot(w.entries[id].slots[p], w'.entries[id].slots[p], w.entries[id].drain.onDelete, w'.host);
    }
  }

  lemma RemoveElsewhere(w: World, env: Env, a: Id, b: Id, p: Proto)
    requires a != b
    ensures SlotAt(Remove(w, env, a).0, b, p) == SlotAt(Refresh(w, env), b, p)
  {
    hide Refresh, Unbind, Log;
  }

  lemma TwoKeys(a: Id, b: Id)
    requires a < b
    ensures SortedKeys({a, b}) == [a, b]
  {
    assert a in {a, b} && b in {a, b};
    var m := Least({a, b});
    assert m == a && {a, b} - {a} == {b};
    assert b in {b} && Least({b}) == b && {b} - {b} == {};
    assert SortedKeys({b}) == [b] + SortedKeys({});
  }

  lemma SilentPlans(s: State, build: Build, a: Id, b: Id, d: Desc)
    requires a < b && s.world.entries.Keys == {a, b}
    requires build(d).Some? && Answers.UpToDate(s, b, d, build(d).value)
    ensures Diff(s, build, {}, [Desired(b, d)]) == Draft(map[b := d], map[b := Plan.Unchanged])
    ensures Plans(s, build, {}, [Desired(b, d)]) == map[a := Delete, b := Plan.Unchanged]
  {
    var endpoints := [Desired(b, d)];
    assert endpoints[..0] == [] && Diff(s, build, {}, []) == Draft(map[], map[]);
    assert AllRunning(s.world, b, build(d).value);
    assert Diff(s, build, {}, endpoints) == Draft(map[b := d], map[b := Plan.Unchanged]);
    hide Diff;
    var plans := map[b := Plan.Unchanged];
    assert MarkDuplicates(s.world, plans) == plans;
    assert WithDeletions(s.world, plans) == map[a := Delete, b := Plan.Unchanged];
  }

  lemma NothingReleased(w: World, a: Id, b: Id)
    requires a < b
    ensures Release(w, map[a := Delete, b := Plan.Unchanged]) == w
  {
    var plans := map[a := Delete, b := Plan.Unchanged];
    TwoKeys(a, b);
    assert plans.Keys == {a, b};
    assert forall key :: !IsWanted(w, plans, key);
    assert forall id: Id, p :: !Released(w, plans, id, p);
    hide Released, SortedKeys;
    assert [a, b][1..] == [b] && [b][1..] == [];
    assert ReleaseProto(ReleaseProto(w, w, plans, a, Tcp), w, plans, a, Udp) == w;
    assert ReleaseProto(ReleaseProto(w, w, plans, b, Tcp), w, plans, b, Udp) == w;
    assert ReleaseIds(w, w, plans, [b]) == ReleaseIds(w, w, plans, []);
  }

  /** Endpoint `b` is up to date and submitted again, `a` is not submitted; all listeners of `b` exit as `a` is
      removed. The generation is answered as applied, and no result mentions `b`, although it is recorded and nothing
      of it listens. */
  lemma SilentlyUnchanged(s: State, env: Env, build: Build, disk: Disk, generation: Generation, a: Id, b: Id, d: Desc)
    requires Replay.Starts(s, disk, Request(generation, [Desired(b, d)])) && disk(d.config) == Some(d.digest)
    requires a < b && s.world.entries.Keys == {a, b} && AboutToExit(s.world, env, b)
    requires build(d).Some? && Answers.UpToDate(s, b, d, build(d).value)
    ensures var (s', reply) := Reconcile(s, env, build, disk, Request(generation, [Desired(b, d)]));
            && reply.Answer? && reply.response.state == Applied
            && (forall i :: 0 <= i < |reply.response.results| ==> reply.response.results[i].id == a)
            && s'.applied == map[b := d] && !Serving(s'.world, b)
  {
    var request := Request(generation, [Desired(b, d)]);
    assert RefreshAll(request.endpoints, disk) == request.endpoints;
    assert Unrefreshed(request.endpoints, disk) == {};
    GenerationIsSilent(s, env, build, generation, a, b, d);
    hide ApplyGeneration, Content;
  }

  lemma GenerationIsSilent(s: State, env: Env, build: Build, generation: Generation, a: Id, b: Id, d: Desc)
    requires a < b && s.world.entries.Keys == {a, b} && AboutToExit(s.world, env, b)
    requires build(d).Some? && Answers.UpToDate(s, b, d, build(d).value)
    ensures var p := ApplyGeneration(s, env, build, generation, [Desired(b, d)], {});
            && (forall i :: 0 <= i < |p.results| ==> p.results[i].id == a && p.results[i].action == Deleted)
            && p.desired == map[b := d] && !Serving(p.world, b)
  {
    var plans := map[a := Delete, b := Plan.Unchanged];
    SilentPlans(s, build, a, b, d);
    NothingReleased(s.world, a, b);
    TwoKeys(a, b);
    assert plans.Keys == {a, b};
    hide Diff, Plans, Release, SortedKeys, ApplyPlans;
    TurnsAreSilent(s, env, build, generation, a, b, d);
  }

  lemma TurnsAreSilent(s: State, env: Env, build: Build, generation: Generation, a: Id, b: Id, d: Desc)
    requires a < b && b in s.world.entries && AboutToExit(s.world, env, b)
    ensures var plans := map[a := Delete, b := Plan.Unchanged];
            var p := ApplyPlans(s, env, build, generation, s.world, plans, Progress(s.world, map[b := d], []), [a, b]);
            && (forall i :: 0 <= i < |p.results| ==> p.results[i].id == a && p.results[i].action == Deleted)
            && p.desired == map[b := d] && !Serving(p.world, b)
  {
    var plans := map[a := Delete, b := Plan.Unchanged];
    hide ApplyPlan, RestoreCandidate, Remove, AboutToExit, ApplyPlans, Serving, ActiveAt;
    var p0 := Progress(s.world, map[b := d], []);
    var p1 := ApplyPlan(s, env, build, generation, RestoreCandidate(s.world, plans, a), p0, a, Delete);
    RemoveNotices(s.world, env, a, b, Tcp);
    RemoveNotices(s.world, env, a, b, Udp);
    DeleteTurn(s, env, build, generation, RestoreCandidate(s.world, plans, a), p0, a);
    SilentTurn(s, env, build, generation, RestoreCandidate(s.world, plans, b), p1, b);
    TwoTurns(s, env, build, generation, s.world, plans, p0, a, b);
    assert map[b := d] - {a} == map[b := d];
  }

  lemma DeleteTurn(s: State, env: Env, build: Build, generation: Generation, candidate: bool, p: Progress, id: Id)
    requires p.results == []
    ensures var p' := ApplyPlan(s, env, build, generation, candidate, p, id, Delete);
            && p'.world == Remove(p.world, env, id).0 && p'.desired == p.desired - {id}
            && forall i :: 0 <= i < |p'.results| ==> p'.results[i].id == id && p'.results[i].action == Deleted
  {
    ManagerAnswers.RemoveReports(p.world, env, id);
    hide Remove;
  }

  lemma SilentTurn(s: State, env: Env, build: Build, generation: Generation, candidate: bool, p: Progress, id: Id)
    requires ActiveAt(p.world, id, Tcp).None? && ActiveAt(p.world, id, Udp).None?
    ensures ApplyPlan(s, env, build, generation, candidate, p, id, Plan.Unchanged) == p && !Serving(p.world, id)
  {
    assert ProtosOf(p.world, id) == [];
  }

  lemma TwoTurns(s: State, env: Env, build: Build, generation: Generation, w0: World, plans: map<Id, Plan>, p: Progress,
                 a: Id, b: Id)
    requires a in plans && b in plans
    ensures var p1 := ApplyPlan(s, env, build, generation, RestoreCandidate(w0, plans, a), p, a, plans[a]);
            var p2 := ApplyPlan(s, env, build, generation, RestoreCandidate(w0, plans, b), p1, b, plans[b]);
            ApplyPlans(s, env, build, generation, w0, plans, p, [a, b]) == p2
  {
    hide ApplyPlan, RestoreCandidate;
    var p1 := ApplyPlan(s, env, build, generation, RestoreCandidate(w0, plans, a), p, a, plans[a]);
    var p2 := ApplyPlan(s, env, build, generation, RestoreCandidate(w0, plans, b), p1, b, plans[b]);
    assert [a, b][1..] == [b] && [b][1..] == [];
    assert ApplyPlans(s, env, build, generation, w0, plans, p1, [b])
        == ApplyPlans(s, env, build, generation, w0, plans, p2, []);
  }
}
