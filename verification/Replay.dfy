/** Resubmitting a generation is free: it changes nothing, and after a full application it returns
    the first answer again, in whatever order the endpoints come. */
module Replay {
  import opened Lifecycle
  import opened Manager
  import opened Reconciliation
  import opened Convergence
  import NonInterference

  /** The submission starts a generation: it is neither refused nor answered from what is recorded. */
  ghost predicate Starts(s: State, disk: Disk, request: Request) {
    && s.ready && (s.active.Some? ==> s.active.value <= request.generation)
    && (s.active == Some(request.generation) && s.last.Some? ==> Unrefreshed(request.endpoints, disk) != {})
  }

  /** Once a generation has an answer, resubmitting it changes nothing at all. */
  lemma ResubmissionChangesNothing(s: State, env: Env, build: Build, disk: Disk, request: Request)
    requires s.active == Some(request.generation) && s.last.Some? && Unrefreshed(request.endpoints, disk) == {}
    ensures Reconcile(s, env, build, disk, request).0 == s
  {
  }

  // ---------------------------------------------------------------- what a full application records

  lemma {:induction false} NoneInvalid(s: State, build: Build, unrefreshed: set<Id>, endpoints: seq<Desired>)
    requires forall id :: id in Diff(s, build, unrefreshed, endpoints).plans ==>
        Diff(s, build, unrefreshed, endpoints).plans[id] != Invalid
    ensures Diff(s, build, unrefreshed, endpoints).desired == Submitted(endpoints)
    ensures Diff(s, build, unrefreshed, endpoints).plans.Keys == Submitted(endpoints).Keys
    ensures DistinctIds(endpoints)
  {
    if endpoints != [] {
      var n := |endpoints| - 1;
      var d := Diff(s, build, unrefreshed, endpoints[..n]);
      var d' := Diff(s, build, unrefreshed, endpoints);
      assert d' == Judge(s, build, unrefreshed, d, endpoints[n]);
      assert d'.plans[endpoints[n].id] != Invalid;
      forall id | id in d.plans ensures d.plans[id] != Invalid {
        if id != endpoints[n].id { assert d'.plans[id] == d.plans[id]; }
      }
      NoneInvalid(s, build, unrefreshed, endpoints[..n]);
      SubmittedKeys(endpoints[..n], endpoints[n].id);
      forall i, j | 0 <= i < j < |endpoints| ensures endpoints[i].id != endpoints[j].id {
        if j < n {
          assert endpoints[..n][i].id != endpoints[..n][j].id;
        } else {
          assert endpoints[..n][i].id == endpoints[i].id;
        }
      }
    }
  }

  lemma PrefixFailure(a: seq<EndpointResult>, b: seq<EndpointResult>)
    ensures AnyResultFailed(a + b) <==> AnyResultFailed(a) || AnyResultFailed(b)
  {
    if AnyResultFailed(a) {
      var i :| 0 <= i < |a| && a[i].action == Action.Failed;
      assert (a + b)[i].action == Action.Failed;
    }
    if AnyResultFailed(b) {
      var i :| 0 <= i < |b| && b[i].action == Action.Failed;
      assert (a + b)[|a| + i].action == Action.Failed;
    }
  }

  lemma FailedOutcomes(id: Id, os: seq<Outcome>)
    ensures AnyResultFailed(IntoResults(id, os)) <==> AnyFailed(os)
  {
    if AnyFailed(os) {
      var i :| 0 <= i < |os| && os[i].action == Action.Failed;
      assert IntoResults(id, os)[i].action == Action.Failed;
    }
  }

  lemma NotedFailure(results: seq<EndpointResult>, id: Id, os: seq<Outcome>)
    requires AnyResultFailed(results)
    ensures AnyResultFailed(NoteRestored(results, id, os))
  {
    var i :| 0 <= i < |results| && results[i].action == Action.Failed;
    assert NoteRestored(results, id, os)[i].action == Action.Failed;
  }

  /** A failure is never forgotten, and a step without one keeps the desired description. */
  lemma FailureSticks(s: State, env: Env, build: Build, generation: Generation, candidate: bool, p: Progress, id: Id,
                      plan: Plan)
    ensures var p' := ApplyPlan(s, env, build, generation, candidate, p, id, plan);
            && (AnyResultFailed(p.results) ==> AnyResultFailed(p'.results))
            && (!AnyResultFailed(p'.results) ==>
                  plan != Invalid && p'.desired == if plan == Delete then p.desired - {id} else p.desired)
  {
    match plan {
      case Unchanged => PrefixFailure(p.results, Report(id, ProtosOf(p.world, id), Action.Unchanged, None));
      case Invalid =>
        var protos := ProtosOf(p.world, id);
        var report := Report(id, if protos == [] then [Tcp] else protos, Action.Failed, Some(false));
        assert report[0].action == Action.Failed;
        PrefixFailure(p.results, report);
      case Delete =>
        PrefixFailure(p.results, IntoResults(id, Remove(p.world, env, id).1));
      case Start(built) => BindingFailureSticks(s, env, build, generation, candidate, p, id, built);
      case Replace(built) => BindingFailureSticks(s, env, build, generation, candidate, p, id, built);
    }
    hide Remove, ApplyBinding, AnyResultFailed;
  }

  lemma BindingFailureSticks(s: State, env: Env, build: Build, generation: Generation, candidate: bool, p: Progress,
                             id: Id, built: Spec)
    ensures var p' := ApplyBinding(s, env, build, generation, candidate, p, id, built);
            && (AnyResultFailed(p.results) ==> AnyResultFailed(p'.results))
            && (!AnyResultFailed(p'.results) ==> p'.desired == p.desired)
  {
    hide Apply, AnyResultFailed, AnyFailed, NoteRestored;
    var (w1, os) := Apply(p.world, env, id, generation, built);
    PrefixFailure(p.results, IntoResults(id, os));
    FailedOutcomes(id, os);
    if AnyFailed(os) {
      var results := p.results + IntoResults(id, os);
      var previous := Lookup(s.applied, id);
      if previous.Some? && build(previous.value).Some? {
        NotedFailure(results, id, Apply(w1, env, id, generation, build(previous.value).value).1);
      }
    }
  }

  lemma {:induction false} FailuresStick(s: State, env: Env, build: Build, generation: Generation, w0: World,
                                         plans: map<Id, Plan>,
                                         p: Progress, ids: seq<Id>)
    requires forall i :: 0 <= i < |ids| ==> ids[i] in plans
    requires forall id :: id in ids && plans[id] == Delete ==> id !in p.desired
    ensures var p' := ApplyPlans(s, env, build, generation, w0, plans, p, ids);
            && (AnyResultFailed(p.results) ==> AnyResultFailed(p'.results))
            && (!AnyResultFailed(p'.results) ==> p'.desired == p.desired && forall id :: id in ids ==>
                  plans[id] != Invalid)
    decreases |ids|
  {
    hide ApplyPlan, AnyResultFailed;
    if ids != [] {
      var c := RestoreCandidate(w0, plans, ids[0]);
      FailureSticks(s, env, build, generation, c, p, ids[0], plans[ids[0]]);
      var p1 := ApplyPlan(s, env, build, generation, c, p, ids[0], plans[ids[0]]);
      if AnyResultFailed(p1.results) {
        FailuresPersist(s, env, build, generation, w0, plans, p1, ids[1..]);
      } else {
        assert p1.desired == p.desired;
        FailuresStick(s, env, build, generation, w0, plans, p1, ids[1..]);
      }
    }
  }

  lemma {:induction false} FailuresPersist(s: State, env: Env, build: Build, generation: Generation, w0: World,
                                           plans: map<Id, Plan>,
                                           p: Progress, ids: seq<Id>)
    requires (forall i :: 0 <= i < |ids| ==> ids[i] in plans) && AnyResultFailed(p.results)
    ensures AnyResultFailed(ApplyPlans(s, env, build, generation, w0, plans, p, ids).results)
    decreases |ids|
  {
    hide ApplyPlan, AnyResultFailed;
    if ids != [] {
      var c := RestoreCandidate(w0, plans, ids[0]);
      FailureSticks(s, env, build, generation, c, p, ids[0], plans[ids[0]]);
      var q := ApplyPlan(s, env, build, generation, c, p, ids[0], plans[ids[0]]);
      FailuresPersist(s, env, build, generation, w0, plans, q, ids[1..]);
    }
  }

  /** A generation without a failure had distinct ids, and records exactly what was submitted. */
  lemma AppliedInFull(s: State, env: Env, build: Build, generation: Generation, endpoints: seq<Desired>,
                      unrefreshed: set<Id>)
    requires !AnyResultFailed(ApplyGeneration(s, env, build, generation, endpoints, unrefreshed).results)
    ensures ApplyGeneration(s, env, build, generation, endpoints, unrefreshed).desired == Submitted(endpoints)
    ensures DistinctIds(endpoints)
  {
    hide Diff, ApplyPlans, Release, AnyResultFailed, Submitted;
    var draft := Diff(s, build, unrefreshed, endpoints);
    var plans := Plans(s, build, unrefreshed, endpoints);
    var ids := SortedKeys(plans.Keys);
    NonInterference.DiffKeys(s, build, unrefreshed, endpoints);
    FailuresStick(s, env, build, generation, s.world, plans, Progress(Release(s.world, plans), draft.desired, []), ids);
    forall id | id in draft.plans ensures draft.plans[id] != Invalid {
      assert id in ids;
      assert plans[id] != Invalid;
    }
    NoneInvalid(s, build, unrefreshed, endpoints);
  }

  // ---------------------------------------------------------------- content

  /** The descriptions submitted under `id`, in the order of the submission. */
  ghost function SpecsOf(endpoints: seq<Desired>, id: Id): seq<Desc> {
    if endpoints == [] then []
    else
      var n := |endpoints| - 1;
      SpecsOf(endpoints[..n], id) + if endpoints[n].id == id then [endpoints[n].spec] else []
  }

  ghost function Configs(specs: seq<Desc>): (c: seq<nat>)
    ensures |c| == |specs| && forall i :: 0 <= i < |c| ==> c[i] == specs[i].config
  {
    seq(|specs|, i requires 0 <= i < |specs| => specs[i].config)
  }

  lemma {:induction false} ContentIsConfigs(endpoints: seq<Desired>, id: Id)
    ensures id in Content(endpoints) <==> SpecsOf(endpoints, id) != []
    ensures id in Content(endpoints) ==> Content(endpoints)[id] == Configs(SpecsOf(endpoints, id))
  {
    if endpoints != [] {
      var n := |endpoints| - 1;
      ContentIsConfigs(endpoints[..n], id);
      var before, e := SpecsOf(endpoints[..n], id), endpoints[n];
      assert Configs(before + [e.spec]) == Configs(before) + [e.spec.config];
      assert before == [] ==> Configs(before) == [];
    }
  }

  /** Two submissions ask for the same: under every id the same configurations in the same order. */
  ghost predicate SameRequest(a: seq<Desired>, b: seq<Desired>) {
    forall id: Id :: Configs(SpecsOf(a, id)) == Configs(SpecsOf(b, id))
  }

  /** What decides whether a submission repeats another one. */
  lemma ContentDecides(a: seq<Desired>, b: seq<Desired>)
    ensures Content(a) == Content(b) <==> SameRequest(a, b)
  {
    hide Content;
    forall id: Id ensures (id in Content(a) <==> SpecsOf(a, id) != []) && (id in Content(b) <==> SpecsOf(b, id) != [])
      ensures id in Content(a) ==> Content(a)[id] == Configs(SpecsOf(a, id))
      ensures id in Content(b) ==> Content(b)[id] == Configs(SpecsOf(b, id))
    {
      ContentIsConfigs(a, id);
      ContentIsConfigs(b, id);
    }
    hide SpecsOf;
    if Content(a) == Content(b) {
      forall id: Id ensures Configs(SpecsOf(a, id)) == Configs(SpecsOf(b, id)) {
      }
    }
    if SameRequest(a, b) {
      assert forall id: Id :: |SpecsOf(a, id)| == |Configs(SpecsOf(a, id))| == |SpecsOf(b, id)|;
      assert forall id: Id :: id in Content(a) <==> id in Content(b);
      assert forall id: Id :: id in Content(a) ==> Content(a)[id] == Content(b)[id];
    }
  }

  lemma {:induction false} SpecsAre(endpoints: seq<Desired>, id: Id, spec: Desc)
    ensures spec in SpecsOf(endpoints, id) <==> Desired(id, spec) in endpoints
  {
    if endpoints != [] {
      SpecsAre(endpoints[..|endpoints| - 1], id, spec);
      assert endpoints == endpoints[..|endpoints| - 1] + [endpoints[|endpoints| - 1]];
    }
  }

  /** What the content of a submission with distinct ids holds. */
  lemma {:induction false} ContentOfDistinct(endpoints: seq<Desired>)
    requires DistinctIds(endpoints)
    ensures forall i :: 0 <= i < |endpoints| ==>
        endpoints[i].id in Content(endpoints) && Content(endpoints)[endpoints[i].id] == [endpoints[i].spec.config]
    ensures forall id :: id in Content(endpoints) ==> exists i :: 0 <= i < |endpoints| && endpoints[i].id == id
  {
    if endpoints != [] {
      var n := |endpoints| - 1;
      var rest := endpoints[..n];
      ContentOfDistinct(rest);
      assert forall i :: 0 <= i < |rest| ==> rest[i].id == endpoints[i].id != endpoints[n].id;
      assert endpoints[n].id !in Content(rest);
      forall i | 0 <= i < |endpoints|
        ensures endpoints[i].id in Content(endpoints)
        ensures Content(endpoints)[endpoints[i].id] == [endpoints[i].spec.config]
      {
        if i < n { assert rest[i] == endpoints[i]; }
      }
      forall id | id in Content(endpoints) ensures exists i :: 0 <= i < |endpoints| && endpoints[i].id == id {
        if id != endpoints[n].id {
          var i :| 0 <= i < |rest| && rest[i].id == id;
          assert endpoints[i].id == id;
        }
      }
    }
  }

  /** Reordering a submission does not change its content. */
  lemma ContentIgnoresOrder(a: seq<Desired>, b: seq<Desired>)
    requires DistinctIds(a) && DistinctIds(b) && multiset(a) == multiset(b)
    ensures Content(a) == Content(b)
  {
    SameMembers(a, b);
    SameMembers(b, a);
    hide Content;
    ContentCarries(a, b);
    ContentCarries(b, a);
  }

  lemma ContentCarries(a: seq<Desired>, b: seq<Desired>)
    requires DistinctIds(a) && DistinctIds(b) && forall i :: 0 <= i < |a| ==> a[i] in b
    ensures forall id :: id in Content(a) ==> id in Content(b) && Content(b)[id] == Content(a)[id]
  {
    ContentOfDistinct(a);
    ContentOfDistinct(b);
    hide Content, DistinctIds;
    forall id | id in Content(a) ensures id in Content(b) && Content(b)[id] == Content(a)[id] {
      var i :| 0 <= i < |a| && a[i].id == id;
      assert a[i] in b;
      var j :| 0 <= j < |b| && b[j] == a[i];
    }
  }

  lemma SameMembers(a: seq<Desired>, b: seq<Desired>)
    requires multiset(a) == multiset(b)
    ensures forall i :: 0 <= i < |a| ==> a[i] in b
  {
    forall i | 0 <= i < |a| ensures a[i] in b {
      assert a[i] in multiset(a);
      assert a[i] in multiset(b);
    }
  }

  lemma {:induction false} SubmittedAt(endpoints: seq<Desired>, i: nat)
    requires DistinctIds(endpoints) && i < |endpoints|
    ensures endpoints[i].id in Submitted(endpoints) && Submitted(endpoints)[endpoints[i].id] == endpoints[i].spec
  {
    var n := |endpoints| - 1;
    if i < n { SubmittedAt(endpoints[..n], i); }
  }

  /** What is recorded for a submitted endpoint after a full application. */
  lemma RecordedDigest(applied: map<Id, Desc>, first: seq<Desired>, disk: Disk, id: Id)
    requires DistinctIds(first) && applied == Submitted(RefreshAll(first, disk)) && id in applied
    requires Unrefreshed(first, disk) == {}
    ensures exists j :: 0 <= j < |first| && applied[id].config == first[j].spec.config
              && disk(first[j].spec.config) == Some(applied[id].digest)
  {
    var f := RefreshAll(first, disk);
    SubmittedKeys(f, id);
    var j :| 0 <= j < |f| && f[j].id == id;
    assert DistinctIds(f);
    SubmittedAt(f, j);
    hide Submitted;
    assert first[j].id == id;
    assert disk(first[j].spec.config).Some? by {
      assert disk(first[j].spec.config).None? ==> id in Unrefreshed(first, disk);
    }
    assert f[j].spec == Refreshed(first[j].spec, disk);
  }

  /** Nothing has drifted when the material a submission names is unchanged. */
  lemma NothingDrifted(s: State, first: seq<Desired>, second: seq<Desired>, disk: Disk, later: Disk)
    requires DistinctIds(first) && s.applied == Submitted(RefreshAll(first, disk))
    requires Unrefreshed(first, disk) == {}
    requires forall i :: 0 <= i < |first| ==> later(first[i].spec.config) == disk(first[i].spec.config)
    ensures !MaterialDrifted(s, RefreshAll(second, later))
  {
    hide Submitted, Unrefreshed;
    var r := RefreshAll(second, later);
    forall i | 0 <= i < |r| && r[i].id in s.applied && s.applied[r[i].id].config == r[i].spec.config
      ensures s.applied[r[i].id] == r[i].spec
    {
      RecordedDigest(s.applied, first, disk, r[i].id);
      assert r[i].spec == Refreshed(second[i].spec, later);
    }
  }

  /** Replay safety: after a generation was applied in full, submitting the same content under the
      same generation over unchanged material returns the first answer and changes nothing,
      whatever has happened to the endpoints meanwhile (`later`). */
  lemma ReplaysTheAnswer(s: State, env: Env, build: Build, disk: Disk, request: Request,
                         later: World, env': Env, build': Build, disk': Disk, again: Request)
    requires Unrefreshed(request.endpoints, disk) == {} && Unrefreshed(again.endpoints, disk') == {}
    requires var (s1, reply) := Reconcile(s, env, build, disk, request);
             reply.Answer? && reply.response.state == Applied && (s.active == Some(request.generation) ==> s.last.None?)
    requires again.generation == request.generation && Content(again.endpoints) == Content(request.endpoints)
    requires forall i :: 0 <= i < |request.endpoints| ==>
               disk'(request.endpoints[i].spec.config) == disk(request.endpoints[i].spec.config)
    ensures var (s1, reply) := Reconcile(s, env, build, disk, request);
            var s2 := s1.(world := later);
            Reconcile(s2, env', build', disk', again) == (s2, reply)
  {
    hide ApplyGeneration, Content, MaterialDrifted, AnyResultFailed, Submitted;
    var (s1, reply) := Reconcile(s, env, build, disk, request);
    var f := RefreshAll(request.endpoints, disk);
    assert !AnyResultFailed(ApplyGeneration(s, env, build, request.generation, f, {}).results);
    AppliedInFull(s, env, build, request.generation, f, {});
    assert DistinctIds(request.endpoints) by {
      forall i, j | 0 <= i < j < |f| ensures request.endpoints[i].id != request.endpoints[j].id {
        assert f[i].id != f[j].id;
      }
    }
    NothingDrifted(s1.(world := later), request.endpoints, again.endpoints, disk, disk');
  }
}
