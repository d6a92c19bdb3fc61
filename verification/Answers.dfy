/** What a generation does with every endpoint, and what it answers for it: which plan each gets, the results it is
    given, and what is recorded of it. */
module Answers {
  import opened Lifecycle
  import opened Manager
  import opened ManagerFrame
  import opened Reconciliation
  import opened NonInterference
  import opened Turns
  import opened ManagerAnswers
  import Replay
  import Collisions
  import Refusals
  import ManagerRuns

  // ---------------------------------------------------------------- the plan of an endpoint

  /** A description that cannot be used: submitted twice, not refreshed, or not built. */
  ghost predicate Rejected(build: Build, unrefreshed: set<Id>, endpoints: seq<Desired>, id: Id)
    requires Replay.SpecsOf(endpoints, id) != []
  {
    || |Replay.SpecsOf(endpoints, id)| > 1
    || id in unrefreshed
    || build(Replay.SpecsOf(endpoints, id)[0]).None?
  }

  /** The endpoint is recorded as applied with this description, and every protocol of it listens. */
  ghost predicate UpToDate(s: State, id: Id, d: Desc, built: Spec) {
    && id in s.applied && s.applied[id] == d
    && forall p :: Wants(built, p) ==> ActiveAt(s.world, id, p).Some?
  }

  /** What is to be done with a submitted endpoint, seen by itself. */
  ghost function Drafted(s: State, build: Build, unrefreshed: set<Id>, endpoints: seq<Desired>, id: Id): Plan
    requires Replay.SpecsOf(endpoints, id) != []
  {
    if Rejected(build, unrefreshed, endpoints, id) then Invalid
    else
      var d := Replay.SpecsOf(endpoints, id)[0];
      var built := build(d).value;
      if UpToDate(s, id, d, built) then Plan.Unchanged
      else if id in s.applied then Replace(built)
      else Start(built)
  }

  lemma RunningExactly(w: World, id: Id, built: Spec)
    ensures AllRunning(w, id, built) <==> forall p :: Wants(built, p) ==> ActiveAt(w, id, p).Some?
  {
    assert Wants(built, Tcp) == built.tcp && Wants(built, Udp) == built.udp;
    if AllRunning(w, id, built) {
      forall p | Wants(built, p) ensures ActiveAt(w, id, p).Some? {
        assert p == Tcp || p == Udp;
      }
    }
  }

  lemma {:induction false} DiffIsExact(s: State, build: Build, unrefreshed: set<Id>, endpoints: seq<Desired>, id: Id)
    ensures var draft := Diff(s, build, unrefreshed, endpoints);
            var specs := Replay.SpecsOf(endpoints, id);
            && (id in draft.plans <==> specs != [])
            && (specs != [] ==> draft.plans[id] == Drafted(s, build, unrefreshed, endpoints, id))
            && (id in draft.desired <==> specs != [] && id !in unrefreshed && build(specs[0]).Some?)
            && (id in draft.desired ==> draft.desired[id] == specs[0])
  {
    if endpoints != [] {
      var n := |endpoints| - 1;
      DiffIsExact(s, build, unrefreshed, endpoints[..n], id);
      var e := endpoints[n];
      if e.id == id && build(e.spec).Some? {
        RunningExactly(s.world, id, build(e.spec).value);
      }
    }
  }

  /** Another endpoint of the submission is going to bind, or keeps, an address `built` asks for. */
  ghost predicate Clashes(s: State, build: Build, unrefreshed: set<Id>, endpoints: seq<Desired>, id: Id, built: Spec) {
    exists other: Id, p :: other != id && Replay.SpecsOf(endpoints, other) != []
      && Collisions.Takes(s.world, Drafted(s, build, unrefreshed, endpoints, other), other, built, p)
  }

  /** The plan of every endpoint, from the submission alone: what is not submitted is deleted if the manager holds it;
      what is submitted twice, could not be refreshed or does not build, or clashes with another endpoint, is
      invalid; what is up to date is left alone; the rest is replaced if it is recorded as applied, else started. */
  lemma PlanIsExact(s: State, build: Build, unrefreshed: set<Id>, endpoints: seq<Desired>, id: Id)
    ensures var plans := Plans(s, build, unrefreshed, endpoints);
            var specs := Replay.SpecsOf(endpoints, id);
            if specs == [] then (id in plans <==> id in s.world.entries) && (id in plans ==> plans[id] == Delete)
            else
              && id in plans
              && var plan := Drafted(s, build, unrefreshed, endpoints, id);
                 plans[id] == if && Binds(plan)
                                 && Clashes(s, build, unrefreshed, endpoints, id, plan.built) then Invalid
                              else plan
  {
    hide Diff, Drafted, Replay.SpecsOf, Collides;
    forall x: Id
      ensures x in Diff(s, build, unrefreshed, endpoints).plans <==> Replay.SpecsOf(endpoints, x) != []
      ensures x in Diff(s, build, unrefreshed, endpoints).plans ==>
                Diff(s, build, unrefreshed, endpoints).plans[x] == Drafted(s, build, unrefreshed, endpoints, x)
    {
      DiffIsExact(s, build, unrefreshed, endpoints, x);
    }
    if Replay.SpecsOf(endpoints, id) != [] {
      Collisions.MarkingIsExact(s.world, Diff(s, build, unrefreshed, endpoints).plans, id);
      hide Collisions.Takes;
      assert Binds(Drafted(s, build, unrefreshed, endpoints, id)) ==>
        (Clashes(s, build, unrefreshed, endpoints, id, Drafted(s, build, unrefreshed, endpoints, id).built) <==>
         exists other, p :: other in Diff(s, build, unrefreshed, endpoints).plans && other != id
           && Collisions.Takes(s.world, Diff(s, build, unrefreshed, endpoints).plans[other], other,
                               Drafted(s, build, unrefreshed, endpoints, id).built, p));
    }
  }

  // ---------------------------------------------------------------- the results of an endpoint

  /** The results given for `id`, in order. */
  ghost function For(results: seq<EndpointResult>, id: Id): seq<EndpointResult> {
    if results == [] then []
    else
      var n := |results| - 1;
      For(results[..n], id) + if results[n].id == id then [results[n]] else []
  }

  lemma {:induction false} ForAppends(a: seq<EndpointResult>, b: seq<EndpointResult>, id: Id)
    ensures For(a + b, id) == For(a, id) + For(b, id)
    decreases |b|
  {
    if b == [] {
      assert a + b == a;
    } else {
      var n := |b| - 1;
      assert (a + b)[..|a + b| - 1] == a + b[..n];
      ForAppends(a, b[..n], id);
    }
  }

  lemma {:induction false} ForOwn(results: seq<EndpointResult>, owner: Id, id: Id)
    requires forall i :: 0 <= i < |results| ==> results[i].id == owner
    ensures For(results, id) == if id == owner then results else []
  {
    if results != [] {
      var n := |results| - 1;
      ForOwn(results[..n], owner, id);
      assert results == results[..n] + [results[n]];
    }
  }

  lemma {:induction false} ForNone(results: seq<EndpointResult>, id: Id, i: nat)
    requires For(results, id) == [] && i < |results|
    ensures results[i].id != id
    decreases |results|
  {
    var n := |results| - 1;
    if i < n {
      ForNone(results[..n], id, i);
    }
  }

  /** What the plan of an endpoint adds to the results. */
  ghost function Added(s: State, env: Env, build: Build, generation: Generation, candidate: bool, p: Progress, id: Id,
                       plan: Plan): seq<EndpointResult> {
    match plan
    case Unchanged => Report(id, ProtosOf(p.world, id), Action.Unchanged, None)
    case Invalid =>
      Report(id, if ProtosOf(p.world, id) == [] then [Tcp] else ProtosOf(p.world, id), Action.Failed, Some(false))
    case Delete => IntoResults(id, Remove(p.world, env, id).1)
    case Start(built) => AddedByBinding(s, env, build, generation, candidate, p.world, id, built)
    case Replace(built) => AddedByBinding(s, env, build, generation, candidate, p.world, id, built)
  }

  ghost function AddedByBinding(s: State, env: Env, build: Build, generation: Generation, candidate: bool, w: World,
                                id: Id, built: Spec): seq<EndpointResult> {
    var (w1, os) := Apply(w, env, id, generation, built);
    var results := IntoResults(id, os);
    if AnyFailed(os) && candidate && !Serving(w1, id) then
      RestoreReleased(w1, env, build, id, generation, Lookup(s.applied, id), results).1
    else results
  }

  lemma NotesOwn(a: seq<EndpointResult>, b: seq<EndpointResult>, id: Id, os: seq<Outcome>)
    requires For(a, id) == []
    ensures NoteRestored(a + b, id, os) == a + NoteRestored(b, id, os)
  {
    forall i | 0 <= i < |a| ensures a[i].id != id {
      ForNone(a, id, i);
    }
  }

  lemma PlanAdds(s: State, env: Env, build: Build, generation: Generation, candidate: bool, p: Progress, id: Id,
                 plan: Plan)
    requires For(p.results, id) == []
    ensures var added := Added(s, env, build, generation, candidate, p, id, plan);
            && ApplyPlan(s, env, build, generation, candidate, p, id, plan).results == p.results + added
            && forall i :: 0 <= i < |added| ==> added[i].id == id
  {
    hide Apply, Remove, For;
    if Binds(plan) {
      var (w1, os) := Apply(p.world, env, id, generation, plan.built);
      var previous := Lookup(s.applied, id);
      if previous.Some? && build(previous.value).Some? {
        NotesOwn(p.results, IntoResults(id, os), id, Apply(w1, env, id, generation, build(previous.value).value).1);
      }
    }
  }

  /** The results of a generation are those its endpoints add, each once, in the order of the endpoints. */
  lemma {:induction false} PlansAdd(s: State, env: Env, build: Build, generation: Generation, w0: World,
                                    plans: map<Id, Plan>, p: Progress, ids: seq<Id>, id: Id)
    requires forall i :: 0 <= i < |ids| ==> ids[i] in plans
    requires forall i, j :: 0 <= i < j < |ids| ==> ids[i] != ids[j]
    requires forall i :: 0 <= i < |ids| ==> For(p.results, ids[i]) == []
    requires id !in ids
    ensures For(ApplyPlans(s, env, build, generation, w0, plans, p, ids).results, id) == For(p.results, id)
    decreases |ids|
  {
    hide ApplyPlan, For, RestoreCandidate;
    if ids != [] {
      var c := RestoreCandidate(w0, plans, ids[0]);
      var p1 := ApplyPlan(s, env, build, generation, c, p, ids[0], plans[ids[0]]);
      var added := Added(s, env, build, generation, c, p, ids[0], plans[ids[0]]);
      PlanAdds(s, env, build, generation, c, p, ids[0], plans[ids[0]]);
      forall x: Id | x != ids[0] ensures For(p1.results, x) == For(p.results, x) {
        ForAppends(p.results, added, x);
        ForOwn(added, ids[0], x);
      }
      PlansAdd(s, env, build, generation, w0, plans, p1, ids[1..], id);
    }
  }

  /** What is answered for an endpoint is what its own turn adds. */
  lemma AnsweredAtItsTurn(s: State, env: Env, build: Build, generation: Generation, w0: World, plans: map<Id, Plan>,
                          p0: Progress, ids: seq<Id>, k: nat) returns (p: Progress, q: Progress)
    requires forall i :: 0 <= i < |ids| ==> ids[i] in plans
    requires forall i, j :: 0 <= i < j < |ids| ==> ids[i] != ids[j]
    requires k < |ids| && p0.results == []
    ensures var id, end := ids[k], ApplyPlans(s, env, build, generation, w0, plans, p0, ids);
            && q == ApplyPlan(s, env, build, generation, RestoreCandidate(w0, plans, id), p, id, plans[id])
            && Untouched(p0.world, p.world, id) && Ages(p0.world.host, p.world.host) && SameRecord(p0, p, id)
            && Untouched(q.world, end.world, id) && Ages(q.world.host, end.world.host) && SameRecord(q, end, id)
            && For(end.results, id)
               == Added(s, env, build, generation, RestoreCandidate(w0, plans, id), p, id, plans[id])
  {
    hide ApplyPlan, RestoreCandidate, Untouched, Ages, SameRecord;
    var id := ids[k];
    var c := RestoreCandidate(w0, plans, id);
    assert forall x: Id :: For(p0.results, x) == [];
    hide For, Added, ApplyPlans;
    p, q := OwnTurn(s, env, build, generation, w0, plans, p0, ids, k);
    forall i | k <= i < |ids| ensures For(p.results, ids[i]) == [] {
      PlansAdd(s, env, build, generation, w0, plans, p0, ids[..k], ids[i]);
    }
    TurnAdds(s, env, build, generation, c, p, id, plans[id], id);
    var rest := ids[k + 1..];
    forall i | 0 <= i < |rest| ensures For(q.results, rest[i]) == [] {
      assert rest[i] == ids[k + 1 + i];
      TurnAdds(s, env, build, generation, c, p, id, plans[id], rest[i]);
    }
    assert ids == ids[..k + 1] + rest;
    ApplyPlansSplit(s, env, build, generation, w0, plans, p0, ids[..k + 1], rest);
    PlansAdd(s, env, build, generation, w0, plans, q, rest, id);
  }

  lemma TurnAdds(s: State, env: Env, build: Build, generation: Generation, candidate: bool, p: Progress, id: Id,
                 plan: Plan, x: Id)
    requires For(p.results, id) == []
    ensures For(ApplyPlan(s, env, build, generation, candidate, p, id, plan).results, x)
         == For(p.results, x) + if x == id then Added(s, env, build, generation, candidate, p, id, plan) else []
  {
    hide ApplyPlan, Added, For;
    var added := Added(s, env, build, generation, candidate, p, id, plan);
    PlanAdds(s, env, build, generation, candidate, p, id, plan);
    ForAppends(p.results, added, x);
    ForOwn(added, id, x);
  }

  // ---------------------------------------------------------------- the answer to a submission

  /** The submission as the generation sees it: every description over the material on disk now. */
  ghost function Asked(disk: Disk, request: Request): seq<Desired> {
    RefreshAll(request.endpoints, disk)
  }

  lemma {:induction false} AskedIsSubmitted(endpoints: seq<Desired>, disk: Disk, id: Id)
    ensures var asked, specs := Replay.SpecsOf(RefreshAll(endpoints, disk), id), Replay.SpecsOf(endpoints, id);
            && |asked| == |specs|
            && forall i :: 0 <= i < |specs| ==> asked[i] == Refreshed(specs[i], disk)
  {
    if endpoints != [] {
      var n := |endpoints| - 1;
      AskedIsSubmitted(endpoints[..n], disk, id);
      assert RefreshAll(endpoints, disk)[..n] == RefreshAll(endpoints[..n], disk);
    }
  }

  /** One result for tcp and one for udp, as far as they are listed. */
  ghost function OnePer(id: Id, action: Action, retryable: Option<bool>, tcp: bool, udp: bool): seq<EndpointResult> {
    (if tcp then [EndpointResult(id, Tcp, action, retryable, false)] else [])
    + (if udp then [EndpointResult(id, Udp, action, retryable, false)] else [])
  }

  /** The turn of an endpoint in the generation a submission starts. */
  lemma TurnOf(s: State, env: Env, build: Build, disk: Disk, request: Request, id: Id)
    returns (p: Progress, q: Progress)
    requires Replay.Starts(s, disk, request)
    requires id in Plans(s, build, Unrefreshed(request.endpoints, disk), Asked(disk, request))
    ensures var (s', reply) := Reconcile(s, env, build, disk, request);
            var unrefreshed := Unrefreshed(request.endpoints, disk);
            var plans := Plans(s, build, unrefreshed, Asked(disk, request));
            var p0 := Opening(s, build, Asked(disk, request), unrefreshed);
            var c := RestoreCandidate(s.world, plans, id);
            && reply.Answer?
            && q == ApplyPlan(s, env, build, request.generation, c, p, id, plans[id])
            && Untouched(p0.world, p.world, id) && Ages(p0.world.host, p.world.host) && SameRecord(p0, p, id)
            && Untouched(q.world, s'.world, id) && Ages(q.world.host, s'.world.host)
            && (id in q.desired <==> id in s'.applied) && (id in q.desired ==> s'.applied[id] == q.desired[id])
            && For(reply.response.results, id)
               == Added(s, env, build, request.generation, c, p, id, plans[id])
  {
    hide ApplyPlan, ApplyPlans, RestoreCandidate, Untouched, Ages, For, Added, Diff, Plans, Release;
    Refusals.StartIsRecorded(s, env, build, disk, request);
    var unrefreshed := Unrefreshed(request.endpoints, disk);
    var plans := Plans(s, build, unrefreshed, Asked(disk, request));
    var ids := SortedKeys(plans.Keys);
    var k :| 0 <= k < |ids| && ids[k] == id;
    p, q := AnsweredAtItsTurn(s, env, build, request.generation, s.world, plans,
                              Opening(s, build, Asked(disk, request), unrefreshed), ids, k);
    hide Reconcile;
  }

  /** An endpoint the manager holds and that is not submitted: one deletion for every slot it had, and it is gone. */
  lemma DeletedIsAnswered(s: State, env: Env, build: Build, disk: Disk, request: Request, id: Id)
    requires Replay.Starts(s, disk, request)
    requires id in s.world.entries && Replay.SpecsOf(request.endpoints, id) == []
    ensures var (s', reply) := Reconcile(s, env, build, disk, request);
            && reply.Answer?
            && For(reply.response.results, id)
               == OnePer(id, Deleted, None, SlotAt(s.world, id, Tcp).Some?, SlotAt(s.world, id, Udp).Some?)
            && id !in s'.world.entries && id !in s'.applied
  {
    hide Reconcile, Plans, Release, Remove, For, Replay.SpecsOf, RestoreCandidate, Diff, Ages;
    var unrefreshed := Unrefreshed(request.endpoints, disk);
    AskedIsSubmitted(request.endpoints, disk, id);
    PlanIsExact(s, build, unrefreshed, Asked(disk, request), id);
    var plans := Plans(s, build, unrefreshed, Asked(disk, request));
    var p, q := TurnOf(s, env, build, disk, request, id);
    ReleaseKeepsSlots(s.world, plans, id, Tcp);
    ReleaseKeepsSlots(s.world, plans, id, Udp);
    RemoveReports(p.world, env, id);
    RemoveFrame(p.world, env, id);
    SlotsStay(Release(s.world, plans), p.world, id);
  }

  lemma SlotsStay(w: World, w': World, id: Id)
    requires Untouched(w, w', id)
    ensures forall p :: SlotAt(w', id, p).Some? == SlotAt(w, id, p).Some?
  {
  }

  /** The protocols that still listen when the turn of an endpoint that is left alone comes. */
  ghost predicate StillListening(s: State, s': State, id: Id, p: Proto, listed: bool) {
    && (listed ==> ActiveAt(s.world, id, p).Some?)
    && (ActiveAt(s.world, id, p).Some? && ActiveAt(s.world, id, p).value.cohort !in s'.world.host.exited ==> listed)
  }

  lemma ListedAtTurn(s: State, w: World, s': State, id: Id, p: Proto)
    requires Untouched(s.world, w, id) && Untouched(w, s'.world, id) && Ages(w.host, s'.world.host)
    ensures StillListening(s, s', id, p, ActiveAt(w, id, p).Some?)
  {
    if id in s.world.entries && p in s.world.entries[id].slots {
      assert WeatheredSlot(s.world.entries[id].slots[p], w.entries[id].slots[p], s.world.entries[id].drain.onDelete,
                           w.host);
    }
  }

  /** The turn of an endpoint that is left alone: it is not touched in the whole generation. */
  lemma TurnOfStaying(s: State, env: Env, build: Build, disk: Disk, request: Request, id: Id)
    returns (p: Progress, q: Progress, tcp: bool, udp: bool)
    requires Replay.Starts(s, disk, request)
    requires var plans := Plans(s, build, Unrefreshed(request.endpoints, disk), Asked(disk, request));
             id in plans && Stays(plans[id])
    ensures var (s', reply) := Reconcile(s, env, build, disk, request);
            var unrefreshed := Unrefreshed(request.endpoints, disk);
            var plans := Plans(s, build, unrefreshed, Asked(disk, request));
            && reply.Answer? && Untouched(s.world, s'.world, id)
            && StillListening(s, s', id, Tcp, tcp) && StillListening(s, s', id, Udp, udp)
            && ProtosOf(p.world, id) == (if tcp then [Tcp] else []) + (if udp then [Udp] else [])
            && (id in p.world.entries <==> id in s.world.entries)
            && q == ApplyPlan(s, env, build, request.generation, false, p, id, plans[id])
            && (id in p.desired <==> id in Diff(s, build, unrefreshed, Asked(disk, request)).desired)
            && (id in p.desired ==> p.desired[id] == Diff(s, build, unrefreshed, Asked(disk, request)).desired[id])
            && (id in q.desired <==> id in s'.applied) && (id in q.desired ==> s'.applied[id] == q.desired[id])
            && For(reply.response.results, id) == Added(s, env, build, request.generation, false, p, id, plans[id])
  {
    hide Reconcile, Plans, Release, For, Diff, Ages, Untouched, ApplyBinding, Remove, StillListening, Apply;
    var plans := Plans(s, build, Unrefreshed(request.endpoints, disk), Asked(disk, request));
    p, q := TurnOf(s, env, build, disk, request, id);
    tcp, udp := ActiveAt(p.world, id, Tcp).Some?, ActiveAt(p.world, id, Udp).Some?;
    var s' := Reconcile(s, env, build, disk, request).0;
    ReleaseLeavesAlone(s.world, plans, id);
    UntouchedTrans(s.world, Release(s.world, plans), p.world, id);
    assert q.world == p.world;
    UntouchedTrans(s.world, p.world, s'.world, id);
    ListedAtTurn(s, p.world, s', id, Tcp);
    ListedAtTurn(s, p.world, s', id, Udp);
    HeldStill(s.world, p.world, id);
  }

  lemma HeldStill(w: World, w': World, id: Id)
    requires Untouched(w, w', id)
    ensures id in w.entries <==> id in w'.entries
  {
  }

  /** An endpoint that is up to date: one `Unchanged` for every protocol that still listens; it is not touched, and
      stays recorded. */
  lemma UnchangedIsAnswered(s: State, env: Env, build: Build, disk: Disk, request: Request, id: Id)
    returns (tcp: bool, udp: bool)
    requires Replay.Starts(s, disk, request) && Replay.SpecsOf(Asked(disk, request), id) != []
    requires !Rejected(build, Unrefreshed(request.endpoints, disk), Asked(disk, request), id)
    requires var d := Replay.SpecsOf(Asked(disk, request), id)[0]; UpToDate(s, id, d, build(d).value)
    ensures var (s', reply) := Reconcile(s, env, build, disk, request);
            && reply.Answer? && For(reply.response.results, id) == OnePer(id, Action.Unchanged, None, tcp, udp)
            && StillListening(s, s', id, Tcp, tcp) && StillListening(s, s', id, Udp, udp)
            && Untouched(s.world, s'.world, id) && id in s'.applied && s'.applied[id] == s.applied[id]
  {
    hide Reconcile, Plans, For, Replay.SpecsOf, Diff, Untouched, StillListening;
    var unrefreshed := Unrefreshed(request.endpoints, disk);
    PlanIsExact(s, build, unrefreshed, Asked(disk, request), id);
    DiffIsExact(s, build, unrefreshed, Asked(disk, request), id);
    assert id in Diff(s, build, unrefreshed, Asked(disk, request)).desired;
    hide Rejected;
    var p, q, t, u := TurnOfStaying(s, env, build, disk, request, id);
    tcp, udp := t, u;
  }

  /** An endpoint that cannot be applied, because it is submitted twice, could not be refreshed, does not build, or
      clashes with another: a failure that a retry will not heal, for every protocol that still listens, or for tcp if
      none does; it is not touched; and what was recorded of it stays, if the manager holds it. */
  lemma InvalidIsAnswered(s: State, env: Env, build: Build, disk: Disk, request: Request, id: Id)
    returns (tcp: bool, udp: bool)
    requires Replay.Starts(s, disk, request) && Replay.SpecsOf(Asked(disk, request), id) != []
    requires var unrefreshed, asked := Unrefreshed(request.endpoints, disk), Asked(disk, request);
             || Rejected(build, unrefreshed, asked, id)
             || (&& !UpToDate(s, id, Replay.SpecsOf(asked, id)[0], build(Replay.SpecsOf(asked, id)[0]).value)
                 && Clashes(s, build, unrefreshed, asked, id, build(Replay.SpecsOf(asked, id)[0]).value))
    ensures var (s', reply) := Reconcile(s, env, build, disk, request);
            var specs := Replay.SpecsOf(Asked(disk, request), id);
            && reply.Answer?
            && For(reply.response.results, id) == OnePer(id, Action.Failed, Some(false), tcp || !udp, udp)
            && StillListening(s, s', id, Tcp, tcp) && StillListening(s, s', id, Udp, udp)
            && Untouched(s.world, s'.world, id)
            && if id !in s.world.entries then id !in s'.applied
               else if id in s.applied then id in s'.applied && s'.applied[id] == s.applied[id]
               else
                 && (id in s'.applied <==>
                       id !in Unrefreshed(request.endpoints, disk) && build(specs[0]).Some?)
                 && (id in s'.applied ==> s'.applied[id] == specs[0])
  {
    hide Reconcile, Plans, For, Replay.SpecsOf, Diff, Untouched, StillListening, Clashes, UpToDate;
    var unrefreshed := Unrefreshed(request.endpoints, disk);
    PlanIsExact(s, build, unrefreshed, Asked(disk, request), id);
    DiffIsExact(s, build, unrefreshed, Asked(disk, request), id);
    var p, q, t, u := TurnOfStaying(s, env, build, disk, request, id);
    hide Rejected;
    tcp, udp := t, u;
  }

  /** The repair of a failed move is tried for an endpoint one of whose listeners was stopped ahead of time, that now
      serves nothing, and whose previous description builds. */
  ghost predicate Repairs(s: State, build: Build, plans: map<Id, Plan>, id: Id, w1: World, os: seq<Outcome>) {
    && (exists i :: 0 <= i < |os| && os[i].action == Action.Failed)
    && id in s.applied && StoppedAhead(s.world, plans, id) && build(s.applied[id]).Some?
    && ActiveAt(w1, id, Tcp).None? && ActiveAt(w1, id, Udp).None?
  }

  /** The results of an endpoint that was applied: one for each outcome, in order. A failure is noted as restored
      exactly if the repair was tried, nothing of it failed, and it reported on the same protocol. */
  ghost predicate ResultsFor(results: seq<EndpointResult>, id: Id, os: seq<Outcome>, repaired: bool,
                             back: seq<Outcome>) {
    && |results| == |os|
    && forall i :: 0 <= i < |os| ==>
         && results[i].id == id && results[i].proto == os[i].proto
         && results[i].action == os[i].action && results[i].retryable == os[i].retryable
         && (results[i].restored <==>
               && repaired && os[i].action == Action.Failed
               && (forall j :: 0 <= j < |back| ==> back[j].action != Action.Failed)
               && (exists j :: 0 <= j < |back| && back[j].proto == os[i].proto))
  }

  lemma BindingAnswers(s: State, env: Env, build: Build, generation: Generation, plans: map<Id, Plan>, p: Progress,
                       id: Id, plan: Plan)
    requires id in plans && plans[id] == plan && (plan.Start? || plan.Replace?)
    requires plan.Replace? <==> id in s.applied
    ensures var c := RestoreCandidate(s.world, plans, id);
            var (w1, os) := Apply(p.world, env, id, generation, plan.built);
            var repairs := Repairs(s, build, plans, id, w1, os);
            var (w2, back) :=
              if repairs then Apply(w1, env, id, generation, build(s.applied[id]).value) else (w1, []);
            var q := ApplyPlan(s, env, build, generation, c, p, id, plan);
            && ResultsFor(Added(s, env, build, generation, c, p, id, plan), id, os, repairs, back)
            && q.world == w2
            && q.desired == if !AnyFailed(os) then p.desired
                            else if !Serving(w2, id) then p.desired - {id}
                            else if id in s.applied then p.desired[id := s.applied[id]]
                            else p.desired
  {
    hide Apply, StoppedAhead, RestoreCandidate;
    CandidateIsExact(s.world, plans, id);
    var (w1, os) := Apply(p.world, env, id, generation, plan.built);
    assert Serving(w1, id) <==> ActiveAt(w1, id, Tcp).Some? || ActiveAt(w1, id, Udp).Some?;
    if Repairs(s, build, plans, id, w1, os) {
      var back := Apply(w1, env, id, generation, build(s.applied[id]).value).1;
      assert AnyFailed(back) <==> exists j :: 0 <= j < |back| && back[j].action == Action.Failed;
    }
  }

  /** An endpoint that is started or replaced. `w` is the world when its turn comes, which the hand-off and other
      endpoints may have changed but not its own: every protocol is reported as its slot came out (`ManagerAnswers`),
      a failed move is repaired if it was stopped ahead of time, and what is recorded is the submitted description if
      nothing failed, what was recorded before if something did and it still listens, and nothing if it does not. */
  lemma BoundIsAnswered(s: State, env: Env, build: Build, disk: Disk, request: Request, id: Id)
    returns (w: World, tcp: seq<Outcome>, udp: seq<Outcome>)
    requires Replay.Starts(s, disk, request) && Replay.SpecsOf(Asked(disk, request), id) != []
    requires !Rejected(build, Unrefreshed(request.endpoints, disk), Asked(disk, request), id)
    requires var d := Replay.SpecsOf(Asked(disk, request), id)[0];
             && !UpToDate(s, id, d, build(d).value)
             && !Clashes(s, build, Unrefreshed(request.endpoints, disk), Asked(disk, request), id, build(d).value)
    ensures var (s', reply) := Reconcile(s, env, build, disk, request);
            var d := Replay.SpecsOf(Asked(disk, request), id)[0];
            var built := build(d).value;
            var plans := Plans(s, build, Unrefreshed(request.endpoints, disk), Asked(disk, request));
            var (w1, os) := Apply(w, env, id, request.generation, built);
            var repairs := Repairs(s, build, plans, id, w1, os);
            var (w2, back) :=
              if repairs then Apply(w1, env, id, request.generation, build(s.applied[id]).value) else (w1, []);
            && reply.Answer? && Untouched(Release(s.world, plans), w, id)
            && AppliedAs(w, env, w1, os, id, request.generation, built, tcp, udp)
            && ResultsFor(For(reply.response.results, id), id, os, repairs, back)
            && Untouched(w2, s'.world, id)
            && if !AnyFailed(os) then id in s'.applied && s'.applied[id] == d
               else if Serving(w2, id) then
                 id in s'.applied && s'.applied[id] == if id in s.applied then s.applied[id] else d
               else id !in s'.applied
  {
    hide Reconcile, Plans, For, Replay.SpecsOf, Diff, Untouched, Clashes, UpToDate, Release, Apply, Ages,
         RestoreCandidate, Repairs, ResultsFor, AnyFailed, Serving, ProtoReported, Added, ApplyPlan;
    var unrefreshed := Unrefreshed(request.endpoints, disk);
    var plans := Plans(s, build, unrefreshed, Asked(disk, request));
    PlanIsExact(s, build, unrefreshed, Asked(disk, request), id);
    DiffIsExact(s, build, unrefreshed, Asked(disk, request), id);
    assert id in Diff(s, build, unrefreshed, Asked(disk, request)).desired;
    assert (plans[id].Start? || plans[id].Replace?) && (plans[id].Replace? <==> id in s.applied);
    hide Rejected, Drafted;
    var p, q := TurnOf(s, env, build, disk, request, id);
    w := p.world;
    BindingAnswers(s, env, build, request.generation, plans, p, id, plans[id]);
    tcp, udp := ApplyReports(p.world, env, id, request.generation, plans[id].built);
  }

  /** What `apply` made of both protocols, as its outcomes say. */
  ghost predicate AppliedAs(w: World, env: Env, w1: World, os: seq<Outcome>, id: Id, generation: Generation, spec: Spec,
                            tcp: seq<Outcome>, udp: seq<Outcome>) {
    var before, onUpdate := Refresh(w, env), ManagerRuns.DeadlinesOf(spec, w.policy).onUpdate;
    if !spec.tcp && !spec.udp then os == [Outcome(Tcp, Action.Failed, Some(false))] && w1 == before
    else
      && os == tcp + udp
      && ProtoReported(SlotAt(before, id, Tcp), SlotAt(w1, id, Tcp), tcp, generation, spec, Tcp, onUpdate)
      && ProtoReported(SlotAt(before, id, Udp), SlotAt(w1, id, Udp), udp, generation, spec, Udp, onUpdate)
  }

  /** Nothing is answered for, and nothing recorded of, an id that is neither held nor submitted. */
  lemma NobodyElseIsAnswered(s: State, env: Env, build: Build, disk: Disk, request: Request, id: Id)
    requires Replay.Starts(s, disk, request)
    requires id !in s.world.entries && Replay.SpecsOf(request.endpoints, id) == []
    ensures var (s', reply) := Reconcile(s, env, build, disk, request);
            reply.Answer? && For(reply.response.results, id) == [] && id !in s'.applied && id !in s'.world.entries
  {
    hide Reconcile, Plans, Release, For, Replay.SpecsOf, RestoreCandidate, Diff, ApplyPlans, Untouched, Ages;
    var unrefreshed := Unrefreshed(request.endpoints, disk);
    Refusals.StartIsRecorded(s, env, build, disk, request);
    AskedIsSubmitted(request.endpoints, disk, id);
    PlanIsExact(s, build, unrefreshed, Asked(disk, request), id);
    DiffIsExact(s, build, unrefreshed, Asked(disk, request), id);
    var plans := Plans(s, build, unrefreshed, Asked(disk, request));
    var ids, p0 := SortedKeys(plans.Keys), Opening(s, build, Asked(disk, request), unrefreshed);
    NoResults();
    PlansAdd(s, env, build, request.generation, s.world, plans, p0, ids, id);
    DesiredElsewhere(s, env, build, request.generation, s.world, plans, p0, ids, id);
    ApplyPlansElsewhere(s, env, build, request.generation, s.world, plans, p0, ids, id);
    HeldStill(p0.world, ApplyPlans(s, env, build, request.generation, s.world, plans, p0, ids).world, id);
    ReleaseKeepsPolicy(s.world, s.world, plans, ids, id);
    ReleaseUnfolds(s.world, plans);
  }

  lemma NoResults()
    ensures forall id: Id :: For([], id) == []
  {
  }

  lemma ReleaseUnfolds(w: World, plans: map<Id, Plan>)
    ensures Release(w, plans) == ReleaseIds(w, w, plans, SortedKeys(plans.Keys))
  {
  }

  // ---------------------------------------------------------------- the order of the answer

  ghost predicate InOrder(results: seq<EndpointResult>) {
    forall i, j :: 0 <= i < j < |results| ==> results[i].id <= results[j].id
  }

  lemma {:induction false} ForAbsent(results: seq<EndpointResult>, id: Id)
    requires forall i :: 0 <= i < |results| ==> results[i].id != id
    ensures For(results, id) == []
  {
    if results != [] {
      ForAbsent(results[..|results| - 1], id);
    }
  }

  lemma {:induction false} PlansInOrder(s: State, env: Env, build: Build, generation: Generation, w0: World,
                                        plans: map<Id, Plan>, p: Progress, ids: seq<Id>)
    requires forall i :: 0 <= i < |ids| ==> ids[i] in plans
    requires forall i, j :: 0 <= i < j < |ids| ==> ids[i] < ids[j]
    requires InOrder(p.results)
    requires forall i, j :: 0 <= i < |p.results| && 0 <= j < |ids| ==> p.results[i].id < ids[j]
    ensures InOrder(ApplyPlans(s, env, build, generation, w0, plans, p, ids).results)
    decreases |ids|
  {
    hide ApplyPlan, RestoreCandidate, For, Added;
    if ids != [] {
      var c := RestoreCandidate(w0, plans, ids[0]);
      var p1 := ApplyPlan(s, env, build, generation, c, p, ids[0], plans[ids[0]]);
      ForAbsent(p.results, ids[0]);
      PlanAdds(s, env, build, generation, c, p, ids[0], plans[ids[0]]);
      PlansInOrder(s, env, build, generation, w0, plans, p1, ids[1..]);
    }
  }

  /** The results of a generation come in the order of the endpoints. */
  lemma AnswersInOrder(s: State, env: Env, build: Build, disk: Disk, request: Request)
    requires Replay.Starts(s, disk, request)
    ensures var reply := Reconcile(s, env, build, disk, request).1;
            reply.Answer? && InOrder(reply.response.results)
  {
    hide Plans, ApplyPlans, Diff, Content, Release;
    var unrefreshed := Unrefreshed(request.endpoints, disk);
    var plans := Plans(s, build, unrefreshed, Asked(disk, request));
    PlansInOrder(s, env, build, request.generation, s.world, plans,
                 Opening(s, build, Asked(disk, request), unrefreshed), SortedKeys(plans.Keys));
  }
}
