/** What a submission is answered with: which one is refused and how, which one is answered from what is recorded,
    and which one starts a generation. */
module Refusals {
  import opened Lifecycle
  import opened Manager
  import opened Reconciliation
  import opened Convergence
  import opened Replay
  import opened ReconcileRuns

  /** The generation of the request is active and answered, and every description of it could be refreshed. */
  ghost predicate Repeated(s: State, disk: Disk, request: Request) {
    && s.ready && s.active == Some(request.generation) && s.last.Some?
    && forall i :: 0 <= i < |request.endpoints| ==> disk(request.endpoints[i].spec.config).Some?
  }

  /** An endpoint of the submission has the configuration that is applied, over other material than was applied. */
  ghost predicate Rotated(applied: map<Id, Desc>, endpoints: seq<Desired>, disk: Disk) {
    exists i :: 0 <= i < |endpoints| && endpoints[i].id in applied
      && applied[endpoints[i].id].config == endpoints[i].spec.config
      && disk(endpoints[i].spec.config) != Some(applied[endpoints[i].id].digest)
  }

  lemma RotatedIsDrift(s: State, endpoints: seq<Desired>, disk: Disk)
    requires forall i :: 0 <= i < |endpoints| ==> disk(endpoints[i].spec.config).Some?
    ensures MaterialDrifted(s, RefreshAll(endpoints, disk)) <==> Rotated(s.applied, endpoints, disk)
  {
    var r := RefreshAll(endpoints, disk);
    forall i | 0 <= i < |endpoints|
      ensures r[i].id == endpoints[i].id && r[i].spec.config == endpoints[i].spec.config
      ensures disk(endpoints[i].spec.config) == Some(r[i].spec.digest)
    {
      assert r[i].spec == Refreshed(endpoints[i].spec, disk);
    }
    if Rotated(s.applied, endpoints, disk) {
      var i :| 0 <= i < |endpoints| && endpoints[i].id in s.applied
        && s.applied[endpoints[i].id].config == endpoints[i].spec.config
        && disk(endpoints[i].spec.config) != Some(s.applied[endpoints[i].id].digest);
      assert s.applied[r[i].id] != r[i].spec;
    }
    if MaterialDrifted(s, r) {
      var i :| 0 <= i < |r| && r[i].id in s.applied && s.applied[r[i].id] != r[i].spec
        && s.applied[r[i].id].config == r[i].spec.config;
      assert s.applied[endpoints[i].id].digest != r[i].spec.digest;
    }
  }

  /** Every submission, in every state: one to a process that is not ready is refused, one of an older generation is
      refused with the active one, one of the answered generation is answered as before or refused, and whatever is
      refused or answered as before changes nothing; every other one starts its generation, and is answered with
      Applied exactly if no result of it is a failure. */
  lemma EveryReply(s: State, env: Env, build: Build, disk: Disk, request: Request)
    ensures var (s', reply) := Reconcile(s, env, build, disk, request);
            && (!s.ready ==> reply == Refusal(NotReady) && s' == s)
            && (s.ready && s.active.Some? && request.generation < s.active.value ==>
                  reply == Refusal(Stale(s.active.value)) && s' == s)
            && (Repeated(s, disk, request) ==>
                  && s' == s
                  && (s.lastContent != Content(request.endpoints) || Rotated(s.applied, request.endpoints, disk) ==>
                        reply == Refusal(Stale(request.generation)))
                  && (s.lastContent == Content(request.endpoints) && !Rotated(s.applied, request.endpoints, disk) ==>
                        reply == Answer(s.last.value)))
            && (Starts(s, disk, request) ==> Started(s', reply, request))
            && (!s.ready || (s.active.Some? && request.generation < s.active.value) || Repeated(s, disk, request)
                || Starts(s, disk, request))
  {
    hide ApplyGeneration, Content, AnyResultFailed;
    UnrefreshedExactly(request.endpoints, disk);
    if Repeated(s, disk, request) {
      RotatedIsDrift(s, request.endpoints, disk);
    }
    if Starts(s, disk, request) {
      StartIsRecorded(s, env, build, disk, request);
    }
  }

  /** What a generation that was started leaves in the record. */
  ghost predicate Started(s': State, reply: Reply, request: Request) {
    && reply.Answer? && reply.response.generation == request.generation
    && s'.ready && s'.active == Some(request.generation) && s'.last == Some(reply.response)
    && s'.lastContent == Content(request.endpoints)
    && (reply.response.state == Applied <==>
          forall i :: 0 <= i < |reply.response.results| ==> reply.response.results[i].action != Action.Failed)
    && (s'.partial <==> reply.response.state == PartiallyApplied)
  }

  lemma StartIsRecorded(s: State, env: Env, build: Build, disk: Disk, request: Request)
    requires Starts(s, disk, request)
    ensures var (s', reply) := Reconcile(s, env, build, disk, request); Started(s', reply, request)
    ensures var p := ApplyGeneration(s, env, build, request.generation, RefreshAll(request.endpoints, disk),
                                     Unrefreshed(request.endpoints, disk));
            var (s', reply) := Reconcile(s, env, build, disk, request);
            s'.world == p.world && s'.applied == p.desired && reply.Answer? && reply.response.results == p.results
  {
    hide ApplyGeneration, Content;
  }

  lemma UnrefreshedExactly(endpoints: seq<Desired>, disk: Disk)
    ensures Unrefreshed(endpoints, disk) == {} <==>
              forall i :: 0 <= i < |endpoints| ==> disk(endpoints[i].spec.config).Some?
  {
    if i :| 0 <= i < |endpoints| && disk(endpoints[i].spec.config).None? {
      assert endpoints[i].id in Unrefreshed(endpoints, disk);
    }
  }

  // ---------------------------------------------------------------- two requests of one generation

  /** A generation is started by one request. Any number of status queries, refused submissions and replays later,
      another request of that generation is answered with the first answer if and only if it asks for the same and no
      material of it was replaced; otherwise it is refused. Either way nothing changes. */
  lemma AnswersExactly(s: State, env: Env, build: Build, disk: Disk, request: Request, events: seq<Event>, disk': Disk,
                       again: Request)
    requires Starts(s, disk, request)
    requires forall i :: 0 <= i < |events| ==> StartsNothing(events[i], request.generation)
    requires again.generation == request.generation
    requires forall i :: 0 <= i < |again.endpoints| ==> disk'(again.endpoints[i].spec.config).Some?
    ensures var (s1, reply) := Reconcile(s, env, build, disk, request);
            var s2 := Run(s1, env, build, events);
            var (s3, reply') := Reconcile(s2, env, build, disk', again);
            && s3 == s2
            && if SameRequest(request.endpoints, again.endpoints) && !Rotated(s1.applied, again.endpoints, disk') then
                 reply' == reply
               else reply' == Refusal(Stale(request.generation))
  {
    hide ApplyGeneration, Content, StartsNothing, SameRequest, Rotated, ReconcileRuns.Run;
    EveryReply(s, env, build, disk, request);
    var s1 := Reconcile(s, env, build, disk, request).0;
    SettledRun(s1, env, build, events);
    var s2 := ReconcileRuns.Run(s1, env, build, events);
    hide Reconcile;
    EveryReply(s2, env, build, disk', again);
    ContentDecides(request.endpoints, again.endpoints);
  }

  /** If the generation was applied in full, that is: the same configurations, over the same material. */
  lemma AppliedAnswersExactly(s: State, env: Env, build: Build, disk: Disk, request: Request, events: seq<Event>,
                              disk': Disk, again: Request)
    requires Starts(s, disk, request) && Unrefreshed(request.endpoints, disk) == {}
    requires Reconcile(s, env, build, disk, request).1.response.state == Applied
    requires forall i :: 0 <= i < |events| ==> StartsNothing(events[i], request.generation)
    requires again.generation == request.generation
    requires forall i :: 0 <= i < |again.endpoints| ==> disk'(again.endpoints[i].spec.config).Some?
    ensures var (s1, reply) := Reconcile(s, env, build, disk, request);
            var s2 := Run(s1, env, build, events);
            var (s3, reply') := Reconcile(s2, env, build, disk', again);
            && s3 == s2
            && if && SameRequest(request.endpoints, again.endpoints)
                  && forall i :: 0 <= i < |request.endpoints| ==>
                       disk'(request.endpoints[i].spec.config) == disk(request.endpoints[i].spec.config) then
                 reply' == reply
               else reply' == Refusal(Stale(request.generation))
  {
    hide ApplyGeneration, Content, StartsNothing, SameRequest, Rotated, ReconcileRuns.Run;
    AnswersExactly(s, env, build, disk, request, events, disk', again);
    StartIsRecorded(s, env, build, disk, request);
    hide Reconcile;
    if SameRequest(request.endpoints, again.endpoints) {
      var f := RefreshAll(request.endpoints, disk);
      AppliedInFull(s, env, build, request.generation, f, {});
      RefreshKeepsIds(request.endpoints, disk);
      RotatedExactly(Reconcile(s, env, build, disk, request).0.applied, request.endpoints, disk, again.endpoints,
                     disk');
    }
  }

  lemma RefreshKeepsIds(endpoints: seq<Desired>, disk: Disk)
    requires DistinctIds(RefreshAll(endpoints, disk))
    ensures DistinctIds(endpoints)
  {
    var f := RefreshAll(endpoints, disk);
    forall i, j | 0 <= i < j < |endpoints| ensures endpoints[i].id != endpoints[j].id {
      assert f[i].id != f[j].id;
    }
  }

  /** Over a record of the first request, material of a request that asks for the same was replaced exactly if some
      configuration of the first reads differently now. */
  lemma RotatedExactly(applied: map<Id, Desc>, first: seq<Desired>, disk: Disk, second: seq<Desired>, disk': Disk)
    requires DistinctIds(first) && applied == Submitted(RefreshAll(first, disk)) && Unrefreshed(first, disk) == {}
    requires SameRequest(first, second)
    ensures Rotated(applied, second, disk') <==>
              exists i :: 0 <= i < |first| && disk'(first[i].spec.config) != disk(first[i].spec.config)
  {
    hide Submitted, Unrefreshed;
    if Rotated(applied, second, disk') {
      var i :| 0 <= i < |second| && second[i].id in applied
        && applied[second[i].id].config == second[i].spec.config
        && disk'(second[i].spec.config) != Some(applied[second[i].id].digest);
      RecordedDigest(applied, first, disk, second[i].id);
    }
    if i :| 0 <= i < |first| && disk'(first[i].spec.config) != disk(first[i].spec.config) {
      RecordedAs(applied, first, disk, i);
      AlsoSubmitted(first, second, i);
      var j :| 0 <= j < |second| && second[j].id == first[i].id && second[j].spec.config == first[i].spec.config;
    }
  }

  lemma RecordedAs(applied: map<Id, Desc>, first: seq<Desired>, disk: Disk, i: nat)
    requires DistinctIds(first) && applied == Submitted(RefreshAll(first, disk)) && Unrefreshed(first, disk) == {}
    requires i < |first|
    ensures first[i].id in applied && applied[first[i].id].config == first[i].spec.config
    ensures disk(first[i].spec.config) == Some(applied[first[i].id].digest)
  {
    var f := RefreshAll(first, disk);
    assert DistinctIds(f);
    SubmittedAt(f, i);
    hide Submitted;
    UnrefreshedExactly(first, disk);
    assert f[i].spec == Refreshed(first[i].spec, disk);
  }

  lemma AlsoSubmitted(a: seq<Desired>, b: seq<Desired>, i: nat)
    requires SameRequest(a, b) && i < |a|
    ensures exists j :: 0 <= j < |b| && b[j].id == a[i].id && b[j].spec.config == a[i].spec.config
  {
    var id := a[i].id;
    SpecsAre(a, id, a[i].spec);
    var x, y := SpecsOf(a, id), SpecsOf(b, id);
    assert a[i] == Desired(id, a[i].spec);
    var k :| 0 <= k < |x| && x[k] == a[i].spec;
    hide SpecsOf;
    assert Configs(x) == Configs(y) && Configs(x)[k] == x[k].config;
    SpecsAre(b, id, y[k]);
    var j :| 0 <= j < |b| && b[j] == Desired(id, y[k]);
  }

  /** A request of an answered generation that has an endpoint the first did not have, or misses one it had, or has one
      with another configuration, is refused. */
  lemma DifferentIsRefused(s: State, env: Env, build: Build, disk: Disk, request: Request, events: seq<Event>,
                           disk': Disk, again: Request, e: Desired)
    requires Starts(s, disk, request)
    requires forall i :: 0 <= i < |events| ==> StartsNothing(events[i], request.generation)
    requires again.generation == request.generation
    requires forall i :: 0 <= i < |again.endpoints| ==> disk'(again.endpoints[i].spec.config).Some?
    requires || (e in request.endpoints && Unmatched(again.endpoints, e))
             || (e in again.endpoints && Unmatched(request.endpoints, e))
    ensures var s2 := Run(Reconcile(s, env, build, disk, request).0, env, build, events);
            Reconcile(s2, env, build, disk', again) == (s2, Refusal(Stale(request.generation)))
  {
    hide Reconcile, ReconcileRuns.Run, StartsNothing, Rotated;
    AnswersExactly(s, env, build, disk, request, events, disk', again);
    if SameRequest(request.endpoints, again.endpoints) {
      if e in request.endpoints && Unmatched(again.endpoints, e) {
        var i :| 0 <= i < |request.endpoints| && request.endpoints[i] == e;
        AlsoSubmitted(request.endpoints, again.endpoints, i);
      } else {
        var i :| 0 <= i < |again.endpoints| && again.endpoints[i] == e;
        AlsoSubmitted(again.endpoints, request.endpoints, i);
      }
    }
  }

  /** No endpoint with the id of `e` has its configuration. */
  ghost predicate Unmatched(endpoints: seq<Desired>, e: Desired) {
    forall j :: 0 <= j < |endpoints| && endpoints[j].id == e.id ==> endpoints[j].spec.config != e.spec.config
  }
}
