/** Desired-state reconciliation (realm_core/src/lifecycle/reconcile.rs), as functions from state to
    state. `Reconciler` in ReconcilerObject.dfy is the object that performs them in place. */
module Reconciliation {
  import opened Lifecycle
  import opened Manager

  /** A submitted description: `config` is what serialization sees, `digest` what it does not. */
  datatype Desc = Desc(config: nat, digest: Option<nat>)

  datatype Desired = Desired(id: Id, spec: Desc)

  datatype Request = Request(generation: Generation, endpoints: seq<Desired>)

  datatype GenerationState = Applied | PartiallyApplied

  datatype EndpointResult = EndpointResult(id: Id, proto: Proto, action: Action, retryable: Option<bool>,
                                           restored: bool)

  datatype Response = Response(generation: Generation, state: GenerationState, results: seq<EndpointResult>)

  datatype Error = Stale(active: Generation) | NotReady

  datatype Reply = Answer(response: Response) | Refusal(error: Error)

  /** Building a description is a function without side effects; it may fail. */
  type Build = Desc -> Option<Spec>

  /** What the material a description names hashes to now; `None` if reading it failed. */
  type Disk = nat -> Option<Option<nat>>

  datatype Plan = Unchanged | Start(built: Spec) | Replace(built: Spec) | Delete | Invalid

  datatype State = State(
    world: World,
    applied: map<Id, Desc>,
    active: Option<Generation>,
    last: Option<Response>,
    lastContent: map<Id, seq<nat>>,
    partial: bool,
    ready: bool)

  // ---------------------------------------------------------------- validation

  function Refreshed(spec: Desc, disk: Disk): Desc {
    match disk(spec.config)
    case Some(digest) => spec.(digest := digest)
    case None => spec
  }

  function RefreshAll(endpoints: seq<Desired>, disk: Disk): (r: seq<Desired>)
    ensures |r| == |endpoints|
  {
    seq(|endpoints|, i requires 0 <= i < |endpoints| => endpoints[i].(spec := Refreshed(endpoints[i].spec, disk)))
  }

  function Unrefreshed(endpoints: seq<Desired>, disk: Disk): set<Id> {
    set i | 0 <= i < |endpoints| && disk(endpoints[i].spec.config).None? :: endpoints[i].id
  }

  /** The serialized submission, sorted by id: every id with its descriptions in submission order.
      Sorting a sequence stably by id and grouping it by id carry the same information. */
  function Content(endpoints: seq<Desired>): map<Id, seq<nat>> {
    if endpoints == [] then map[]
    else
      var c := Content(endpoints[..|endpoints| - 1]);
      var e := endpoints[|endpoints| - 1];
      c[e.id := (if e.id in c then c[e.id] else []) + [e.spec.config]]
  }

  datatype Draft = Draft(desired: map<Id, Desc>, plans: map<Id, Plan>)

  predicate AllRunning(w: World, id: Id, built: Spec) {
    && (built.tcp ==> ActiveAt(w, id, Tcp).Some?)
    && (built.udp ==> ActiveAt(w, id, Udp).Some?)
  }

  function PlanFor(s: State, id: Id, spec: Desc, built: Spec): Plan {
    if id !in s.applied then Start(built)
    else if s.applied[id] == spec && AllRunning(s.world, id, built) then Plan.Unchanged
    else Replace(built)
  }

  function Judge(s: State, build: Build, unrefreshed: set<Id>, d: Draft, e: Desired): Draft {
    if e.id in d.plans then d.(plans := d.plans[e.id := Invalid])
    else if e.id in unrefreshed then d.(plans := d.plans[e.id := Invalid])
    else
      match build(e.spec)
      case None => d.(plans := d.plans[e.id := Invalid])
      case Some(built) => Draft(d.desired[e.id := e.spec], d.plans[e.id := PlanFor(s, e.id, e.spec, built)])
  }

  function Diff(s: State, build: Build, unrefreshed: set<Id>, endpoints: seq<Desired>): Draft {
    if endpoints == [] then Draft(map[], map[])
    else
      Judge(s, build, unrefreshed, Diff(s, build, unrefreshed, endpoints[..|endpoints| - 1]),
            endpoints[|endpoints| - 1])
  }

  // ---------------------------------------------------------------- collisions

  predicate Binds(plan: Plan) {
    plan.Start? || plan.Replace?
  }

  /** The plan is going to listen on `key`. */
  predicate Claims(plan: Plan, key: Key) {
    Binds(plan) && Wants(plan.built, key.proto) && plan.built.endpoint.laddr == key.addr
  }

  /** `id` is left alone and listens on `key`. */
  predicate Incumbent(w: World, plans: map<Id, Plan>, id: Id, key: Key) {
    && id in plans && plans[id] == Plan.Unchanged
    && ActiveEndpoint(w, id, key.proto).Some? && ActiveEndpoint(w, id, key.proto).value.laddr == key.addr
  }

  predicate Contested(w: World, plans: map<Id, Plan>, id: Id, key: Key) {
    exists other :: other in plans && other != id && (Claims(plans[other], key) || Incumbent(w, plans, other, key))
  }

  /** `id` is about to bind an address that another endpoint of the generation binds or keeps. */
  predicate CollidesOn(w: World, plans: map<Id, Plan>, id: Id, proto: Proto)
    requires id in plans
  {
    && Binds(plans[id]) && Wants(plans[id].built, proto)
    && Contested(w, plans, id, Key(plans[id].built.endpoint.laddr, proto))
  }

  predicate Collides(w: World, plans: map<Id, Plan>, id: Id)
    requires id in plans
  {
    CollidesOn(w, plans, id, Tcp) || CollidesOn(w, plans, id, Udp)
  }

  function MarkDuplicates(w: World, plans: map<Id, Plan>): map<Id, Plan> {
    map id | id in plans :: if Collides(w, plans, id) then Invalid else plans[id]
  }

  function WithDeletions(w: World, plans: map<Id, Plan>): map<Id, Plan> {
    map id | id in plans.Keys + w.entries.Keys :: if id in plans then plans[id] else Delete
  }

  // ---------------------------------------------------------------- address hand-off

  /** `id` will bind `key` and does not listen on it already. */
  predicate Wanting(w: World, plan: Plan, id: Id, key: Key) {
    && Claims(plan, key)
    && (ActiveEndpoint(w, id, key.proto).Some? ==> ActiveEndpoint(w, id, key.proto).value.laddr != key.addr)
  }

  predicate IsWanted(w: World, plans: map<Id, Plan>, key: Key) {
    exists id :: id in plans && Wanting(w, plans[id], id, key)
  }

  predicate Drops(w: World, built: Spec, id: Id, proto: Proto) {
    match ActiveEndpoint(w, id, proto)
    case None => false
    case Some(e) => e.laddr != built.endpoint.laddr || !Wants(built, proto)
  }

  /** `id` gives at least one of its addresses up in this generation. */
  predicate Leaving(w: World, plan: Plan, id: Id) {
    match plan
    case Delete => true
    case Replace(built) => Drops(w, built, id, Tcp) || Drops(w, built, id, Udp)
    case _ => false
  }

  /** The listener of `(id, proto)` is stopped ahead of time, because its address is wanted. */
  predicate Released(w: World, plans: map<Id, Plan>, id: Id, proto: Proto) {
    && id in plans && Leaving(w, plans[id], id)
    && ActiveEndpoint(w, id, proto).Some?
    && IsWanted(w, plans, Key(ActiveEndpoint(w, id, proto).value.laddr, proto))
  }

  function DefaultPolicy(): DrainPolicy {
    DrainPolicy(None, Some(30))
  }

  /** A deletion keeps its force-close deadline, a replacement drains under the update policy. */
  function ReleaseDeadline(w: World, plan: Plan, id: Id): Deadline {
    var policy := if id in w.entries then w.entries[id].drain else DefaultPolicy();
    if plan == Delete then policy.onDelete else policy.onUpdate
  }

  function ReleaseProto(w: World, w0: World, plans: map<Id, Plan>, id: Id, proto: Proto): World {
    if Released(w0, plans, id, proto) then StopAccept(w, id, proto, ReleaseDeadline(w, plans[id], id)) else w
  }

  ghost predicate Stays(plan: Plan) {
    plan == Plan.Unchanged || plan == Invalid
  }

  /** The hand-off never touches an endpoint that stays as it is. */
  lemma NeverReleased(w: World, plans: map<Id, Plan>, id: Id, proto: Proto)
    requires id in plans ==> Stays(plans[id])
    ensures !Released(w, plans, id, proto)
  {
  }

  function ReleaseIds(w: World, w0: World, plans: map<Id, Plan>, ids: seq<Id>): World
    decreases |ids|
  {
    if ids == [] then w
    else ReleaseIds(ReleaseProto(ReleaseProto(w, w0, plans, ids[0], Tcp), w0, plans, ids[0], Udp), w0, plans, ids[1..])
  }

  function Release(w: World, plans: map<Id, Plan>): World {
    ReleaseIds(w, w, plans, SortedKeys(plans.Keys))
  }

  /** Endpoints to bring back if their own move fails: replaced, and stopped ahead of time. */
  predicate RestoreCandidate(w: World, plans: map<Id, Plan>, id: Id) {
    id in plans && plans[id].Replace? && (Released(w, plans, id, Tcp) || Released(w, plans, id, Udp))
  }

  // ---------------------------------------------------------------- application

  datatype Progress = Progress(world: World, desired: map<Id, Desc>, results: seq<EndpointResult>)

  function ProtosOf(w: World, id: Id): seq<Proto> {
    (if ActiveAt(w, id, Tcp).Some? then [Tcp] else []) + (if ActiveAt(w, id, Udp).Some? then [Udp] else [])
  }

  function Report(id: Id, protos: seq<Proto>, action: Action, retryable: Option<bool>): seq<EndpointResult> {
    seq(|protos|, i requires 0 <= i < |protos| => EndpointResult(id, protos[i], action, retryable, false))
  }

  function IntoResults(id: Id, outcomes: seq<Outcome>): (r: seq<EndpointResult>)
    ensures |r| == |outcomes|
  {
    seq(|outcomes|, i requires 0 <= i < |outcomes| =>
      EndpointResult(id, outcomes[i].proto, outcomes[i].action, outcomes[i].retryable, false))
  }

  predicate AnyFailed(outcomes: seq<Outcome>) {
    exists i :: 0 <= i < |outcomes| && outcomes[i].action == Action.Failed
  }

  predicate AnyResultFailed(results: seq<EndpointResult>) {
    exists i :: 0 <= i < |results| && results[i].action == Action.Failed
  }

  /** Notes on the failures of `id` that the previous listener is back. */
  function NoteRestored(results: seq<EndpointResult>, id: Id, outcomes: seq<Outcome>): (r: seq<EndpointResult>)
    ensures |r| == |results|
    ensures forall i :: 0 <= i < |r| ==> r[i].action == results[i].action && r[i].id == results[i].id
  {
    seq(|results|, i requires 0 <= i < |results| =>
      if && results[i].id == id && results[i].action == Action.Failed
         && exists j :: 0 <= j < |outcomes| && outcomes[j].proto == results[i].proto
      then results[i].(restored := true) else results[i])
  }

  /** Puts a released endpoint back on its previous description after its move failed. */
  function RestoreReleased(w: World, env: Env, build: Build, id: Id, generation: Generation, previous: Option<Desc>,
                           results: seq<EndpointResult>): (World, seq<EndpointResult>)
  {
    match previous
    case None => (w, results)
    case Some(prev) =>
      match build(prev)
      case None => (w, results)
      case Some(built) =>
        var (w1, outcomes) := Apply(w, env, id, generation, built);
        (w1, if AnyFailed(outcomes) then results else NoteRestored(results, id, outcomes))
  }

  function Lookup(m: map<Id, Desc>, id: Id): Option<Desc> {
    if id in m then Some(m[id]) else None
  }

  /** One `Start` or `Replace`: apply it, and on failure repair the hand-off and what counts as applied. */
  function ApplyBinding(s: State, env: Env, build: Build, generation: Generation, candidate: bool, p: Progress,
                        id: Id, built: Spec)
    : Progress
  {
    var previous := Lookup(s.applied, id);
    var (w1, outcomes) := Apply(p.world, env, id, generation, built);
    var results := p.results + IntoResults(id, outcomes);
    if !AnyFailed(outcomes) then Progress(w1, p.desired, results)
    else
      var (w2, results2) :=
        if candidate && !Serving(w1, id) then RestoreReleased(w1, env, build, id, generation, previous, results)
        else (w1, results);
      var desired :=
        if Serving(w2, id) then (if previous.Some? then p.desired[id := previous.value] else p.desired)
        else p.desired - {id};
      Progress(w2, desired, results2)
  }

  function ApplyPlan(s: State, env: Env, build: Build, generation: Generation, candidate: bool, p: Progress, id: Id,
                     plan: Plan)
    : Progress
  {
    match plan
    case Unchanged => p.(results := p.results + Report(id, ProtosOf(p.world, id), Action.Unchanged, None))
    case Invalid =>
      var protos := ProtosOf(p.world, id);
      Progress(
        p.world,
        if id !in p.world.entries then p.desired - {id}
        else if id in s.applied then p.desired[id := s.applied[id]]
        else p.desired,
        p.results + Report(id, if protos == [] then [Tcp] else protos, Action.Failed, Some(false)))
    case Start(built) => ApplyBinding(s, env, build, generation, candidate, p, id, built)
    case Replace(built) => ApplyBinding(s, env, build, generation, candidate, p, id, built)
    case Delete =>
      var (w1, outcomes) := Remove(p.world, env, id);
      Progress(w1, p.desired - {id}, p.results + IntoResults(id, outcomes))
  }

  /** Applies the plans of `ids` in order. `w0` is the world the hand-off was planned in. */
  function ApplyPlans(s: State, env: Env, build: Build, generation: Generation, w0: World, plans: map<Id, Plan>,
                      p: Progress, ids: seq<Id>)
    : Progress
    requires forall i :: 0 <= i < |ids| ==> ids[i] in plans
    decreases |ids|
  {
    if ids == [] then p
    else
      ApplyPlans(s, env, build, generation, w0, plans,
                 ApplyPlan(s, env, build, generation, RestoreCandidate(w0, plans, ids[0]), p, ids[0], plans[ids[0]]),
                 ids[1..])
  }

  function Plans(s: State, build: Build, unrefreshed: set<Id>, endpoints: seq<Desired>): map<Id, Plan> {
    WithDeletions(s.world, MarkDuplicates(s.world, Diff(s, build, unrefreshed, endpoints).plans))
  }

  function ApplyGeneration(s: State, env: Env, build: Build, generation: Generation, endpoints: seq<Desired>,
                           unrefreshed: set<Id>)
    : Progress
  {
    var plans := Plans(s, build, unrefreshed, endpoints);
    var p := Progress(Release(s.world, plans), Diff(s, build, unrefreshed, endpoints).desired, []);
    ApplyPlans(s, env, build, generation, s.world, plans, p, SortedKeys(plans.Keys))
  }

  // ---------------------------------------------------------------- submissions

  /** An endpoint of the submission whose description is the applied one except for its digest. */
  predicate MaterialDrifted(s: State, endpoints: seq<Desired>) {
    exists i :: 0 <= i < |endpoints| && endpoints[i].id in s.applied
      && s.applied[endpoints[i].id] != endpoints[i].spec
      && s.applied[endpoints[i].id].config == endpoints[i].spec.config
  }

  function Reconcile(s: State, env: Env, build: Build, disk: Disk, request: Request): (State, Reply) {
    var generation := request.generation;
    if !s.ready then (s, Refusal(NotReady))
    else if s.active.Some? && generation < s.active.value then (s, Refusal(Stale(s.active.value)))
    else
      var content := Content(request.endpoints);
      var endpoints := RefreshAll(request.endpoints, disk);
      var unrefreshed := Unrefreshed(request.endpoints, disk);
      if s.active == Some(generation) && unrefreshed == {} && s.last.Some? then
        if s.lastContent != content || MaterialDrifted(s, endpoints) then (s, Refusal(Stale(generation)))
        else (s, Answer(s.last.value))
      else
        var p := ApplyGeneration(s, env, build, generation, endpoints, unrefreshed);
        var partial := AnyResultFailed(p.results);
        var response := Response(generation, if partial then PartiallyApplied else Applied, p.results);
        (State(p.world, p.desired, Some(generation), Some(response), content, partial, s.ready), Answer(response))
  }

  // ---------------------------------------------------------------- snapshot and restore

  /** What the snapshot file records: descriptions as serialization sees them. */
  datatype Snapshot = Snapshot(generation: Generation, partial: bool, endpoints: map<Id, nat>)

  function SnapshotOf(s: State): Snapshot {
    Snapshot(if s.active.Some? then s.active.value else 0, s.partial, map id | id in s.applied :: s.applied[id].config)
  }

  datatype Restoring = Restoring(world: World, applied: map<Id, Desc>, failed: set<Id>)

  /** Restores one endpoint: refresh, build, apply. One that cannot come back is only counted. */
  function RestoreOne(r: Restoring, env: Env, build: Build, disk: Disk, generation: Generation, id: Id,
                      config: nat): Restoring {
    match disk(config)
    case None => r.(failed := r.failed + {id})
    case Some(digest) =>
      var spec := Desc(config, digest);
      match build(spec)
      case None => r.(failed := r.failed + {id})
      case Some(built) =>
        var (w1, outcomes) := Apply(r.world, env, id, generation, built);
        if AnyFailed(outcomes) then Restoring(w1, r.applied, r.failed + {id})
        else Restoring(w1, r.applied[id := spec], r.failed)
  }

  function RestoreIds(r: Restoring, env: Env, build: Build, disk: Disk, snapshot: Snapshot, ids: seq<Id>): Restoring
    requires forall i :: 0 <= i < |ids| ==> ids[i] in snapshot.endpoints
    decreases |ids|
  {
    if ids == [] then r
    else RestoreIds(RestoreOne(r, env, build, disk, snapshot.generation, ids[0], snapshot.endpoints[ids[0]]),
                    env, build, disk, snapshot, ids[1..])
  }

  /** A restarted process, not ready yet. */
  function Restarted(policy: DrainPolicy): State {
    State(Empty(policy), map[], None, None, map[], false, false)
  }

  /** Brings the last-known-good state back; afterwards the process is ready. */
  function Restore(s: State, env: Env, build: Build, disk: Disk, snapshot: Snapshot): State {
    var r := RestoreIds(Restoring(s.world, s.applied, {}), env, build, disk, snapshot,
                        SortedKeys(snapshot.endpoints.Keys));
    s.(world := r.world, applied := r.applied, active := Some(snapshot.generation),
       partial := snapshot.partial || r.failed != {}, ready := true)
  }
}
