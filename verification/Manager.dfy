/** The endpoint state machine (realm_core/src/lifecycle/manager.rs), as functions from world to
    world. `EndpointManager` in ManagerObject.dfy is the object that performs them in place. */
module Manager {
  import opened Lifecycle

  function Ok(proto: Proto, action: Action): Outcome {
    Outcome(proto, action, None)
  }

  /** A failure the caller may retry. */
  function Refused(proto: Proto): Outcome {
    Outcome(proto, Action.Failed, Some(true))
  }

  // ---------------------------------------------------------------- refresh

  predicate HasExited(w: World, id: Id, proto: Proto) {
    ActiveAt(w, id, proto).Some? && ActiveAt(w, id, proto).value.cohort in w.host.exited
  }

  function Unfinished(ds: seq<Drain>, finished: set<CohortId>): seq<Drain> {
    if ds == [] then []
    else (if ds[0].cohort in finished then [] else [ds[0]]) + Unfinished(ds[1..], finished)
  }

  /** A listener whose task exited goes to a drain under the delete deadline, and its slot fails. */
  function Reap(w: World, id: Id, proto: Proto): World
    requires HasExited(w, id, proto)
  {
    var a := ActiveAt(w, id, proto).value;
    var w1 := SpawnDrain(Halt(w, id, proto), id, proto, Drain(a.cohort, a.generation, w.entries[id].drain.onDelete));
    SetSlot(w1, id, proto, w1.entries[id].slots[proto].(state := SlotState.Failed))
  }

  function RefreshSlot(w: World, id: Id, proto: Proto): World {
    if SlotAt(w, id, proto).None? then w
    else
      var w1 := if HasExited(w, id, proto) then Reap(w, id, proto) else w;
      var slot := w1.entries[id].slots[proto];
      SetSlot(w1, id, proto, slot.(draining := Unfinished(slot.draining, w1.host.finished)))
  }

  function RefreshIds(w: World, ids: seq<Id>): World
    decreases |ids|
  {
    if ids == [] then w
    else RefreshIds(RefreshSlot(RefreshSlot(w, ids[0], Tcp), ids[0], Udp), ids[1..])
  }

  /** Catches up with what happened since: exited listeners and finished drains. */
  function Refresh(w: World, env: Env): World {
    var w1 := Elapse(w, env);
    RefreshIds(w1, SortedKeys(w1.entries.Keys))
  }

  // ---------------------------------------------------------------- one slot

  /** `insert_slot`: overwrites what a slot serves, keeping the drains it already lists. */
  function InsertSlot(w: World, id: Id, proto: Proto, slot: Slot): World
    requires id in w.entries
  {
    match SlotAt(w, id, proto)
    case Some(existing) => SetSlot(w, id, proto, slot.(draining := existing.draining + slot.draining))
    case None => SetSlot(w, id, proto, slot)
  }

  /** Nothing serves: bind and serve. A slot whose bind failed stays, marked failed. */
  function StartSlot(w: World, env: Env, id: Id, generation: Generation, spec: Spec, proto: Proto): (World, Outcome)
    requires id in w.entries
  {
    var (w1, started) := Launch(w, env, id, proto, spec.endpoint, generation);
    match started
    case Some(a) =>
      (InsertSlot(w1, id, proto, Slot(Running, generation, spec.endpoint, spec.material, Some(a), [])),
       Ok(proto, Created))
    case None =>
      (InsertSlot(w1, id, proto, Slot(SlotState.Failed, generation, spec.endpoint, spec.material, None, [])),
       Refused(proto))
  }

  /** Puts a started listener into a slot, with everything that describes it. */
  function Install(w: World, id: Id, proto: Proto, a: Active, endpoint: Endpoint, material: Option<nat>): World
    requires SlotAt(w, id, proto).Some?
  {
    SetSlot(w, id, proto, w.entries[id].slots[proto].(
      state := Running, generation := a.generation, endpoint := endpoint, material := material, active := Some(a)))
  }

  /** The address stays: stop and vacate it, rebind, and on failure try to bring the old endpoint back. */
  function ReplaceSlot(w: World, env: Env, id: Id, generation: Generation, spec: Spec, proto: Proto, drain: DrainPolicy)
    : (World, Outcome)
    requires ActiveAt(w, id, proto).Some?
  {
    var slot := w.entries[id].slots[proto];
    var prev := slot.active.value;
    var superseded := Drain(prev.cohort, prev.generation, drain.onUpdate);
    var (w2, started) := Launch(Vacate(w, id, proto), env, id, proto, spec.endpoint, generation);
    match started
    case Some(a) =>
      (SpawnDrain(Install(w2, id, proto, a, spec.endpoint, spec.material), id, proto, superseded),
       Ok(proto, Updated))
    case None => (FallBack(w2, env, id, proto, slot.endpoint, superseded), Refused(proto))
  }

  /** Starts the old endpoint again, if it can be bound, and drains the connections of its stopped listener. */
  function FallBack(w: World, env: Env, id: Id, proto: Proto, endpoint: Endpoint, superseded: Drain): World
    requires SlotAt(w, id, proto).Some?
  {
    var (w1, restored) := Launch(w, env, id, proto, endpoint, superseded.generation);
    var w2 := SetSlot(w1, id, proto, w1.entries[id].slots[proto].(active := restored, state := SlotState.Failed));
    SpawnDrain(w2, id, proto, superseded)
  }

  /** The address changes: bring the new listener up first, so that a failure leaves the old one alone. */
  function MoveSlot(w: World, env: Env, id: Id, generation: Generation, spec: Spec, proto: Proto, drain: DrainPolicy)
    : (World, Outcome)
    requires ActiveAt(w, id, proto).Some?
  {
    var prev := ActiveAt(w, id, proto).value;
    var (w1, started) := Launch(w, env, id, proto, spec.endpoint, generation);
    match started
    case Some(a) =>
      var w2 := Install(Halt(w1, id, proto), id, proto, a, spec.endpoint, spec.material);
      (SpawnDrain(w2, id, proto, Drain(prev.cohort, prev.generation, drain.onUpdate)), Ok(proto, Updated))
    case None =>
      (SetSlot(w1, id, proto, w1.entries[id].slots[proto].(state := SlotState.Failed)), Refused(proto))
  }

  /** The slot already serves what the spec asks for. */
  predicate AlreadyServes(w: World, id: Id, spec: Spec, proto: Proto) {
    && ActiveAt(w, id, proto).Some?
    && w.entries[id].slots[proto].material == spec.material
    && SameShown(w.entries[id].slots[proto].endpoint, spec.endpoint)
  }

  function ApplySlot(w: World, env: Env, id: Id, generation: Generation, spec: Spec, proto: Proto, drain: DrainPolicy)
    : (World, Outcome)
    requires id in w.entries
  {
    if AlreadyServes(w, id, spec, proto) then (w, Ok(proto, Unchanged))
    else
      match ActiveAt(w, id, proto)
      case None => StartSlot(w, env, id, generation, spec, proto)
      case Some(a) =>
        if a.laddr == spec.endpoint.laddr then ReplaceSlot(w, env, id, generation, spec, proto, drain)
        else MoveSlot(w, env, id, generation, spec, proto, drain)
  }

  /** Takes a slot out of its entry. Its drains are detached and finish on their own. */
  function StopSlot(w: World, id: Id, proto: Proto, deadline: Deadline): (World, Outcome) {
    match SlotAt(w, id, proto)
    case None => (w, Ok(proto, Unchanged))
    case Some(slot) =>
      var w1 := match slot.active
        case None => w
        case Some(a) => SpawnDrain(Halt(w, id, proto), id, proto, Drain(a.cohort, a.generation, deadline));
      (DropSlot(w1, id, proto), Ok(proto, Deleted))
  }

  function DropSlot(w: World, id: Id, proto: Proto): World
    requires id in w.entries
  {
    w.(entries := w.entries[id := w.entries[id].(slots := w.entries[id].slots - {proto})])
  }

  // ---------------------------------------------------------------- one endpoint

  predicate KeepsSlot(slot: Slot) {
    slot.active.Some? || slot.draining != [] || slot.state == SlotState.Failed
  }

  function Prune(w: World, id: Id): World {
    if id !in w.entries then w
    else
      var e := w.entries[id];
      var kept := map p | p in e.slots && KeepsSlot(e.slots[p]) :: e.slots[p];
      if kept == map[] then w.(entries := w.entries - {id})
      else w.(entries := w.entries[id := e.(slots := kept)])
  }

  /** One protocol of `apply`: bring it up, or stop it if the rule dropped it. */
  function ApplyProto(w: World, env: Env, id: Id, generation: Generation, spec: Spec, proto: Proto, drain: DrainPolicy)
    : (r: (World, seq<Outcome>))
    requires id in w.entries
    ensures r.0.entries.Keys == w.entries.Keys
  {
    if Wants(spec, proto) then
      var (w1, o) := ApplySlot(w, env, id, generation, spec, proto, drain);
      (w1, [o])
    else if SlotAt(w, id, proto).Some? then
      var (w1, o) := StopSlot(w, id, proto, drain.onDelete);
      (w1, [o])
    else (w, [])
  }

  function PolicyOf(w: World, spec: Spec): DrainPolicy {
    if spec.drain.Some? then spec.drain.value else w.policy
  }

  /** The entry `apply` works on: created if missing, under the policy of the new spec. */
  function Upsert(w: World, id: Id, drain: DrainPolicy): World {
    w.(entries := w.entries[id := Entry(if id in w.entries then w.entries[id].slots else map[], drain)])
  }

  function Apply(w: World, env: Env, id: Id, generation: Generation, spec: Spec): (World, seq<Outcome>) {
    var w1 := Refresh(w, env);
    if !spec.tcp && !spec.udp then (w1, [Outcome(Tcp, Action.Failed, Some(false))])
    else
      var drain := PolicyOf(w, spec);
      var (w2, o2) := ApplyProto(Upsert(w1, id, drain), env, id, generation, spec, Tcp, drain);
      var (w3, o3) := ApplyProto(w2, env, id, generation, spec, Udp, drain);
      (Prune(w3, id), o2 + o3)
  }

  function RemoveProto(w: World, id: Id, proto: Proto, deadline: Deadline): (World, seq<Outcome>) {
    if SlotAt(w, id, proto).Some? then
      var (w1, o) := StopSlot(w, id, proto, deadline);
      (w1, [o])
    else (w, [])
  }

  function Remove(w: World, env: Env, id: Id): (World, seq<Outcome>) {
    var w1 := Refresh(w, env);
    if id !in w1.entries then (w1, [])
    else
      var deadline := w1.entries[id].drain.onDelete;
      var (w2, o2) := RemoveProto(w1, id, Tcp, deadline);
      var (w3, o3) := RemoveProto(w2, id, Udp, deadline);
      (w3.(entries := w3.entries - {id}), o2 + o3)
  }

  /** Stops accepting on one slot without removing it. */
  function StopAccept(w: World, id: Id, proto: Proto, deadline: Deadline): World {
    match ActiveAt(w, id, proto)
    case None => w
    case Some(a) =>
      var w1 := SpawnDrain(Halt(w, id, proto), id, proto, Drain(a.cohort, a.generation, deadline));
      SetSlot(w1, id, proto, w1.entries[id].slots[proto].(state := SlotState.Draining))
  }
}
