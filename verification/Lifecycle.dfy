/** Values of the endpoint lifecycle (realm_core/src/lifecycle/manager.rs) and the host they run on.

    A `World` is the manager's table of endpoints together with the part of the operating system
    the manager depends on: which sockets are bound, which serving tasks have exited, and the
    complete history of started listeners and spawned drain tasks. A cohort is named by its
    position in the history of starts, so "the same listener" means "the same cohort".

    What the environment does between two steps is read from an `Env`, one `Weather` per tick. */
module Lifecycle {
  import CD = CohortDrain

  datatype Option<+T> = None | Some(value: T)

  /** Caller-provided key. Only equality and the key order of the tables matter. */
  type Id = nat
  type Addr = nat
  type Generation = nat
  type CohortId = nat

  /** `None` drains for as long as it takes. */
  type Deadline = Option<nat>

  datatype Proto = Tcp | Udp

  /** A socket address of one protocol, the unit two listeners can collide on. */
  datatype Key = Key(addr: Addr, proto: Proto)

  /** `shown` is everything besides the address that `Display` renders; `weights` and `material`
      (what the transport was built from) are what it does not render. */
  datatype Endpoint = Endpoint(laddr: Addr, shown: nat, weights: nat, material: Option<nat>)

  datatype DrainPolicy = DrainPolicy(onUpdate: Deadline, onDelete: Deadline)

  /** `material` is the digest beside the endpoint, the caller's account of what it was built from. */
  datatype Spec = Spec(endpoint: Endpoint, tcp: bool, udp: bool, drain: Option<DrainPolicy>, material: Option<nat>)

  datatype SlotState = Running | Draining | Failed

  datatype Action = Unchanged | Created | Updated | Draining | Deleted | Failed

  /** What an operation did to one slot; `retryable` is present on a failure only. */
  datatype Outcome = Outcome(proto: Proto, action: Action, retryable: Option<bool>)

  datatype Active = Active(generation: Generation, laddr: Addr, cohort: CohortId)

  datatype Drain = Drain(cohort: CohortId, generation: Generation, deadline: Deadline)

  datatype Slot = Slot(
    state: SlotState,
    generation: Generation,
    endpoint: Endpoint,
    material: Option<nat>,
    active: Option<Active>,
    draining: seq<Drain>)

  datatype Entry = Entry(slots: map<Proto, Slot>, drain: DrainPolicy)

  /** One successful start: whose listener it was, and what it was started from. */
  datatype Birth = Birth(id: Id, proto: Proto, endpoint: Endpoint, generation: Generation)

  /** What happens outside the manager during one tick. */
  datatype Weather = Weather(exits: set<CohortId>, finished: set<CohortId>, foreign: set<Key>, refuse: bool)

  type Env = nat -> Weather

  /** `steps` is the log of every cohort: what was done with its handle, and its draining, as it happened. */
  datatype Host = Host(
    bound: map<Key, CohortId>,
    starts: seq<Birth>,
    drains: seq<Drain>,
    exited: set<CohortId>,
    finished: set<CohortId>,
    steps: map<CohortId, seq<CD.Step>>,
    tick: nat)

  datatype World = World(entries: map<Id, Entry>, policy: DrainPolicy, host: Host)

  const NO_HOST: Host := Host(map[], [], [], {}, {}, map[], 0)

  function Empty(policy: DrainPolicy): World {
    World(map[], policy, NO_HOST)
  }

  // ---------------------------------------------------------------- reading

  predicate Wants(spec: Spec, proto: Proto) {
    match proto case Tcp => spec.tcp case Udp => spec.udp
  }

  function SlotAt(w: World, id: Id, proto: Proto): Option<Slot> {
    if id in w.entries && proto in w.entries[id].slots then Some(w.entries[id].slots[proto]) else None
  }

  function ActiveAt(w: World, id: Id, proto: Proto): Option<Active> {
    if id in w.entries && proto in w.entries[id].slots then w.entries[id].slots[proto].active else None
  }

  /** Endpoint currently serving under `id`, as recorded in its slot. */
  function ActiveEndpoint(w: World, id: Id, proto: Proto): Option<Endpoint> {
    if ActiveAt(w, id, proto).Some? then Some(w.entries[id].slots[proto].endpoint) else None
  }

  predicate Serving(w: World, id: Id) {
    ActiveAt(w, id, Tcp).Some? || ActiveAt(w, id, Udp).Some?
  }

  /** Equality of the rendered endpoints. */
  predicate SameShown(a: Endpoint, b: Endpoint) {
    a.laddr == b.laddr && a.shown == b.shown
  }

  predicate IsDrained(h: Host, c: CohortId) {
    exists i :: 0 <= i < |h.drains| && h.drains[i].cohort == c
  }

  // ---------------------------------------------------------------- primitive steps

  function SetSlot(w: World, id: Id, proto: Proto, slot: Slot): World
    requires id in w.entries
  {
    w.(entries := w.entries[id := w.entries[id].(slots := w.entries[id].slots[proto := slot])])
  }

  function StepsOf(h: Host, c: CohortId): seq<CD.Step> {
    if c in h.steps then h.steps[c] else []
  }

  function Log(h: Host, c: CohortId, step: CD.Step): Host {
    h.(steps := h.steps[c := StepsOf(h, c) + [step]])
  }

  /** The accept loop of a cohort ends, if it has not yet, and the handle it registers with goes with it. */
  function LoopEnds(steps: seq<CD.Step>): seq<CD.Step> {
    if CD.DropHandle(0) in steps then steps else steps + [CD.DropHandle(0)]
  }

  /** One tick of the environment: serving tasks exit and give their sockets back, drains finish. */
  function Advance(h: Host, weather: Weather): Host {
    var exited := h.exited + (set c | c in weather.exits && c < |h.starts|);
    h.(exited := exited,
       finished := h.finished + (set c | c in weather.finished && IsDrained(h, c)),
       bound := (map k | k in h.bound && h.bound[k] !in exited :: h.bound[k]),
       steps := (map c | c in h.steps :: if c in exited then LoopEnds(h.steps[c]) else h.steps[c]),
       tick := h.tick + 1)
  }

  function Elapse(w: World, env: Env): World {
    w.(host := Advance(w.host, env(w.host.tick)))
  }

  /** A bind succeeds unless this process or a foreign one holds the address, or the system refuses. */
  predicate CanBind(h: Host, weather: Weather, key: Key) {
    key !in h.bound && key !in weather.foreign && !weather.refuse
  }

  /** `start_endpoint`: bind, then serve under a fresh cohort. The listener is in the caller's hand,
      not yet in a slot. */
  function Launch(w: World, env: Env, id: Id, proto: Proto, endpoint: Endpoint, generation: Generation)
    : (r: (World, Option<Active>))
    ensures r.0.entries == w.entries && r.0.policy == w.policy
  {
    var h := Advance(w.host, env(w.host.tick));
    var key := Key(endpoint.laddr, proto);
    if CanBind(h, env(w.host.tick), key) then
      var c := |h.starts|;
      (w.(host := Log(h.(starts := h.starts + [Birth(id, proto, endpoint, generation)], bound := h.bound[key := c]),
                      c, CD.MakeHandle(0))),
       Some(Active(generation, endpoint.laddr, c)))
    else
      (w.(host := h), None)
  }

  /** Ends the accept loop of a listener and gives its socket back, if it still holds it. */
  function Unbind(h: Host, key: Key, c: CohortId): Host {
    h.(bound := if key in h.bound && h.bound[key] == c then h.bound - {key} else h.bound,
       steps := h.steps[c := LoopEnds(StepsOf(h, c))])
  }

  /** Takes the listener out of a slot and stops it: afterwards its cohort is in the caller's hand. */
  function Halt(w: World, id: Id, proto: Proto): World
    requires ActiveAt(w, id, proto).Some?
  {
    var slot := w.entries[id].slots[proto];
    var a := slot.active.value;
    SetSlot(w, id, proto, slot.(active := None)).(host := Unbind(w.host, Key(a.laddr, proto), a.cohort))
  }

  /** Stops the listener of a slot so that its address can be bound again: the associations of a udp listener share
      its socket, so they are cancelled. */
  function Vacate(w: World, id: Id, proto: Proto): (r: World)
    requires ActiveAt(w, id, proto).Some?
    ensures var halted := Halt(w, id, proto);
            r == halted.(host := halted.host.(steps := r.host.steps))
  {
    var w1 := Halt(w, id, proto);
    if proto == Udp then w1.(host := Log(w1.host, w.entries[id].slots[proto].active.value.cohort, CD.Cancel)) else w1
  }

  /** Hands a stopped cohort to a drain task, which the slot lists. */
  function SpawnDrain(w: World, id: Id, proto: Proto, drain: Drain): World
    requires SlotAt(w, id, proto).Some?
  {
    var slot := w.entries[id].slots[proto];
    SetSlot(w, id, proto, slot.(draining := slot.draining + [drain])).(
      host := Log(w.host.(drains := w.host.drains + [drain]), drain.cohort, CD.Drain(drain.deadline.Some?)))
  }

  // ---------------------------------------------------------------- keys in table order

  predicate IsLeast(m: nat, s: set<nat>) {
    m in s && forall x :: x in s ==> m <= x
  }

  function Least(s: set<nat>): (m: nat)
    requires s != {}
    ensures IsLeast(m, s)
  {
    LeastExists(s);
    var m :| IsLeast(m, s);
    m
  }

  lemma {:induction false} LeastExists(s: set<nat>)
    requires s != {}
    ensures exists m :: IsLeast(m, s)
  {
    var y :| y in s;
    var t := s - {y};
    assert s == t + {y};
    if t == {} {
      assert IsLeast(y, s);
    } else {
      LeastExists(t);
      var m :| IsLeast(m, t);
      assert IsLeast(if y < m then y else m, s);
    }
  }

  /** The keys of a table, in the order the program visits them. */
  function SortedKeys(s: set<nat>): (keys: seq<nat>)
    ensures forall x :: x in s <==> x in keys
    ensures forall i, j :: 0 <= i < j < |keys| ==> keys[i] < keys[j]
  {
    if s == {} then []
    else
      var m := Least(s);
      var rest := SortedKeys(s - {m});
      assert forall i :: 0 <= i < |rest| ==> rest[i] in s - {m};
      [m] + rest
  }
}
