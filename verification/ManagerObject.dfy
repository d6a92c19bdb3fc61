/** The endpoint manager as the program has it: an object that updates its table of entries in place,
    one slot at a time. Every method is proved to perform the step of `Manager` it stands for. */
module ManagerObject {
  import opened Lifecycle
  import opened Manager
  import CD = CohortDrain

  class EndpointManager {
    var entries: map<Id, Entry>
    var policy: DrainPolicy
    /** the operating system, as far as the manager can tell */
    var host: Host
    /** what happens outside, tick by tick */
    const env: Env

    function Value(): World
      reads this
    {
      World(entries, policy, host)
    }

    constructor (policy: DrainPolicy, env: Env)
      ensures Value() == Empty(policy) && this.env == env
    {
      this.entries, this.policy, this.host, this.env := map[], policy, NO_HOST, env;
    }

    // -------------------------------------------------------------- listeners

    /** Binds and starts serving; the listener is the caller's to place. */
    method StartEndpoint(id: Id, proto: Proto, endpoint: Endpoint, generation: Generation) returns (a: Option<Active>)
      modifies this`host
      ensures (Value(), a) == Launch(old(Value()), env, id, proto, endpoint, generation)
    {
      var weather := env(host.tick);
      host := Advance(host, weather);
      var key := Key(endpoint.laddr, proto);
      if key in host.bound || key in weather.foreign || weather.refuse {
        return None;
      }
      var c := |host.starts|;
      host := host.(starts := host.starts + [Birth(id, proto, endpoint, generation)], bound := host.bound[key := c]);
      host := Log(host, c, CD.MakeHandle(0));
      return Some(Active(generation, endpoint.laddr, c));
    }

    /** Stops accepting and joins the serving task, which gives its socket back. */
    method StopActive(a: Active, proto: Proto)
      modifies this`host
      ensures host == Unbind(old(host), Key(a.laddr, proto), a.cohort)
    {
      var key := Key(a.laddr, proto);
      if key in host.bound && host.bound[key] == a.cohort {
        host := host.(bound := host.bound - {key});
      }
      host := host.(steps := host.steps[a.cohort := LoopEnds(StepsOf(host, a.cohort))]);
    }

    method PutSlot(id: Id, proto: Proto, slot: Slot)
      requires id in entries
      modifies this`entries
      ensures Value() == SetSlot(old(Value()), id, proto, slot)
    {
      entries := entries[id := entries[id].(slots := entries[id].slots[proto := slot])];
    }

    /** Hands a superseded cohort to a background drain, listed in its slot. */
    method PushDrain(id: Id, proto: Proto, drain: Drain)
      requires SlotAt(Value(), id, proto).Some?
      modifies this`entries, this`host
      ensures Value() == SpawnDrain(old(Value()), id, proto, drain)
    {
      var slot := entries[id].slots[proto];
      PutSlot(id, proto, slot.(draining := slot.draining + [drain]));
      host := Log(host.(drains := host.drains + [drain]), drain.cohort, CD.Drain(drain.deadline.Some?));
    }

    /** Takes the listener out of its slot and stops it. */
    method TakeAndStop(id: Id, proto: Proto) returns (a: Active)
      requires ActiveAt(Value(), id, proto).Some?
      modifies this`entries, this`host
      ensures Value() == Halt(old(Value()), id, proto) && Some(a) == old(ActiveAt(Value(), id, proto))
    {
      var slot := entries[id].slots[proto];
      a := slot.active.value;
      PutSlot(id, proto, slot.(active := None));
      StopActive(a, proto);
    }

    // -------------------------------------------------------------- refresh

    /** Drops the drains that have finished. */
    static method Retain(ds: seq<Drain>, finished: set<CohortId>) returns (kept: seq<Drain>)
      ensures kept == Unfinished(ds, finished)
    {
      kept := [];
      var i := 0;
      while i < |ds|
        invariant 0 <= i <= |ds|
        invariant kept + Unfinished(ds[i..], finished) == Unfinished(ds, finished)
      {
        assert ds[i..][0] == ds[i] && ds[i..][1..] == ds[i + 1..];
        if ds[i].cohort !in finished {
          kept := kept + [ds[i]];
        }
        i := i + 1;
      }
    }

    method RefreshOne(id: Id, proto: Proto)
      modifies this`entries, this`host
      ensures Value() == RefreshSlot(old(Value()), id, proto)
    {
      if id in entries && proto in entries[id].slots {
        var slot := entries[id].slots[proto];
        if slot.active.Some? && slot.active.value.cohort in host.exited {
          var deadline := entries[id].drain.onDelete;
          var a := TakeAndStop(id, proto);
          PushDrain(id, proto, Drain(a.cohort, a.generation, deadline));
          PutSlot(id, proto, entries[id].slots[proto].(state := SlotState.Failed));
        }
        slot := entries[id].slots[proto];
        var kept := Retain(slot.draining, host.finished);
        PutSlot(id, proto, slot.(draining := kept));
      }
    }

    /** Catches up with exited listeners and finished drains, slot by slot. */
    method RefreshAll()
      modifies this`entries, this`host
      ensures Value() == Refresh(old(Value()), env)
    {
      host := Advance(host, env(host.tick));
      var ids := SortedKeys(entries.Keys);
      ghost var end := RefreshIds(Value(), ids);
      hide RefreshSlot;
      var i := 0;
      while i < |ids|
        invariant 0 <= i <= |ids|
        invariant policy == old(policy)
        invariant RefreshIds(Value(), ids[i..]) == end
      {
        assert ids[i..][0] == ids[i] && ids[i..][1..] == ids[i + 1..];
        RefreshOne(ids[i], Tcp);
        RefreshOne(ids[i], Udp);
        i := i + 1;
      }
    }

    // -------------------------------------------------------------- one slot

    method Insert(id: Id, proto: Proto, slot: Slot)
      requires id in entries
      modifies this`entries
      ensures Value() == InsertSlot(old(Value()), id, proto, slot)
    {
      if proto in entries[id].slots {
        var existing := entries[id].slots[proto];
        PutSlot(id, proto, slot.(draining := existing.draining + slot.draining));
      } else {
        PutSlot(id, proto, slot);
      }
    }

    method ReplaceListener(id: Id, generation: Generation, spec: Spec, proto: Proto,
                           drain: DrainPolicy) returns (o: Outcome)
      requires ActiveAt(Value(), id, proto).Some?
      modifies this`entries, this`host
      ensures (Value(), o) == ReplaceSlot(old(Value()), env, id, generation, spec, proto, drain)
    {
      var slot := entries[id].slots[proto];
      var prev := TakeAndStop(id, proto);
      if proto == Udp {
        host := Log(host, prev.cohort, CD.Cancel);
      }
      var superseded := Drain(prev.cohort, prev.generation, drain.onUpdate);
      var started := StartEndpoint(id, proto, spec.endpoint, generation);
      if started.Some? {
        var s := entries[id].slots[proto];
        PutSlot(id, proto, s.(state := Running, generation := generation, endpoint := spec.endpoint,
                              material := spec.material, active := started));
        PushDrain(id, proto, superseded);
        o := Ok(proto, Updated);
      } else {
        var restored := StartEndpoint(id, proto, slot.endpoint, prev.generation);
        PutSlot(id, proto, entries[id].slots[proto].(active := restored, state := SlotState.Failed));
        PushDrain(id, proto, superseded);
        o := Refused(proto);
      }
    }

    method MoveListener(id: Id, generation: Generation, spec: Spec, proto: Proto,
                        drain: DrainPolicy) returns (o: Outcome)
      requires ActiveAt(Value(), id, proto).Some?
      modifies this`entries, this`host
      ensures (Value(), o) == MoveSlot(old(Value()), env, id, generation, spec, proto, drain)
    {
      var started := StartEndpoint(id, proto, spec.endpoint, generation);
      if started.Some? {
        var prev := TakeAndStop(id, proto);
        var s := entries[id].slots[proto];
        PutSlot(id, proto, s.(state := Running, generation := generation, endpoint := spec.endpoint,
                              material := spec.material, active := started));
        PushDrain(id, proto, Drain(prev.cohort, prev.generation, drain.onUpdate));
        o := Ok(proto, Updated);
      } else {
        PutSlot(id, proto, entries[id].slots[proto].(state := SlotState.Failed));
        o := Refused(proto);
      }
    }

    /** Brings one protocol of `id` to the spec. */
    method ApplyOne(id: Id, generation: Generation, spec: Spec, proto: Proto, drain: DrainPolicy) returns (o: Outcome)
      requires id in entries
      modifies this`entries, this`host
      ensures (Value(), o) == ApplySlot(old(Value()), env, id, generation, spec, proto, drain)
    {
      hide Launch, ReplaceSlot, MoveSlot, InsertSlot;
      if AlreadyServes(Value(), id, spec, proto) {
        return Ok(proto, Unchanged);
      }
      var serving := ActiveAt(Value(), id, proto);
      if serving.None? {
        var started := StartEndpoint(id, proto, spec.endpoint, generation);
        if started.Some? {
          Insert(id, proto, Slot(Running, generation, spec.endpoint, spec.material, started, []));
          o := Ok(proto, Created);
        } else {
          Insert(id, proto, Slot(SlotState.Failed, generation, spec.endpoint, spec.material, None, []));
          o := Refused(proto);
        }
      } else if serving.value.laddr == spec.endpoint.laddr {
        o := ReplaceListener(id, generation, spec, proto, drain);
      } else {
        o := MoveListener(id, generation, spec, proto, drain);
      }
    }

    method StopOne(id: Id, proto: Proto, deadline: Deadline) returns (o: Outcome)
      modifies this`entries, this`host
      ensures (Value(), o) == StopSlot(old(Value()), id, proto, deadline)
    {
      if SlotAt(Value(), id, proto).None? {
        return Ok(proto, Unchanged);
      }
      if ActiveAt(Value(), id, proto).Some? {
        var a := TakeAndStop(id, proto);
        PushDrain(id, proto, Drain(a.cohort, a.generation, deadline));
      }
      entries := entries[id := entries[id].(slots := entries[id].slots - {proto})];
      o := Ok(proto, Deleted);
    }

    // -------------------------------------------------------------- one endpoint

    method PruneOne(id: Id)
      modifies this`entries
      ensures Value() == Prune(old(Value()), id)
    {
      if id in entries {
        var e := entries[id];
        var kept := map p | p in e.slots && KeepsSlot(e.slots[p]) :: e.slots[p];
        if kept == map[] {
          entries := entries - {id};
        } else {
          entries := entries[id := e.(slots := kept)];
        }
      }
    }

    method ApplyWanted(id: Id, generation: Generation, spec: Spec, proto: Proto,
                       drain: DrainPolicy) returns (os: seq<Outcome>)
      requires id in entries
      modifies this`entries, this`host
      ensures (Value(), os) == ApplyProto(old(Value()), env, id, generation, spec, proto, drain)
      ensures id in entries
    {
      hide ApplySlot, StopSlot;
      if Wants(spec, proto) {
        var o := ApplyOne(id, generation, spec, proto, drain);
        os := [o];
      } else if SlotAt(Value(), id, proto).Some? {
        var o := StopOne(id, proto, drain.onDelete);
        os := [o];
      } else {
        os := [];
      }
    }

    /** Brings `id` to the spec, each protocol on its own. */
    method ApplyEndpoint(id: Id, generation: Generation, spec: Spec) returns (os: seq<Outcome>)
      modifies this`entries, this`host
      ensures (Value(), os) == Apply(old(Value()), env, id, generation, spec)
    {
      hide Refresh, ApplyProto, Prune;
      RefreshAll();
      if !spec.tcp && !spec.udp {
        return [Outcome(Tcp, Action.Failed, Some(false))];
      }
      var drain := if spec.drain.Some? then spec.drain.value else policy;
      entries := entries[id := Entry(if id in entries then entries[id].slots else map[], drain)];
      var os1 := ApplyWanted(id, generation, spec, Tcp, drain);
      var os2 := ApplyWanted(id, generation, spec, Udp, drain);
      PruneOne(id);
      os := os1 + os2;
    }

    /** Releases every listener of `id` at once and forgets it. */
    method RemoveEndpoint(id: Id) returns (os: seq<Outcome>)
      modifies this`entries, this`host
      ensures (Value(), os) == Remove(old(Value()), env, id)
    {
      hide Refresh, StopSlot;
      RefreshAll();
      os := [];
      if id in entries {
        var deadline := entries[id].drain.onDelete;
        var os1, os2 := [], [];
        if SlotAt(Value(), id, Tcp).Some? {
          var o := StopOne(id, Tcp, deadline);
          os1 := [o];
        }
        if SlotAt(Value(), id, Udp).Some? {
          var o := StopOne(id, Udp, deadline);
          os2 := [o];
        }
        entries := entries - {id};
        os := os1 + os2;
      }
    }

    /** Stops accepting on one slot without removing it. */
    method StopAccepting(id: Id, proto: Proto, deadline: Deadline)
      modifies this`entries, this`host
      ensures Value() == StopAccept(old(Value()), id, proto, deadline)
    {
      if ActiveAt(Value(), id, proto).Some? {
        var a := TakeAndStop(id, proto);
        PushDrain(id, proto, Drain(a.cohort, a.generation, deadline));
        PutSlot(id, proto, entries[id].slots[proto].(state := SlotState.Draining));
      }
    }
  }
}
