/** What `apply` and `remove` report: one outcome for every protocol they bring up, fail to bring up or drop, and what
    it says of the slot. */
module ManagerAnswers {
  import opened Lifecycle
  import opened Manager
  import opened ManagerFrame
  import opened ManagerRuns
  import opened ManagerServe

  ghost function ListenerOf(slot: Option<Slot>): Option<Active> {
    if slot.Some? then slot.value.active else None
  }

  ghost function DrainsOf(slot: Option<Slot>): seq<Drain> {
    if slot.Some? then slot.value.draining else []
  }

  /** The slot listens, and serves what the spec renders to over the material of the spec. */
  ghost predicate ServesAlready(slot: Option<Slot>, spec: Spec) {
    && ListenerOf(slot).Some? && slot.value.material == spec.material
    && slot.value.endpoint.laddr == spec.endpoint.laddr && slot.value.endpoint.shown == spec.endpoint.shown
  }

  /** A slot running the spec, started at `generation`. */
  ghost predicate RunsSpec(slot: Slot, generation: Generation, spec: Spec) {
    && slot.state == Running && slot.generation == generation
    && slot.endpoint == spec.endpoint && slot.material == spec.material
    && slot.active.Some? && slot.active.value.generation == generation && slot.active.value.laddr == spec.endpoint.laddr
  }

  /** What the outcome of a protocol the spec asks for says about its slot. `superseded` is what the drains of a
      listener that was stopped are listed under. */
  ghost predicate Reported(before: Option<Slot>, after: Option<Slot>, o: Outcome, generation: Generation, spec: Spec,
                           proto: Proto, onUpdate: Deadline) {
    && o.proto == proto && after.Some?
    && (o.action == Action.Unchanged <==> ServesAlready(before, spec))
    && (o.retryable == if o.action == Action.Failed then Some(true) else None)
    && match o.action
       case Unchanged => after == before
       case Created =>
         && ListenerOf(before).None? && RunsSpec(after.value, generation, spec)
         && after.value.draining == DrainsOf(before)
       case Updated =>
         && ListenerOf(before).Some? && RunsSpec(after.value, generation, spec)
         && after.value.draining == DrainsOf(before) + [Stopped(before, onUpdate)]
       case Failed => FailedSlot(before, after.value, generation, spec, onUpdate)
       case _ => false
  }

  /** The drain of the listener a slot had. */
  ghost function Stopped(slot: Option<Slot>, deadline: Deadline): Drain
    requires ListenerOf(slot).Some?
  {
    Drain(slot.value.active.value.cohort, slot.value.active.value.generation, deadline)
  }

  /** A slot that could not be brought up: marked failed. Without a listener before it has none; one that was to move
      is left where it is; one that had to be stopped first is started again as it was, if that can be. */
  ghost predicate FailedSlot(before: Option<Slot>, after: Slot, generation: Generation, spec: Spec,
                             onUpdate: Deadline) {
    && after.state == SlotState.Failed
    && match ListenerOf(before)
       case None =>
         after == Slot(SlotState.Failed, generation, spec.endpoint, spec.material, None, DrainsOf(before))
       case Some(prev) =>
         if prev.laddr != spec.endpoint.laddr then after == before.value.(state := SlotState.Failed)
         else
           && after == before.value.(state := SlotState.Failed, active := after.active,
                                     draining := DrainsOf(before) + [Stopped(before, onUpdate)])
           && (after.active.Some? ==>
                 after.active.value.generation == prev.generation && after.active.value.laddr == after.endpoint.laddr)
  }

  lemma LaunchReports(w: World, env: Env, id: Id, proto: Proto, endpoint: Endpoint, generation: Generation)
    ensures var (w', a) := Launch(w, env, id, proto, endpoint, generation);
            && w'.entries == w.entries
            && (a.Some? ==> a.value.laddr == endpoint.laddr && a.value.generation == generation)
  {
  }

  lemma StartReports(w: World, env: Env, id: Id, generation: Generation, spec: Spec, proto: Proto, onUpdate: Deadline)
    requires id in w.entries && ActiveAt(w, id, proto).None?
    ensures var (w', o) := StartSlot(w, env, id, generation, spec, proto);
            Reported(SlotAt(w, id, proto), SlotAt(w', id, proto), o, generation, spec, proto, onUpdate)
  {
    LaunchReports(w, env, id, proto, spec.endpoint, generation);
    hide Launch;
    assert DrainsOf(SlotAt(w, id, proto)) + [] == DrainsOf(SlotAt(w, id, proto));
  }

  lemma ReplaceReports(w: World, env: Env, id: Id, generation: Generation, spec: Spec, proto: Proto, drain: DrainPolicy)
    requires ActiveAt(w, id, proto).Some? && !ServesAlready(SlotAt(w, id, proto), spec)
    requires ActiveAt(w, id, proto).value.laddr == spec.endpoint.laddr
    ensures var (w', o) := ReplaceSlot(w, env, id, generation, spec, proto, drain);
            Reported(SlotAt(w, id, proto), SlotAt(w', id, proto), o, generation, spec, proto, drain.onUpdate)
  {
    ReplacedSlot(w, env, id, generation, spec, proto, drain);
    hide ReplaceSlot;
  }

  lemma MoveReports(w: World, env: Env, id: Id, generation: Generation, spec: Spec, proto: Proto, drain: DrainPolicy)
    requires ActiveAt(w, id, proto).Some? && !ServesAlready(SlotAt(w, id, proto), spec)
    requires ActiveAt(w, id, proto).value.laddr != spec.endpoint.laddr
    ensures var (w', o) := MoveSlot(w, env, id, generation, spec, proto, drain);
            Reported(SlotAt(w, id, proto), SlotAt(w', id, proto), o, generation, spec, proto, drain.onUpdate)
  {
    LaunchReports(w, env, id, proto, spec.endpoint, generation);
    hide Launch, ServesAlready, Unbind, Log;
  }

  lemma SlotReports(w: World, env: Env, id: Id, generation: Generation, spec: Spec, proto: Proto, drain: DrainPolicy)
    requires id in w.entries
    ensures var (w', o) := ApplySlot(w, env, id, generation, spec, proto, drain);
            Reported(SlotAt(w, id, proto), SlotAt(w', id, proto), o, generation, spec, proto, drain.onUpdate)
  {
    hide StartSlot, ReplaceSlot, MoveSlot;
    if !AlreadyServes(w, id, spec, proto) {
      match ActiveAt(w, id, proto) {
        case None => StartReports(w, env, id, generation, spec, proto, drain.onUpdate);
        case Some(a) =>
          if a.laddr == spec.endpoint.laddr {
            ReplaceReports(w, env, id, generation, spec, proto, drain);
          } else {
            MoveReports(w, env, id, generation, spec, proto, drain);
          }
      }
    }
  }

  /** What `apply` reports of one protocol: an outcome if the spec asks for it; that it was deleted, if the spec does
      not and there was a slot; nothing otherwise. */
  ghost predicate ProtoReported(before: Option<Slot>, after: Option<Slot>, os: seq<Outcome>, generation: Generation,
                                spec: Spec, proto: Proto, onUpdate: Deadline) {
    if Wants(spec, proto) then |os| == 1 && Reported(before, after, os[0], generation, spec, proto, onUpdate)
    else os == (if before.Some? then [Outcome(proto, Deleted, None)] else []) && after.None?
  }

  lemma ProtoReports(w: World, env: Env, id: Id, generation: Generation, spec: Spec, proto: Proto, drain: DrainPolicy)
    requires id in w.entries
    ensures var (w', os) := ApplyProto(w, env, id, generation, spec, proto, drain);
            ProtoReported(SlotAt(w, id, proto), SlotAt(w', id, proto), os, generation, spec, proto, drain.onUpdate)
  {
    hide ApplySlot, Reported;
    if Wants(spec, proto) {
      SlotReports(w, env, id, generation, spec, proto, drain);
    } else if SlotAt(w, id, proto).Some? {
      StopReports(w, id, proto, drain.onDelete);
    }
  }

  lemma StopReports(w: World, id: Id, proto: Proto, deadline: Deadline)
    requires SlotAt(w, id, proto).Some?
    ensures var (w', o) := StopSlot(w, id, proto, deadline);
            o == Outcome(proto, Deleted, None) && SlotAt(w', id, proto).None?
  {
    StopSlotHost(w, id, proto, deadline);
  }

  lemma PruneReports(w: World, id: Id, before: Option<Slot>, os: seq<Outcome>, generation: Generation, spec: Spec,
                     proto: Proto, onUpdate: Deadline)
    requires ProtoReported(before, SlotAt(w, id, proto), os, generation, spec, proto, onUpdate)
    ensures ProtoReported(before, SlotAt(Prune(w, id), id, proto), os, generation, spec, proto, onUpdate)
  {
    PruneIsExact(w, id, proto);
  }

  /** A slot stays while it listens, drains or is marked failed. */
  ghost predicate Lasting(slot: Slot) {
    slot.active.Some? || slot.draining != [] || slot.state == SlotState.Failed
  }

  /** Pruning is exact: exactly the lasting slots stay, and the endpoint stays exactly if one does. */
  lemma PruneIsExact(w: World, id: Id, proto: Proto)
    ensures SlotAt(Prune(w, id), id, proto)
         == if SlotAt(w, id, proto).Some? && Lasting(SlotAt(w, id, proto).value) then SlotAt(w, id, proto) else None
    ensures id in Prune(w, id).entries <==>
              exists p :: SlotAt(w, id, p).Some? && Lasting(SlotAt(w, id, p).value)
  {
    if id in w.entries {
      var e := w.entries[id];
      var kept := map p | p in e.slots && KeepsSlot(e.slots[p]) :: e.slots[p];
      assert forall p :: p in kept <==> SlotAt(w, id, p).Some? && Lasting(SlotAt(w, id, p).value);
      if kept != map[] {
        var p :| p in kept;
        assert SlotAt(w, id, p).Some?;
      }
    }
  }

  /** The answer of `apply`, and what it means: a spec that asks for no protocol is rejected for good, and nothing but
      the refresh happens; otherwise tcp is reported first and then udp, each as its slot came out. */
  lemma ApplyReports(w: World, env: Env, id: Id, generation: Generation, spec: Spec)
    returns (tcp: seq<Outcome>, udp: seq<Outcome>)
    ensures var (w', os) := Apply(w, env, id, generation, spec);
            var w1 := Refresh(w, env);
            var onUpdate := DeadlinesOf(spec, w.policy).onUpdate;
            if !spec.tcp && !spec.udp then os == [Outcome(Tcp, Action.Failed, Some(false))] && w' == w1
            else
              && os == tcp + udp
              && ProtoReported(SlotAt(w1, id, Tcp), SlotAt(w', id, Tcp), tcp, generation, spec, Tcp, onUpdate)
              && ProtoReported(SlotAt(w1, id, Udp), SlotAt(w', id, Udp), udp, generation, spec, Udp, onUpdate)
  {
    hide Refresh, ApplyProto, Prune, ProtoReported;
    tcp, udp := [], [];
    if spec.tcp || spec.udp {
      var w1 := Refresh(w, env);
      var drain := PolicyOf(w, spec);
      var w2 := Upsert(w1, id, drain);
      assert forall p :: SlotAt(w2, id, p) == SlotAt(w1, id, p);
      ProtoReports(w2, env, id, generation, spec, Tcp, drain);
      ApplyProtoFrame(w2, env, id, generation, spec, Tcp, drain);
      var (w3, o3) := ApplyProto(w2, env, id, generation, spec, Tcp, drain);
      ProtoReports(w3, env, id, generation, spec, Udp, drain);
      ApplyProtoFrame(w3, env, id, generation, spec, Udp, drain);
      var (w4, o4) := ApplyProto(w3, env, id, generation, spec, Udp, drain);
      tcp, udp := o3, o4;
      assert SlotAt(w3, id, Udp) == SlotAt(w2, id, Udp) && SlotAt(w4, id, Tcp) == SlotAt(w3, id, Tcp);
      PruneReports(w4, id, SlotAt(w1, id, Tcp), tcp, generation, spec, Tcp, drain.onUpdate);
      PruneReports(w4, id, SlotAt(w1, id, Udp), udp, generation, spec, Udp, drain.onUpdate);
    }
  }

  /** One deletion is reported for every slot of an endpoint. */
  ghost function Deletions(w: World, id: Id): seq<Outcome> {
    (if SlotAt(w, id, Tcp).Some? then [Outcome(Tcp, Deleted, None)] else [])
    + (if SlotAt(w, id, Udp).Some? then [Outcome(Udp, Deleted, None)] else [])
  }

  lemma RemoveReports(w: World, env: Env, id: Id)
    ensures Remove(w, env, id).1 == Deletions(w, id)
  {
    RefreshFrame(w, env);
    var w1 := Refresh(w, env);
    assert Untouched(w, w1, id);
    assert forall p :: SlotAt(w1, id, p).Some? == SlotAt(w, id, p).Some?;
    hide Refresh, StopSlot;
    if id in w1.entries {
      var deadline := w1.entries[id].drain.onDelete;
      if SlotAt(w1, id, Tcp).Some? {
        StopReports(w1, id, Tcp, deadline);
        StopSlotFrame(w1, id, Tcp, deadline);
      }
      var w2 := RemoveProto(w1, id, Tcp, deadline).0;
      assert SlotAt(w2, id, Udp) == SlotAt(w1, id, Udp);
      if SlotAt(w2, id, Udp).Some? {
        StopReports(w2, id, Udp, deadline);
      }
    }
  }
}
