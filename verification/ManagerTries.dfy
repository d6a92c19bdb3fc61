/** What applying an endpoint does in any weather, whichever of its binds are refused and whatever exits. */
module ManagerTries {
  import opened Lifecycle
  import opened Manager
  import opened ManagerFrame
  import opened ManagerServe
  import opened Reconciliation

  /** Every listener `id` has now it had before, serving the same. */
  ghost predicate Kept(w: World, w': World, id: Id) {
    forall p :: KeptSlot(w, w', id, p)
  }

  ghost predicate KeptSlot(w: World, w': World, id: Id, p: Proto) {
    ActiveAt(w', id, p).Some? ==>
      && ActiveAt(w, id, p).Some?
      && w'.entries[id].slots[p].endpoint == w.entries[id].slots[p].endpoint
      && w'.entries[id].slots[p].material == w.entries[id].slots[p].material
  }

  lemma LaunchTries(w: World, env: Env, id: Id, proto: Proto, endpoint: Endpoint, generation: Generation)
    ensures var (w', a) := Launch(w, env, id, proto, endpoint, generation);
            w'.entries == w.entries && (a.Some? ==> a.value.laddr == endpoint.laddr)
  {
  }

  /** Unless applying a slot fails it serves the spec; if it fails, a listener that is left is the one before, or
      the one before started again. */
  ghost predicate Tried(w: World, r: (World, Outcome), id: Id, spec: Spec, proto: Proto) {
    && (r.1.action != Action.Failed ==> AlreadyServes(r.0, id, spec, proto))
    && (r.1.action == Action.Failed ==> KeptSlot(w, r.0, id, proto))
    && (r.1.action == Action.Unchanged ==> r.0 == w)
    && (r.1.action in {Action.Unchanged, Created, Updated, Action.Failed})
  }

  lemma TryStart(w: World, env: Env, id: Id, generation: Generation, spec: Spec, proto: Proto)
    requires id in w.entries && ActiveAt(w, id, proto).None?
    ensures Tried(w, StartSlot(w, env, id, generation, spec, proto), id, spec, proto)
  {
    LaunchTries(w, env, id, proto, spec.endpoint, generation);
    hide Launch;
  }

  lemma TryReplace(w: World, env: Env, id: Id, generation: Generation, spec: Spec, proto: Proto, drain: DrainPolicy)
    requires ActiveAt(w, id, proto).Some?
    ensures Tried(w, ReplaceSlot(w, env, id, generation, spec, proto, drain), id, spec, proto)
  {
    ReplacedSlot(w, env, id, generation, spec, proto, drain);
    hide ReplaceSlot;
  }

  lemma TryMove(w: World, env: Env, id: Id, generation: Generation, spec: Spec, proto: Proto, drain: DrainPolicy)
    requires ActiveAt(w, id, proto).Some?
    ensures Tried(w, MoveSlot(w, env, id, generation, spec, proto, drain), id, spec, proto)
  {
    LaunchTries(w, env, id, proto, spec.endpoint, generation);
    hide Launch;
  }

  lemma TrySlot(w: World, env: Env, id: Id, generation: Generation, spec: Spec, proto: Proto, drain: DrainPolicy)
    requires id in w.entries
    ensures Tried(w, ApplySlot(w, env, id, generation, spec, proto, drain), id, spec, proto)
  {
    hide StartSlot, ReplaceSlot, MoveSlot;
    if !AlreadyServes(w, id, spec, proto) {
      match ActiveAt(w, id, proto) {
        case None => TryStart(w, env, id, generation, spec, proto);
        case Some(a) =>
          TryReplace(w, env, id, generation, spec, proto, drain);
          TryMove(w, env, id, generation, spec, proto, drain);
      }
    }
  }

  /** One protocol changed, another one refused. */
  ghost predicate Mixed(os: seq<Outcome>) {
    AnyFailed(os) && exists i :: 0 <= i < |os| && os[i].action in {Created, Updated}
  }

  /** The same for one protocol of `apply`. */
  ghost predicate TriedProto(w: World, r: (World, seq<Outcome>), id: Id, spec: Spec, p: Proto) {
    && (!AnyFailed(r.1) ==> if Wants(spec, p) then AlreadyServes(r.0, id, spec, p) else SlotAt(r.0, id, p).None?)
    && (AnyFailed(r.1) ==> KeptSlot(w, r.0, id, p) && Wants(spec, p))
    && (KeptSlot(w, r.0, id, p) || exists i :: 0 <= i < |r.1| && r.1[i].action in {Created, Updated})
  }

  lemma StopOutcome(w: World, id: Id, proto: Proto, deadline: Deadline)
    ensures StopSlot(w, id, proto, deadline).1.action != Action.Failed
  {
  }

  lemma TryProto(w: World, env: Env, id: Id, generation: Generation, spec: Spec, proto: Proto, drain: DrainPolicy)
    requires id in w.entries
    ensures var r := ApplyProto(w, env, id, generation, spec, proto, drain);
            AtSlot(w, r.0, id, proto) && TriedProto(w, r, id, spec, proto)
  {
    hide ApplySlot, StopSlot;
    var (w', os) := ApplyProto(w, env, id, generation, spec, proto, drain);
    ApplyProtoFrame(w, env, id, generation, spec, proto, drain);
    if Wants(spec, proto) {
      TrySlot(w, env, id, generation, spec, proto, drain);
      assert os == [os[0]];
    } else if SlotAt(w, id, proto).Some? {
      StopSlotHost(w, id, proto, drain.onDelete);
      StopOutcome(w, id, proto, drain.onDelete);
    }
  }

  /** What applying an endpoint does: it brings it up exactly or reports a failure. A listener there is then serves
      the spec or what it served before; all of them do the latter unless a change is reported beside the failure;
      and an endpoint that had none is not fully up. */
  ghost predicate TriedEndpoint(w: World, r: (World, seq<Outcome>), id: Id, spec: Spec) {
    && (!AnyFailed(r.1) ==> Exactly(r.0, id, spec))
    && (forall p :: KeptSlot(w, r.0, id, p) || (Wants(spec, p) && AlreadyServes(r.0, id, spec, p)))
    && (AnyFailed(r.1) && !Mixed(r.1) ==> Kept(w, r.0, id))
    && (AnyFailed(r.1) && !Serving(w, id) && (spec.tcp || spec.udp) ==> !AllRunning(r.0, id, spec))
  }

  lemma TryEndpoint(w: World, env: Env, id: Id, generation: Generation, spec: Spec)
    ensures TriedEndpoint(w, Apply(w, env, id, generation, spec), id, spec)
  {
    hide Refresh, ApplyProto, Prune, AlreadyServes;
    RefreshFrame(w, env);
    var w1 := Refresh(w, env);
    UntouchedIsKept(w, w1, id);
    var r := Apply(w, env, id, generation, spec);
    if spec.tcp || spec.udp {
      var drain := PolicyOf(w, spec);
      UpsertKeeps(w, w1, id, drain);
      TryBoth(w, Upsert(w1, id, drain), env, id, generation, spec, drain);
    } else {
      assert r.1[0].action == Action.Failed;
    }
  }

  lemma UpsertKeeps(w: World, w1: World, id: Id, drain: DrainPolicy)
    requires Kept(w, w1, id)
    ensures Kept(w, Upsert(w1, id, drain), id)
  {
    forall p ensures KeptSlot(w, Upsert(w1, id, drain), id, p) {
      assert KeptSlot(w, w1, id, p);
    }
  }

  /** An endpoint that is not operated on gets no listener it did not have. */
  lemma UntouchedIsKept(w: World, w': World, id: Id)
    requires Untouched(w, w', id)
    ensures Kept(w, w', id)
  {
    forall p ensures KeptSlot(w, w', id, p) {
      if ActiveAt(w', id, p).Some? {
        assert WeatheredSlot(w.entries[id].slots[p], w'.entries[id].slots[p], w.entries[id].drain.onDelete, w'.host);
      }
    }
  }

  lemma KeptTrans(w: World, w1: World, w2: World, id: Id)
    requires Kept(w, w1, id) && Kept(w1, w2, id)
    ensures Kept(w, w2, id)
  {
    forall p ensures KeptSlot(w, w2, id, p) {
      assert KeptSlot(w, w1, id, p) && KeptSlot(w1, w2, id, p);
    }
  }

  lemma TryBoth(w: World, w2: World, env: Env, id: Id, generation: Generation, spec: Spec, drain: DrainPolicy)
    requires id in w2.entries && Kept(w, w2, id) && (spec.tcp || spec.udp)
    ensures var (w3, o3) := ApplyProto(w2, env, id, generation, spec, Tcp, drain);
            var (w4, o4) := ApplyProto(w3, env, id, generation, spec, Udp, drain);
            TriedEndpoint(w, (Prune(w4, id), o3 + o4), id, spec)
  {
    hide ApplyProto, Prune, AlreadyServes;
    TryProto(w2, env, id, generation, spec, Tcp, drain);
    var (w3, o3) := ApplyProto(w2, env, id, generation, spec, Tcp, drain);
    TryProto(w3, env, id, generation, spec, Udp, drain);
    var (w4, o4) := ApplyProto(w3, env, id, generation, spec, Udp, drain);
    assert SlotAt(w3, id, Udp) == SlotAt(w2, id, Udp) && SlotAt(w4, id, Tcp) == SlotAt(w3, id, Tcp);
    hide AtSlot;
    BothTried(w, w2, w3, o3, w4, o4, id, spec);
  }

  lemma BothTried(w: World, w2: World, w3: World, o3: seq<Outcome>, w4: World, o4: seq<Outcome>, id: Id, spec: Spec)
    requires Kept(w, w2, id) && TriedProto(w2, (w3, o3), id, spec, Tcp) && TriedProto(w3, (w4, o4), id, spec, Udp)
    requires SlotAt(w3, id, Udp) == SlotAt(w2, id, Udp) && SlotAt(w4, id, Tcp) == SlotAt(w3, id, Tcp)
    requires id in w4.entries && (spec.tcp || spec.udp)
    ensures TriedEndpoint(w, (Prune(w4, id), o3 + o4), id, spec)
  {
    var os := o3 + o4;
    assert forall i :: 0 <= i < |o3| ==> os[i] == o3[i];
    assert forall i :: 0 <= i < |o4| ==> os[|o3| + i] == o4[i];
    assert AnyFailed(os) == (AnyFailed(o3) || AnyFailed(o4));
    SameSlotServes(w3, w4, id, spec, Tcp);
    PruneActives(w4, id);
    assert KeptSlot(w, w2, id, Tcp) && KeptSlot(w, w2, id, Udp);
    var w5 := Prune(w4, id);
    forall p ensures KeptSlot(w, w5, id, p) || (Wants(spec, p) && AlreadyServes(w5, id, spec, p)) {
      assert p == Tcp || p == Udp;
    }
    if !AnyFailed(os) {
      forall p ensures if Wants(spec, p) then AlreadyServes(w4, id, spec, p) else SlotAt(w4, id, p).None? {
        assert p == Tcp || p == Udp;
      }
      PruneKeeps(w4, id, spec);
    }
    if AnyFailed(os) && !Mixed(os) {
      forall p ensures KeptSlot(w, w5, id, p) {
        assert p == Tcp || p == Udp;
      }
    }
  }
}
