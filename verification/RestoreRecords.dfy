/** What a restore records, whatever cannot come back: exactly the endpoints all of whose protocols came up. */
module RestoreRecords {
  import opened Lifecycle
  import opened Manager
  import opened ManagerFrame
  import opened Reconciliation
  import opened NonInterference

  /** The description of a restored endpoint, over the material on disk now; `None` if it cannot be refreshed or does
      not build. */
  ghost function Revived(build: Build, disk: Disk, config: nat): Option<(Desc, Spec)> {
    match disk(config)
    case None => None
    case Some(digest) =>
      match build(Desc(config, digest))
      case None => None
      case Some(built) => Some((Desc(config, digest), built))
  }

  /** The endpoint could be revived, and no protocol of it failed to come up in world `w`. */
  ghost predicate ComesBack(w: World, env: Env, build: Build, disk: Disk, generation: Generation, id: Id, config: nat) {
    && Revived(build, disk, config).Some?
    && var os := Apply(w, env, id, generation, Revived(build, disk, config).value.1).1;
       forall i :: 0 <= i < |os| ==> os[i].action != Action.Failed
  }

  /** What is recorded of `id`, and that it counts as failed, is the same. */
  ghost predicate SameStanding(r: Restoring, r': Restoring, id: Id) {
    && (id in r.applied <==> id in r'.applied) && (id in r.applied ==> r'.applied[id] == r.applied[id])
    && (id in r.failed <==> id in r'.failed)
  }

  lemma OneElsewhere(r: Restoring, env: Env, build: Build, disk: Disk, generation: Generation, id: Id, config: nat,
                     x: Id)
    requires x != id
    ensures var r' := RestoreOne(r, env, build, disk, generation, id, config);
            Untouched(r.world, r'.world, x) && Ages(r.world.host, r'.world.host) && SameStanding(r, r', x)
  {
    hide Apply, Untouched, Ages;
    SameEntry(r.world, r.world, x);
    AgesSelf(r.world.host);
    if Revived(build, disk, config).Some? {
      var built := Revived(build, disk, config).value.1;
      ApplyFrame(r.world, env, id, generation, built);
      OnlyOthers(r.world, Apply(r.world, env, id, generation, built).0, id, x);
    }
  }

  lemma OnlyOthers(w: World, w': World, id: Id, x: Id)
    requires Only(w, w', id) && x != id
    ensures Untouched(w, w', x) && Ages(w.host, w'.host)
  {
  }

  lemma {:induction false} IdsElsewhere(r: Restoring, env: Env, build: Build, disk: Disk, snapshot: Snapshot,
                                        ids: seq<Id>, x: Id)
    requires forall i :: 0 <= i < |ids| ==> ids[i] in snapshot.endpoints
    requires x !in ids
    ensures var r' := RestoreIds(r, env, build, disk, snapshot, ids);
            Untouched(r.world, r'.world, x) && Ages(r.world.host, r'.world.host) && SameStanding(r, r', x)
    decreases |ids|
  {
    hide RestoreOne, Untouched, Ages;
    if ids == [] {
      SameEntry(r.world, r.world, x);
      AgesSelf(r.world.host);
    } else {
      OneElsewhere(r, env, build, disk, snapshot.generation, ids[0], snapshot.endpoints[ids[0]], x);
      var r1 := RestoreOne(r, env, build, disk, snapshot.generation, ids[0], snapshot.endpoints[ids[0]]);
      IdsElsewhere(r1, env, build, disk, snapshot, ids[1..], x);
      var r2 := RestoreIds(r1, env, build, disk, snapshot, ids[1..]);
      UntouchedTrans(r.world, r1.world, r2.world, x);
      AgesTrans(r.world.host, r1.world.host, r2.world.host);
    }
  }

  lemma {:induction false} AtItsTurn(r: Restoring, env: Env, build: Build, disk: Disk, snapshot: Snapshot, ids: seq<Id>,
                                     id: Id) returns (w: World)
    requires forall i :: 0 <= i < |ids| ==> ids[i] in snapshot.endpoints
    requires forall i, j :: 0 <= i < j < |ids| ==> ids[i] != ids[j]
    requires id in ids && id !in r.applied && id !in r.failed
    ensures var r' := RestoreIds(r, env, build, disk, snapshot, ids);
            var config := snapshot.endpoints[id];
            var back := ComesBack(w, env, build, disk, snapshot.generation, id, config);
            && Untouched(r.world, w, id) && Ages(r.world.host, w.host)
            && (id in r'.applied <==> back) && (id in r'.failed <==> !back)
            && (back ==>
                  && r'.applied[id] == Revived(build, disk, config).value.0
                  && Untouched(Apply(w, env, id, snapshot.generation, Revived(build, disk, config).value.1).0,
                               r'.world, id))
    decreases |ids|
  {
    hide RestoreOne, Untouched, Ages, Apply;
    var config := snapshot.endpoints[ids[0]];
    var r1 := RestoreOne(r, env, build, disk, snapshot.generation, ids[0], config);
    if ids[0] == id {
      w := r.world;
      SameEntry(r.world, r.world, id);
      AgesSelf(r.world.host);
      OneRecords(r, env, build, disk, snapshot.generation, id, config);
      assert id !in ids[1..];
      IdsElsewhere(r1, env, build, disk, snapshot, ids[1..], id);
    } else {
      OneElsewhere(r, env, build, disk, snapshot.generation, ids[0], config, id);
      w := AtItsTurn(r1, env, build, disk, snapshot, ids[1..], id);
      UntouchedTrans(r.world, r1.world, w, id);
      AgesTrans(r.world.host, r1.world.host, w.host);
    }
  }

  lemma OneRecords(r: Restoring, env: Env, build: Build, disk: Disk, generation: Generation, id: Id, config: nat)
    requires id !in r.applied && id !in r.failed
    ensures var r' := RestoreOne(r, env, build, disk, generation, id, config);
            var back := ComesBack(r.world, env, build, disk, generation, id, config);
            && (id in r'.applied <==> back) && (id in r'.failed <==> !back)
            && (back ==>
                  && r'.applied[id] == Revived(build, disk, config).value.0
                  && r'.world == Apply(r.world, env, id, generation, Revived(build, disk, config).value.1).0)
  {
    hide Apply;
  }

  /** Every endpoint of a snapshot, in any weather: it is recorded as applied, with its configuration over the material
      on disk now, if and only if it could be refreshed and built and none of its protocols failed to come up when
      its turn came; and then nothing else of the restore touches it. */
  lemma RestoredExactly(policy: DrainPolicy, env: Env, build: Build, disk: Disk, snapshot: Snapshot, id: Id)
    returns (w: World)
    requires id in snapshot.endpoints
    ensures var s := Restore(Restarted(policy), env, build, disk, snapshot);
            var config := snapshot.endpoints[id];
            && id !in w.entries
            && (id in s.applied <==> ComesBack(w, env, build, disk, snapshot.generation, id, config))
            && (id in s.applied ==>
                  && s.applied[id] == Revived(build, disk, config).value.0
                  && Untouched(Apply(w, env, id, snapshot.generation, Revived(build, disk, config).value.1).0, s.world,
                               id))
  {
    hide RestoreIds, Untouched, Ages, Apply, ComesBack;
    w := AtItsTurn(Restoring(Empty(policy), map[], {}), env, build, disk, snapshot, SortedKeys(snapshot.endpoints.Keys),
                   id);
    assert id !in w.entries by { StillAbsent(Empty(policy), w, id); }
  }

  lemma StillAbsent(w: World, w': World, id: Id)
    requires Untouched(w, w', id) && id !in w.entries
    ensures id !in w'.entries
  {
  }

  /** The restored process is ready, at the generation of the snapshot, records nothing the snapshot does not have, and
      carries the partial mark if and only if the snapshot did or an endpoint of it could not be brought back. */
  lemma PartialExactly(policy: DrainPolicy, env: Env, build: Build, disk: Disk, snapshot: Snapshot)
    ensures var s := Restore(Restarted(policy), env, build, disk, snapshot);
            && s.ready && s.active == Some(snapshot.generation) && s.last == None
            && s.applied.Keys <= snapshot.endpoints.Keys
            && (s.partial <==> snapshot.partial || exists id :: id in snapshot.endpoints && id !in s.applied)
  {
    hide RestoreIds, Untouched, Ages, Apply, ComesBack;
    var ids := SortedKeys(snapshot.endpoints.Keys);
    var r0 := Restoring(Empty(policy), map[], {});
    var r := RestoreIds(r0, env, build, disk, snapshot, ids);
    forall id: Id ensures id in snapshot.endpoints ==> (id in r.failed <==> id !in r.applied)
      ensures id !in snapshot.endpoints ==> id !in r.failed && id !in r.applied
    {
      if id in snapshot.endpoints {
        var _ := AtItsTurn(r0, env, build, disk, snapshot, ids, id);
      } else {
        IdsElsewhere(r0, env, build, disk, snapshot, ids, id);
      }
    }
    if r.failed != {} {
      var id :| id in r.failed;
      assert id in snapshot.endpoints && id !in r.applied;
    }
  }
}
