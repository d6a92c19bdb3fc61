/** The duplicate-address check of one generation: what it computes, and the loops that compute it. */
module Collisions {
  import opened Lifecycle
  import opened Manager
  import opened Reconciliation

  /** `built` asks for `proto` on an address that `other` is going to bind, or keeps because it is left unchanged. */
  ghost predicate Takes(w: World, plan: Plan, other: Id, built: Spec, proto: Proto) {
    && Wants(built, proto)
    && (|| (&& (plan.Start? || plan.Replace?) && Wants(plan.built, proto)
            && plan.built.endpoint.laddr == built.endpoint.laddr)
        || (&& plan == Plan.Unchanged && ActiveAt(w, other, proto).Some?
            && w.entries[other].slots[proto].endpoint.laddr == built.endpoint.laddr))
  }

  lemma TakesExactly(w: World, plans: map<Id, Plan>, other: Id, built: Spec, proto: Proto)
    requires other in plans
    ensures Takes(w, plans[other], other, built, proto) <==>
              var key := Key(built.endpoint.laddr, proto);
              Wants(built, proto) && (Claims(plans[other], key) || Incumbent(w, plans, other, key))
  {
  }

  lemma CollidesExactly(w: World, plans: map<Id, Plan>, id: Id)
    requires id in plans && Binds(plans[id])
    ensures Collides(w, plans, id) <==>
              exists other, p :: other in plans && other != id && Takes(w, plans[other], other, plans[id].built, p)
  {
    hide Takes, Claims, Incumbent;
    var built := plans[id].built;
    if Collides(w, plans, id) {
      var p := if CollidesOn(w, plans, id, Tcp) then Tcp else Udp;
      var key := Key(built.endpoint.laddr, p);
      var other :| other in plans && other != id && (Claims(plans[other], key) || Incumbent(w, plans, other, key));
      TakesExactly(w, plans, other, built, p);
    }
    if other, p :| other in plans && other != id && Takes(w, plans[other], other, built, p) {
      TakesExactly(w, plans, other, built, p);
      assert Contested(w, plans, id, Key(built.endpoint.laddr, p));
      assert CollidesOn(w, plans, id, p);
      assert p == Tcp || p == Udp;
    }
  }

  /** Collision marking is exact: a plan that binds becomes invalid if and only if another plan binds, or
      an unchanged endpoint keeps, one of its addresses; every other plan stays what it was. */
  lemma MarkingIsExact(w: World, plans: map<Id, Plan>, id: Id)
    requires id in plans
    ensures id in MarkDuplicates(w, plans)
    ensures MarkDuplicates(w, plans)[id] ==
      if && (plans[id].Start? || plans[id].Replace?)
         && exists other, p :: other in plans && other != id && Takes(w, plans[other], other, plans[id].built, p)
      then Invalid else plans[id]
  {
    hide Takes;
    if Binds(plans[id]) {
      CollidesExactly(w, plans, id);
    }
  }

  /** The plans that survive bind pairwise different addresses, none of them kept by an unchanged endpoint. */
  lemma SurvivorsAreDisjoint(w: World, plans: map<Id, Plan>, a: Id, b: Id, key: Key)
    requires a in plans && b in plans && a != b
    requires Claims(MarkDuplicates(w, plans)[a], key)
    ensures !Claims(MarkDuplicates(w, plans)[b], key)
    ensures !Incumbent(w, MarkDuplicates(w, plans), b, key)
  {
    MarkingIsExact(w, plans, a);
    MarkingIsExact(w, plans, b);
    TakesExactly(w, plans, b, plans[a].built, key.proto);
  }

  // ---------------------------------------------------------------- the loops

  ghost function Members(ids: seq<Id>): set<Id> {
    set x | x in ids
  }

  /** `incumbents` holds every address an unchanged endpoint of `done` keeps, under one that keeps it. */
  ghost predicate IncumbentsOf(w: World, plans: map<Id, Plan>, incumbents: map<Key, Id>, done: set<Id>) {
    && (forall key :: key in incumbents ==> Incumbent(w, plans, incumbents[key], key))
    && (forall id, key :: id in done && Incumbent(w, plans, id, key) ==> key in incumbents)
  }

  lemma IncumbentsGrow(w: World, plans: map<Id, Plan>, before: map<Key, Id>, incumbents: map<Key, Id>, done: set<Id>,
                       id: Id)
    requires IncumbentsOf(w, plans, before, done)
    requires forall key :: key in incumbents <==> key in before || Incumbent(w, plans, id, key)
    requires forall key :: key in incumbents ==>
        incumbents[key] == if Incumbent(w, plans, id, key) then id else before[key]
    ensures IncumbentsOf(w, plans, incumbents, done + {id})
  {
  }

  method AddIncumbent(w: World, plans: map<Id, Plan>, incumbents: map<Key, Id>, id: Id) returns (r: map<Key, Id>)
    requires id in plans
    ensures forall key :: key in r <==> key in incumbents || Incumbent(w, plans, id, key)
    ensures forall key :: key in r ==> r[key] == if Incumbent(w, plans, id, key) then id else incumbents[key]
  {
    r := incumbents;
    if plans[id] == Plan.Unchanged {
      if ActiveEndpoint(w, id, Tcp).Some? {
        r := r[Key(ActiveEndpoint(w, id, Tcp).value.laddr, Tcp) := id];
      }
      if ActiveEndpoint(w, id, Udp).Some? {
        r := r[Key(ActiveEndpoint(w, id, Udp).value.laddr, Udp) := id];
      }
    }
    forall key: Key
      ensures (key in r <==> key in incumbents || Incumbent(w, plans, id, key))
           && (key in r ==> r[key] == if Incumbent(w, plans, id, key) then id else incumbents[key])
    {
      match key case Key(addr, proto) => assert proto == Tcp || proto == Udp;
    }
  }

  /** The addresses still held by endpoints this generation leaves unchanged. */
  method UnchangedIncumbents(w: World, plans: map<Id, Plan>) returns (incumbents: map<Key, Id>)
    ensures IncumbentsOf(w, plans, incumbents, plans.Keys)
  {
    incumbents := map[];
    var ids := SortedKeys(plans.Keys);
    for i := 0 to |ids|
      invariant IncumbentsOf(w, plans, incumbents, Members(ids[..i]))
    {
      var next := AddIncumbent(w, plans, incumbents, ids[i]);
      IncumbentsGrow(w, plans, incumbents, next, Members(ids[..i]), ids[i]);
      assert Members(ids[..i + 1]) == Members(ids[..i]) + {ids[i]};
      incumbents := next;
    }
    assert Members(ids[..|ids|]) == plans.Keys;
  }

  /** `seen` lists, for every address, the endpoints of `done` that are about to bind it. */
  ghost predicate Seen(plans: map<Id, Plan>, seen: map<Key, seq<Id>>, done: set<Id>) {
    && (forall key :: key in seen ==> seen[key] != [])
    && (forall key, i :: key in seen && 0 <= i < |seen[key]| ==>
          seen[key][i] in plans && seen[key][i] in done && Claims(plans[seen[key][i]], key))
    && (forall key, i, j :: key in seen && 0 <= i < j < |seen[key]| ==> seen[key][i] != seen[key][j])
    && (forall id, key :: id in done && id in plans && Claims(plans[id], key) ==> key in seen && id in seen[key])
  }

  /** What `seen` becomes when the claims of `id` are added. */
  ghost predicate Pushed(plan: Plan, id: Id, seen: map<Key, seq<Id>>, r: map<Key, seq<Id>>) {
    && (forall key :: key in r <==> key in seen || Claims(plan, key))
    && (forall key :: key in r ==>
          r[key] == if Claims(plan, key) then (if key in seen then seen[key] else []) + [id] else seen[key])
  }

  method PushClaims(plan: Plan, id: Id, seen: map<Key, seq<Id>>) returns (r: map<Key, seq<Id>>)
    ensures Pushed(plan, id, seen, r)
  {
    r := seen;
    if Binds(plan) {
      if plan.built.tcp {
        var key := Key(plan.built.endpoint.laddr, Tcp);
        r := r[key := (if key in r then r[key] else []) + [id]];
      }
      if plan.built.udp {
        var key := Key(plan.built.endpoint.laddr, Udp);
        r := r[key := (if key in r then r[key] else []) + [id]];
      }
    }
    forall key: Key
      ensures (key in r <==> key in seen || Claims(plan, key))
           && (key in r ==>
                 r[key] == if Claims(plan, key) then (if key in seen then seen[key] else []) + [id] else seen[key])
    {
      match key case Key(addr, proto) => assert proto == Tcp || proto == Udp;
    }
  }

  lemma SeenDistinct(plans: map<Id, Plan>, seen: map<Key, seq<Id>>, r: map<Key, seq<Id>>, done: set<Id>, id: Id,
                     key: Key)
    requires Seen(plans, seen, done) && id in plans && id !in done
    requires Pushed(plans[id], id, seen, r) && key in r
    ensures r[key] != []
    ensures forall i, j :: 0 <= i < j < |r[key]| ==> r[key][i] != r[key][j]
    ensures forall i :: 0 <= i < |r[key]| ==>
        r[key][i] in plans && r[key][i] in done + {id} && Claims(plans[r[key][i]], key)
  {
    if key in seen {
      assert forall i :: 0 <= i < |seen[key]| ==> seen[key][i] in done;
    }
  }

  lemma SeenAll(plans: map<Id, Plan>, seen: map<Key, seq<Id>>, r: map<Key, seq<Id>>, done: set<Id>, id: Id, other: Id,
                key: Key)
    requires Seen(plans, seen, done) && id in plans && other in plans && (other in done || other == id)
    requires Pushed(plans[id], id, seen, r) && Claims(plans[other], key)
    ensures key in r && other in r[key]
  {
    if other == id {
      assert r[key][|r[key]| - 1] == id;
    } else {
      var i :| 0 <= i < |seen[key]| && seen[key][i] == other;
      assert r[key][i] == other;
    }
  }

  lemma SeenGrows(plans: map<Id, Plan>, seen: map<Key, seq<Id>>, r: map<Key, seq<Id>>, done: set<Id>, id: Id)
    requires Seen(plans, seen, done) && id in plans && id !in done
    requires Pushed(plans[id], id, seen, r)
    ensures Seen(plans, r, done + {id})
  {
    hide Pushed, Claims;
    forall key | key in r
      ensures r[key] != []
      ensures forall i, j :: 0 <= i < j < |r[key]| ==> r[key][i] != r[key][j]
      ensures forall i :: 0 <= i < |r[key]| ==>
          r[key][i] in plans && r[key][i] in done + {id} && Claims(plans[r[key][i]], key)
    {
      SeenDistinct(plans, seen, r, done, id, key);
    }
    forall other, key | other in done + {id} && other in plans && Claims(plans[other], key)
      ensures key in r && other in r[key]
    {
      SeenAll(plans, seen, r, done, id, other, key);
    }
  }

  /** The addresses this generation is about to bind, each with everyone who is. */
  method CollectClaims(plans: map<Id, Plan>) returns (seen: map<Key, seq<Id>>)
    ensures Seen(plans, seen, plans.Keys)
  {
    seen := map[];
    var ids := SortedKeys(plans.Keys);
    hide Seen, Pushed;
    assert Seen(plans, seen, {}) by { SeenNothing(plans); }
    assert Members(ids[..0]) == {};
    for i := 0 to |ids|
      invariant Seen(plans, seen, Members(ids[..i]))
    {
      var next := PushClaims(plans[ids[i]], ids[i], seen);
      SeenGrows(plans, seen, next, Members(ids[..i]), ids[i]);
      assert Members(ids[..i + 1]) == Members(ids[..i]) + {ids[i]};
      seen := next;
    }
    assert Members(ids[..|ids|]) == plans.Keys;
  }

  lemma SeenNothing(plans: map<Id, Plan>)
    ensures Seen(plans, map[], {})
  {
  }

  /** What is decided once the marking has looked at the addresses `looked`. */
  ghost predicate Marked(w: World, plans: map<Id, Plan>, marked: map<Id, Plan>, looked: set<Key>) {
    && marked.Keys == plans.Keys
    && forall id :: id in plans ==>
         marked[id] ==
           if exists key :: key in looked && Claims(plans[id], key) && Contested(w, plans, id, key) then Invalid
           else plans[id]
  }

  /** One address: two or more newcomers fail together, a single one fails against an incumbent. */
  method MarkOne(w: World, plans: map<Id, Plan>, incumbents: map<Key, Id>, seen: map<Key, seq<Id>>,
                 marked: map<Id, Plan>, key: Key,
                 ghost looked: set<Key>) returns (r: map<Id, Plan>)
    requires IncumbentsOf(w, plans, incumbents, plans.Keys) && Seen(plans, seen, plans.Keys)
    requires key in seen && Marked(w, plans, marked, looked)
    ensures Marked(w, plans, r, looked + {key})
  {
    r := marked;
    var ids := seen[key];
    if |ids| >= 2 {
      ManyContend(w, plans, seen, key);
      r := Fail(plans, marked, ids);
    } else {
      OneContends(w, plans, incumbents, seen, key);
      if key in incumbents && incumbents[key] != ids[0] {
        r := r[ids[0] := Invalid];
      }
    }
    hide Seen, IncumbentsOf, Marked, Contested, Claims;
    MarkedGrows(w, plans, marked, r, looked, key);
  }

  method Fail(plans: map<Id, Plan>, marked: map<Id, Plan>, ids: seq<Id>) returns (r: map<Id, Plan>)
    requires marked.Keys == plans.Keys && forall i :: 0 <= i < |ids| ==> ids[i] in plans
    ensures r.Keys == plans.Keys && forall id :: id in plans ==> r[id] == if id in ids then Invalid else marked[id]
  {
    r := marked;
    for i := 0 to |ids|
      invariant r.Keys == plans.Keys
      invariant forall id :: id in plans ==>
          r[id] == if exists j :: 0 <= j < i && ids[j] == id then Invalid else marked[id]
    {
      r := r[ids[i] := Invalid];
    }
  }

  /** An address with two newcomers is contested by everyone who claims it. */
  lemma ManyContend(w: World, plans: map<Id, Plan>, seen: map<Key, seq<Id>>, key: Key)
    requires Seen(plans, seen, plans.Keys) && key in seen && |seen[key]| >= 2
    ensures forall id :: id in plans ==> (id in seen[key] <==> Claims(plans[id], key) && Contested(w, plans, id, key))
  {
    var ids := seen[key];
    forall id | id in plans && id in ids ensures Claims(plans[id], key) && Contested(w, plans, id, key) {
      var other := if ids[0] == id then ids[1] else ids[0];
      assert other in plans && other != id && Claims(plans[other], key);
    }
  }

  /** An address with a single newcomer is contested exactly when someone else holds it. */
  lemma OneContends(w: World, plans: map<Id, Plan>, incumbents: map<Key, Id>, seen: map<Key, seq<Id>>, key: Key)
    requires IncumbentsOf(w, plans, incumbents, plans.Keys) && Seen(plans, seen, plans.Keys)
    requires key in seen && |seen[key]| < 2
    ensures forall id :: id in plans ==>
              (Claims(plans[id], key) && Contested(w, plans, id, key) <==>
                    id == seen[key][0] && key in incumbents && incumbents[key] != id)
  {
    var sole := seen[key][0];
    assert forall x :: x in plans && Claims(plans[x], key) ==> x == sole;
    if key in incumbents && incumbents[key] != sole {
      assert Incumbent(w, plans, incumbents[key], key);
    }
  }

  lemma MarkedGrows(w: World, plans: map<Id, Plan>, marked: map<Id, Plan>, r: map<Id, Plan>, looked: set<Key>, key: Key)
    requires Marked(w, plans, marked, looked) && r.Keys == plans.Keys
    requires forall id :: id in plans ==>
               r[id] == if Claims(plans[id], key) && Contested(w, plans, id, key) then Invalid else marked[id]
    ensures Marked(w, plans, r, looked + {key})
  {
    forall id | id in plans
      ensures r[id] ==
                if exists k :: k in looked + {key} && Claims(plans[id], k) && Contested(w, plans, id, k) then Invalid
                else plans[id]
    {
      if k :| k in looked && Claims(plans[id], k) && Contested(w, plans, id, k) {
        assert k in looked + {key};
      }
    }
  }

  /** The whole check, over the addresses in any order. */
  method MarkAll(w: World, plans: map<Id, Plan>) returns (r: map<Id, Plan>)
    ensures r == MarkDuplicates(w, plans)
  {
    hide SortedKeys, Seen, IncumbentsOf, Contested, Claims, Collides;
    var incumbents := UnchangedIncumbents(w, plans);
    var seen := CollectClaims(plans);
    r := plans;
    var todo := seen.Keys;
    ghost var looked: set<Key> := {};
    while todo != {}
      invariant todo <= seen.Keys && looked == seen.Keys - todo
      invariant Marked(w, plans, r, looked)
      decreases todo
    {
      var key :| key in todo;
      r := MarkOne(w, plans, incumbents, seen, r, key, looked);
      todo := todo - {key};
      looked := looked + {key};
    }
    forall id | id in plans ensures r[id] == if Collides(w, plans, id) then Invalid else plans[id] {
      LookedAtAll(w, plans, seen, id);
    }
  }

  lemma LookedAtAll(w: World, plans: map<Id, Plan>, seen: map<Key, seq<Id>>, id: Id)
    requires Seen(plans, seen, plans.Keys) && id in plans
    ensures Collides(w, plans, id) <==>
        exists key :: key in seen.Keys && Claims(plans[id], key) && Contested(w, plans, id, key)
  {
    forall proto | CollidesOn(w, plans, id, proto)
      ensures exists key :: key in seen.Keys && Claims(plans[id], key) && Contested(w, plans, id, key)
    {
      var key := Key(plans[id].built.endpoint.laddr, proto);
      assert Claims(plans[id], key);
    }
    if key :| key in seen.Keys && Claims(plans[id], key) && Contested(w, plans, id, key) {
      assert CollidesOn(w, plans, id, key.proto);
    }
  }
}
