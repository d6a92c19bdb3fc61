/** Grouping a batch of datagrams by client, in place. */
module Grouping {
  /** A half-open range of the batch. */
  datatype Range = Range(start: nat, end: nat)

  ghost predicate Equivalence<T(!new)>(eq: (T, T) -> bool) {
    && (forall x :: eq(x, x))
    && (forall x, y :: eq(x, y) ==> eq(y, x))
    && (forall x, y, z :: eq(x, y) && eq(y, z) ==> eq(x, z))
  }

  /** The ranges follow one another without gaps from 0 to `n`, and none is empty. */
  ghost predicate Tiles(groups: seq<Range>, n: nat) {
    && (forall k :: 0 <= k < |groups| ==> groups[k].start < groups[k].end <= n)
    && (forall k :: 0 < k < |groups| ==> groups[k - 1].end == groups[k].start)
    && (groups == [] ==> n == 0)
    && (groups != [] ==> groups[0].start == 0 && groups[|groups| - 1].end == n)
  }

  ghost predicate Within(g: Range, i: int) {
    g.start <= i < g.end
  }

  lemma {:induction false} Later(groups: seq<Range>, n: nat, k: nat, l: nat)
    requires Tiles(groups, n) && k < l < |groups|
    ensures groups[k].end <= groups[l].start
    decreases l
  {
    if k < l - 1 {
      Later(groups, n, k, l - 1);
    }
  }

  /** Every element of the batch is in exactly one range. */
  lemma OneRangeEach(groups: seq<Range>, n: nat, i: nat) returns (k: nat)
    requires Tiles(groups, n) && i < n
    ensures k < |groups| && Within(groups[k], i)
    ensures forall l :: 0 <= l < |groups| && Within(groups[l], i) ==> l == k
  {
    k := 0;
    while groups[k].end <= i
      invariant k < |groups| && groups[k].start <= i
      decreases |groups| - k
    {
      k := k + 1;
    }
    forall l | 0 <= l < |groups| && Within(groups[l], i) ensures l == k {
      if l < k {
        Later(groups, n, l, k);
      } else if k < l {
        Later(groups, n, k, l);
      }
    }
  }

  /** One class to a range. */
  ghost predicate Uniform<T(!new)>(data: seq<T>, groups: seq<Range>, eq: (T, T) -> bool) {
    forall k, i, j :: 0 <= k < |groups| && Within(groups[k], i) && Within(groups[k], j) && i < |data| && j < |data|
      ==> eq(data[i], data[j])
  }

  /** No class in two ranges. */
  ghost predicate Apart<T(!new)>(data: seq<T>, groups: seq<Range>, eq: (T, T) -> bool) {
    forall k, l, i, j ::
      0 <= k < l < |groups| && Within(groups[k], i) && Within(groups[l], j) && i < |data| && j < |data|
      ==> !eq(data[i], data[j])
  }

  /** Nothing before `mid` is equivalent to anything from `mid` on. */
  ghost predicate Split<T(!new)>(data: seq<T>, mid: nat, eq: (T, T) -> bool) {
    forall i, j :: 0 <= i < mid <= j < |data| ==> !eq(data[i], data[j])
  }

  /** The elements before `mid` are grouped. */
  ghost predicate Grouped<T(!new)>(data: seq<T>, mid: nat, groups: seq<Range>, eq: (T, T) -> bool) {
    Split(data, mid, eq) && Tiles(groups, mid) && Uniform(data, groups, eq) && Apart(data, groups, eq)
  }

  /** The elements from `beg` up to `end` are of the class of the first of them. */
  ghost predicate Alike<T>(data: seq<T>, beg: nat, end: nat, eq: (T, T) -> bool)
    requires beg < |data|
  {
    forall i :: beg <= i < end && i < |data| ==> eq(data[i], data[beg])
  }

  lemma SwapKeeps<T>(s: seq<T>, t: seq<T>, i: nat, j: nat)
    requires i < |s| == |t| && j < |s|
    requires t == s[i := s[j]][j := s[i]]
    ensures multiset(t) == multiset(s)
  {
  }

  /** What is true of the elements before `mid` stays true when only the elements from `mid` on move among
      themselves. */
  lemma RearrangedTail<T(!new)>(s: seq<T>, t: seq<T>, i: nat, j: nat, mid: nat, groups: seq<Range>, eq: (T, T) -> bool)
    requires mid <= i < |s| == |t| && mid <= j < |s|
    requires t == s[i := s[j]][j := s[i]]
    requires Grouped(s, mid, groups, eq)
    ensures Grouped(t, mid, groups, eq)
  {
    forall k, a, b | 0 <= k < |groups| && Within(groups[k], a) && Within(groups[k], b) && a < |t| && b < |t|
      ensures eq(t[a], t[b])
    {
      assert t[a] == s[a] && t[b] == s[b];
    }
    forall k, l, a, b | 0 <= k < l < |groups| && Within(groups[k], a) && Within(groups[l], b) && a < |t| && b < |t|
      ensures !eq(t[a], t[b])
    {
      assert t[a] == s[a] && t[b] == s[b];
    }
  }

  lemma SameClass<T(!new)>(x: T, y: T, z: T, eq: (T, T) -> bool)
    requires Equivalence(eq) && eq(x, z)
    ensures eq(x, y) ==> eq(y, z)
  {
    assert eq(x, y) ==> eq(y, x);
  }

  lemma PushSplits<T(!new)>(s: seq<T>, beg: nat, end: nat, eq: (T, T) -> bool)
    requires Equivalence(eq) && beg < end <= |s| && Split(s, beg, eq) && Alike(s, beg, end, eq)
    requires forall i :: end <= i < |s| ==> !eq(s[i], s[beg])
    ensures Split(s, end, eq)
  {
    forall i, j | 0 <= i < end <= j < |s| ensures !eq(s[i], s[j]) {
      if beg <= i {
        SameClass(s[i], s[j], s[beg], eq);
      }
    }
  }

  lemma PushUniform<T(!new)>(s: seq<T>, groups: seq<Range>, beg: nat, end: nat, eq: (T, T) -> bool)
    requires Equivalence(eq) && beg < end <= |s| && Uniform(s, groups, eq) && Alike(s, beg, end, eq)
    ensures Uniform(s, groups + [Range(beg, end)], eq)
  {
    var more := groups + [Range(beg, end)];
    forall k, i, j | 0 <= k < |more| && Within(more[k], i) && Within(more[k], j) && i < |s| && j < |s|
      ensures eq(s[i], s[j])
    {
      if k == |groups| {
        assert eq(s[i], s[beg]) && eq(s[j], s[beg]) && eq(s[beg], s[j]);
      } else {
        assert more[k] == groups[k];
      }
    }
  }

  lemma PushApart<T(!new)>(s: seq<T>, groups: seq<Range>, beg: nat, end: nat, eq: (T, T) -> bool)
    requires beg < end <= |s| && Split(s, beg, eq) && Tiles(groups, beg) && Apart(s, groups, eq)
    ensures Apart(s, groups + [Range(beg, end)], eq)
  {
    var more := groups + [Range(beg, end)];
    forall k, l, i, j | 0 <= k < l < |more| && Within(more[k], i) && Within(more[l], j) && i < |s| && j < |s|
      ensures !eq(s[i], s[j])
    {
      assert more[k] == groups[k] && i < beg;
      if l < |groups| {
        assert more[l] == groups[l];
      }
    }
  }

  /** A finished class becomes a range. */
  lemma Push<T(!new)>(s: seq<T>, groups: seq<Range>, beg: nat, end: nat, eq: (T, T) -> bool)
    requires Equivalence(eq) && beg < end <= |s|
    requires Grouped(s, beg, groups, eq)
    requires Alike(s, beg, end, eq)
    requires forall i :: end <= i < |s| ==> !eq(s[i], s[beg])
    ensures Grouped(s, end, groups + [Range(beg, end)], eq)
  {
    PushSplits(s, beg, end, eq);
    PushUniform(s, groups, beg, end, eq);
    PushApart(s, groups, beg, end, eq);
    hide Split, Uniform, Apart, Alike, Equivalence;
  }

  /** Before anything is grouped. */
  lemma Start<T(!new)>(s: seq<T>, eq: (T, T) -> bool)
    requires Equivalence(eq)
    ensures Grouped(s, 0, [], eq) && (s != [] ==> Alike(s, 0, 1, eq))
  {
  }

  lemma Single<T(!new)>(s: seq<T>, beg: nat, eq: (T, T) -> bool)
    requires Equivalence(eq) && beg < |s|
    ensures Alike(s, beg, beg + 1, eq)
  {
  }

  lemma Whole<T(!new)>(s: seq<T>, groups: seq<Range>, eq: (T, T) -> bool)
    requires Grouped(s, |s|, groups, eq)
    ensures Tiles(groups, |s|) && Uniform(s, groups, eq) && Apart(s, groups, eq)
  {
  }

  /** A batch of nothing has no range. */
  lemma Nothing<T(!new)>(s: seq<T>, eq: (T, T) -> bool)
    requires s == []
    ensures !Tiles([Range(0, 1)], 0) && Uniform(s, [Range(0, 1)], eq) && Apart(s, [Range(0, 1)], eq)
  {
    assert [Range(0, 1)][0].end == 1;
  }

  /** Moves every element equivalent to `data[beg]` in front of the others, given that `data[end]` is the
      first that is not. */
  method Gather<T(!new)>(data: array<T>, groups: seq<Range>, beg: nat, end: nat, eq: (T, T) -> bool) returns (stop: nat)
    requires Equivalence(eq) && beg < end < data.Length
    requires Grouped(data[..], beg, groups, eq)
    requires Alike(data[..], beg, end, eq)
    requires !eq(data[end], data[beg])
    modifies data
    ensures multiset(data[..]) == old(multiset(data[..]))
    ensures end <= stop < data.Length
    ensures Grouped(data[..], beg, groups, eq)
    ensures Alike(data[..], beg, stop, eq)
    ensures forall i :: stop <= i < data.Length ==> !eq(data[i], data[beg])
  {
    hide Grouped, Equivalence;
    stop := end;
    var probe := end + 1;
    while probe < data.Length
      invariant end <= stop < probe <= data.Length
      invariant multiset(data[..]) == old(multiset(data[..]))
      invariant Grouped(data[..], beg, groups, eq)
      invariant forall i :: beg <= i < stop ==> eq(data[i], data[beg])
      invariant forall i :: stop <= i < probe ==> !eq(data[i], data[beg])
    {
      if eq(data[probe], data[beg]) {
        ghost var was := data[..];
        data[probe], data[stop] := data[stop], data[probe];
        SwapKeeps(was, data[..], probe, stop);
        RearrangedTail(was, data[..], probe, stop, beg, groups, eq);
        stop := stop + 1;
      }
      probe := probe + 1;
    }
  }

  /** Rearranges a batch so that equivalent elements are next to each other and returns the ranges they
      occupy. A batch of nothing gets one range that does not exist. */
  method GroupBy<T(!new)>(data: array<T>, eq: (T, T) -> bool) returns (groups: seq<Range>)
    requires Equivalence(eq)
    modifies data
    ensures multiset(data[..]) == old(multiset(data[..]))
    ensures data.Length > 0 <==> Tiles(groups, data.Length)
    ensures Uniform(data[..], groups, eq) && Apart(data[..], groups, eq)
    ensures data.Length == 0 ==> groups == [Range(0, 1)]
  {
    hide Grouped, Equivalence;
    groups := [];
    var beg, end := 0, 1;
    Start(data[..], eq);
    while end < data.Length
      invariant beg < end && (end <= data.Length || (data.Length == beg == 0 && end == 1 && groups == []))
      invariant multiset(data[..]) == old(multiset(data[..]))
      invariant Grouped(data[..], beg, groups, eq)
      invariant data.Length > 0 ==> Alike(data[..], beg, end, eq)
      decreases data.Length - end
    {
      if eq(data[end], data[beg]) {
        end := end + 1;
        continue;
      }
      end := Gather(data, groups, beg, end, eq);
      Push(data[..], groups, beg, end, eq);
      groups := groups + [Range(beg, end)];
      beg, end := end, end + 1;
      Single(data[..], beg, eq);
    }
    if data.Length > 0 {
      Push(data[..], groups, beg, end, eq);
      Whole(data[..], groups + [Range(beg, end)], eq);
    } else {
      Nothing(data[..], eq);
    }
    groups := groups + [Range(beg, end)];
  }
}
