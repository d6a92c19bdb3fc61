/** Smooth weighted round robin (realm_lb/src/round_robin.rs).

    The balancer keeps one counter `cw` per peer. A call adds every peer's weight to its
    counter, picks the first largest counter and takes the total weight off it. The module
    states the algorithm on unbounded integers (`Run`, `Pick`), proves exact fairness and the
    cup-game bound on the counters there, and then shows when the 16-bit counters of the
    program stay equal to the unbounded ones. */
module RoundRobin {

  // ---------------------------------------------------------------- sums

  function Sum(w: seq<int>): int {
    if |w| == 0 then 0 else Sum(w[..|w| - 1]) + w[|w| - 1]
  }

  /** Sum of the counters whose index lies in `S`. */
  function SumOn(c: seq<int>, S: set<nat>): int {
    if |c| == 0 then 0
    else SumOn(c[..|c| - 1], S) + if |c| - 1 in S then c[|c| - 1] else 0
  }

  function Upto(n: nat): (S: set<nat>)
    ensures forall i: nat :: i in S <==> i < n
    ensures |S| == n
  {
    if n == 0 then {} else Upto(n - 1) + {n - 1}
  }

  // ---------------------------------------------------------------- arithmetic

  /** `k * x` by repeated addition; keeps products out of the inductive proofs. */
  function Times(k: nat, x: int): int {
    if k == 0 then 0 else Times(k - 1, x) + x
  }

  lemma {:induction false} TimesIsProduct(k: nat, x: int)
    ensures Times(k, x) == k * x
  {
    if k > 0 { TimesIsProduct(k - 1, x); }
  }

  lemma {:induction false} TimesNotPositive(k: nat, x: int)
    requires x <= 0
    ensures Times(k, x) <= 0
  {
    if k > 0 { TimesNotPositive(k - 1, x); }
  }

  lemma LedgerForcesPicks(W: int, x: int, p: int)
    requires W > 0 && x >= 0 && p >= 0 && Times(W, x) - Times(p, W) > -W
    ensures p <= x
  {
    TimesIsProduct(W, x);
    TimesIsProduct(p, W);
    assert W * (x - p) > W * -1;
  }

  lemma LedgerBalances(W: int, x: int, p: int)
    requires W > 0 && x >= 0 && p >= 0
    ensures Times(W, x) == Times(p, W) <==> p == x
  {
    TimesIsProduct(W, x);
    TimesIsProduct(p, W);
    assert W * x == W * p <==> W * (x - p) == 0;
  }

  // ---------------------------------------------------------------- one call, on integers

  ghost predicate Weights(w: seq<int>) {
    |w| >= 1 && Sum(w) > 0 && forall i :: 0 <= i < |w| ==> w[i] >= 0
  }

  function Charged(c: seq<int>, w: seq<int>): (d: seq<int>)
    requires |c| == |w|
    ensures |d| == |c|
  {
    seq(|c|, i requires 0 <= i < |c| => c[i] + w[i])
  }

  /** First index of the largest element. */
  function Best(d: seq<int>): (b: nat)
    requires |d| > 0
    ensures b < |d|
  {
    if |d| == 1 then 0
    else
      var b := Best(d[..|d| - 1]);
      if d[|d| - 1] > d[b] then |d| - 1 else b
  }

  lemma {:induction false} BestIsFirstLargest(d: seq<int>)
    requires |d| > 0
    ensures forall i :: 0 <= i < |d| ==> d[i] <= d[Best(d)]
    ensures forall i :: 0 <= i < Best(d) ==> d[i] < d[Best(d)]
  {
    if |d| > 1 {
      var e := d[..|d| - 1];
      BestIsFirstLargest(e);
      assert forall i :: 0 <= i < |e| ==> d[i] == e[i];
    }
  }

  function Step(c: seq<int>, w: seq<int>): (c': seq<int>)
    requires |c| == |w| > 0
    ensures |c'| == |w|
  {
    var d := Charged(c, w);
    var b := Best(d);
    d[b := d[b] - Sum(w)]
  }

  /** Counters after `t` calls. */
  function Run(w: seq<int>, t: nat): (c: seq<int>)
    requires |w| > 0
    ensures |c| == |w|
  {
    if t == 0 then seq(|w|, _ => 0) else Step(Run(w, t - 1), w)
  }

  /** Peer returned by call number `t`, counting from 0. */
  function Pick(w: seq<int>, t: nat): (b: nat)
    requires |w| > 0
    ensures b < |w|
  {
    Best(Charged(Run(w, t), w))
  }

  /** How often calls `s .. t` pick peer `i`. */
  function Picks(w: seq<int>, s: nat, t: nat, i: nat): (n: nat)
    requires |w| > 0 && s <= t
    ensures n <= t - s
    decreases t - s
  {
    if s == t then 0 else Picks(w, s, t - 1, i) + if Pick(w, t - 1) == i then 1 else 0
  }

  // ---------------------------------------------------------------- lemmas about sums

  lemma SumPrefix(w: seq<int>, i: nat)
    requires i < |w|
    ensures Sum(w[..i + 1]) == Sum(w[..i]) + w[i]
  {
    assert w[..i + 1][..i] == w[..i];
  }

  lemma {:induction false} SumOnAll(c: seq<int>, n: nat)
    requires |c| <= n
    ensures SumOn(c, Upto(n)) == Sum(c)
  {
    if |c| > 0 { SumOnAll(c[..|c| - 1], n); }
  }

  lemma {:induction false} SumOnCharged(c: seq<int>, w: seq<int>, S: set<nat>)
    requires |c| == |w|
    ensures SumOn(Charged(c, w), S) == SumOn(c, S) + SumOn(w, S)
  {
    if |c| > 0 {
      var m := |c| - 1;
      assert Charged(c, w)[..m] == Charged(c[..m], w[..m]);
      SumOnCharged(c[..m], w[..m], S);
    }
  }

  lemma {:induction false} SumOnUpdate(d: seq<int>, b: nat, x: int, S: set<nat>)
    requires b < |d|
    ensures SumOn(d[b := x], S) == SumOn(d, S) + if b in S then x - d[b] else 0
  {
    var m := |d| - 1;
    if b == m {
      assert d[b := x][..m] == d[..m];
    } else {
      assert d[b := x][..m] == d[..m][b := x];
      SumOnUpdate(d[..m], b, x, S);
    }
  }

  lemma {:induction false} SumOnInsert(d: seq<int>, b: nat, S: set<nat>)
    requires b !in S
    ensures SumOn(d, S + {b}) == SumOn(d, S) + if b < |d| then d[b] else 0
  {
    if |d| > 0 { SumOnInsert(d[..|d| - 1], b, S); }
  }

  lemma {:induction false} SumOnPart(w: seq<int>, S: set<nat>)
    requires forall i :: 0 <= i < |w| ==> w[i] >= 0
    ensures 0 <= SumOn(w, S) <= Sum(w)
  {
    if |w| > 0 { SumOnPart(w[..|w| - 1], S); }
  }

  lemma {:induction false} SumOnAtMost(d: seq<int>, S: set<nat>, x: int)
    requires forall i :: 0 <= i < |d| ==> d[i] <= x
    requires forall i :: i in S ==> i < |d|
    ensures SumOn(d, S) <= Times(|S|, x)
  {
    if |d| == 0 {
      assert S == {};
    } else {
      var m := |d| - 1;
      SumOnAtMost(d[..m], S - {m}, x);
      SumOnAgree(d[..m], S, S - {m});
      if m in S {
        assert |S - {m}| == |S| - 1;
      } else {
        assert S - {m} == S;
      }
    }
  }

  lemma {:induction false} SumOnAgree(d: seq<int>, S: set<nat>, T: set<nat>)
    requires forall i :: 0 <= i < |d| ==> (i in S <==> i in T)
    ensures SumOn(d, S) == SumOn(d, T)
  {
    if |d| > 0 { SumOnAgree(d[..|d| - 1], S, T); }
  }

  // ---------------------------------------------------------------- one call

  lemma StepAt(c: seq<int>, w: seq<int>, i: nat)
    requires |c| == |w| && i < |w|
    ensures Step(c, w)[i] == c[i] + w[i] - if Best(Charged(c, w)) == i then Sum(w) else 0
  {
  }

  lemma StepSum(c: seq<int>, w: seq<int>)
    requires |c| == |w| > 0
    ensures Sum(Step(c, w)) == Sum(c)
  {
    hide Sum, SumOn;
    var n, d := |w|, Charged(c, w);
    SumOnAll(Step(c, w), n);
    SumOnAll(c, n);
    SumOnAll(w, n);
    SumOnCharged(c, w, Upto(n));
    SumOnUpdate(d, Best(d), d[Best(d)] - Sum(w), Upto(n));
  }

  lemma PickedIsPositive(c: seq<int>, w: seq<int>)
    requires Weights(w) && |c| == |w| && Sum(c) == 0
    ensures Charged(c, w)[Best(Charged(c, w))] > 0
  {
    var n, d := |w|, Charged(c, w);
    SumOnAll(c, n);
    SumOnAll(w, n);
    SumOnAll(d, n);
    SumOnCharged(c, w, Upto(n));
    BestIsFirstLargest(d);
    SumOnAtMost(d, Upto(n), d[Best(d)]);
    if d[Best(d)] <= 0 { TimesNotPositive(n, d[Best(d)]); }
  }

  // ---------------------------------------------------------------- invariants of every call

  lemma {:induction false} SumOfZeros(n: nat, S: set<nat>)
    ensures SumOn(seq(n, _ => 0), S) == 0
  {
    if n > 0 {
      assert seq(n, _ => 0)[..n - 1] == seq(n - 1, _ => 0);
      SumOfZeros(n - 1, S);
    }
  }

  /** The counters always add up to zero. */
  lemma {:induction false} CountersSumToZero(w: seq<int>, t: nat)
    requires |w| > 0
    ensures Sum(Run(w, t)) == 0
  {
    if t == 0 {
      SumOnAll(Run(w, 0), |w|);
      SumOfZeros(|w|, Upto(|w|));
    } else {
      CountersSumToZero(w, t - 1);
      StepSum(Run(w, t - 1), w);
    }
  }

  /** No counter ever falls to minus the total weight. */
  lemma {:induction false} CountersAboveMinusTotal(w: seq<int>, t: nat, i: nat)
    requires Weights(w) && i < |w|
    ensures Run(w, t)[i] > -Sum(w)
  {
    hide Step, Sum;
    if t > 0 {
      CountersAboveMinusTotal(w, t - 1, i);
      CountersSumToZero(w, t - 1);
      PickedIsPositive(Run(w, t - 1), w);
      StepAt(Run(w, t - 1), w, i);
    }
  }

  // ---------------------------------------------------------------- exact fairness

  lemma RunStepAt(w: seq<int>, t: nat, i: nat)
    requires i < |w|
    ensures Run(w, t + 1)[i] == Run(w, t)[i] + w[i] - if Pick(w, t) == i then Sum(w) else 0
  {
    StepAt(Run(w, t), w, i);
  }

  /** A counter is what its weight earned minus what its picks cost. */
  lemma {:induction false} CounterLedger(w: seq<int>, s: nat, t: nat, i: nat)
    requires |w| > 0 && Sum(w) >= 0 && s <= t && i < |w|
    ensures Run(w, t)[i] == Run(w, s)[i] + Times(t - s, w[i]) - Times(Picks(w, s, t, i), Sum(w))
    decreases t - s
  {
    hide Run, Sum, Pick;
    if s < t {
      CounterLedger(w, s, t - 1, i);
      RunStepAt(w, t - 1, i);
      assert Times(t - s, w[i]) == Times(t - 1 - s, w[i]) + w[i];
    }
  }

  /** Every call picks exactly one peer. */
  lemma {:induction false} PicksAddUp(w: seq<int>, s: nat, t: nat)
    requires |w| > 0 && s <= t
    ensures Sum(PickTable(w, s, t)) == t - s
    decreases t - s
  {
    hide Sum, Pick;
    var n := |w|;
    SumOnAll(PickTable(w, s, t), n);
    if s == t {
      assert PickTable(w, s, t) == seq(n, _ => 0);
      SumOfZeros(n, Upto(n));
    } else {
      PicksAddUp(w, s, t - 1);
      var before := PickTable(w, s, t - 1);
      var p := Pick(w, t - 1);
      SumOnAll(before, n);
      SumOnUpdate(before, p, before[p] + 1, Upto(n));
      assert PickTable(w, s, t) == before[p := before[p] + 1];
    }
  }

  function PickTable(w: seq<int>, s: nat, t: nat): (p: seq<int>)
    requires |w| > 0 && s <= t
    ensures |p| == |w|
  {
    seq(|w|, i requires 0 <= i < |w| => Picks(w, s, t, i))
  }

  /** A sequence below another one with the same sum equals it. */
  lemma {:induction false} BelowWithSameSum(a: seq<int>, b: seq<int>)
    requires |a| == |b| && Sum(a) >= Sum(b)
    requires forall i :: 0 <= i < |a| ==> a[i] <= b[i]
    ensures a == b
  {
    if |a| > 0 {
      var m := |a| - 1;
      SumMonotone(a[..m], b[..m]);
      BelowWithSameSum(a[..m], b[..m]);
      assert a == a[..m] + [a[m]] && b == b[..m] + [b[m]];
    }
  }

  lemma {:induction false} SumMonotone(a: seq<int>, b: seq<int>)
    requires |a| == |b|
    requires forall i :: 0 <= i < |a| ==> a[i] <= b[i]
    ensures Sum(a) <= Sum(b)
  {
    if |a| > 0 { SumMonotone(a[..|a| - 1], b[..|b| - 1]); }
  }

  lemma StartsAtZero(w: seq<int>, i: nat)
    requires i < |w|
    ensures Run(w, 0)[i] == 0
  {
  }

  lemma FirstRoundPick(w: seq<int>, i: nat)
    requires Weights(w) && i < |w|
    ensures Picks(w, 0, Sum(w), i) <= w[i]
  {
    hide Run, Sum, Picks, Times;
    StartsAtZero(w, i);
    CounterLedger(w, 0, Sum(w), i);
    CountersAboveMinusTotal(w, Sum(w), i);
    LedgerForcesPicks(Sum(w), w[i], Picks(w, 0, Sum(w), i));
  }

  /** The first round of `Sum(w)` calls serves every peer exactly its weight. */
  lemma FirstRoundIsFair(w: seq<int>)
    requires Weights(w)
    ensures PickTable(w, 0, Sum(w)) == w
  {
    hide Run, Sum, Picks, Times;
    var p := PickTable(w, 0, Sum(w));
    forall i | 0 <= i < |w| ensures p[i] <= w[i] { FirstRoundPick(w, i); }
    PicksAddUp(w, 0, Sum(w));
    BelowWithSameSum(p, w);
  }

  /** ... and brings every counter back to zero. */
  lemma FirstRoundReturns(w: seq<int>)
    requires Weights(w)
    ensures Run(w, Sum(w)) == Run(w, 0)
  {
    hide Run, Sum, Picks, Times;
    FirstRoundIsFair(w);
    forall i | 0 <= i < |w| ensures Run(w, Sum(w))[i] == Run(w, 0)[i] {
      CounterLedger(w, 0, Sum(w), i);
      assert PickTable(w, 0, Sum(w))[i] == Picks(w, 0, Sum(w), i);
      LedgerBalances(Sum(w), w[i], Picks(w, 0, Sum(w), i));
    }
  }

  lemma {:induction false} CountersRepeat(w: seq<int>, t: nat)
    requires Weights(w)
    ensures Run(w, t + Sum(w)) == Run(w, t)
  {
    hide Step, Sum;
    if t == 0 {
      FirstRoundReturns(w);
    } else {
      CountersRepeat(w, t - 1);
      assert Run(w, t - 1 + Sum(w) + 1) == Step(Run(w, t - 1 + Sum(w)), w);
    }
  }

  /** The counters, and with them the picks, have period `Sum(w)`. */
  lemma Periodic(w: seq<int>, t: nat)
    requires Weights(w)
    ensures Run(w, t + Sum(w)) == Run(w, t)
    ensures Pick(w, t + Sum(w)) == Pick(w, t)
  {
    CountersRepeat(w, t);
  }

  /** Exact fairness: any `Sum(w)` consecutive calls pick peer `i` exactly `w[i]` times. */
  lemma Fair(w: seq<int>, s: nat, i: nat)
    requires Weights(w) && i < |w|
    ensures Picks(w, s, s + Sum(w), i) == w[i]
  {
    hide Run, Sum, Picks, Times;
    Periodic(w, s);
    CounterLedger(w, s, s + Sum(w), i);
    LedgerBalances(Sum(w), w[i], Picks(w, s, s + Sum(w), i));
  }

  /** A peer of weight zero is never picked. */
  lemma {:induction false} ZeroWeightNeverPicked(w: seq<int>, t: nat, i: nat)
    requires Weights(w) && i < |w| && w[i] == 0
    ensures Run(w, t)[i] == 0
    ensures Pick(w, t) != i
  {
    if t > 0 {
      ZeroWeightNeverPicked(w, t - 1, i);
      StepAt(Run(w, t - 1), w, i);
    }
    CountersSumToZero(w, t);
    PickedIsPositive(Run(w, t), w);
  }

  // ---------------------------------------------------------------- the cup-game bound

  /** `1/(k+1) + 1/(k+2) + ... + 1/n`. */
  function Tail(k: nat, n: nat): (h: real)
    ensures h >= 0.0
    decreases n - k
  {
    if k >= n then 0.0 else 1.0 / ((k + 1) as real) + Tail(k + 1, n)
  }

  function Bound(total: int, k: nat, n: nat): real {
    (k as real) * (total as real) * Tail(k, n)
  }

  /** `k` values summing to `x` and one more bringing the sum to `y`, no smaller than any of them. */
  predicate BelowAverage(k: nat, x: int, y: int) {
    Times(k + 1, x) <= Times(k, y)
  }

  lemma {:induction false} AddingTheLargest(k: nat, x: int, m: int)
    requires x <= Times(k, m)
    ensures BelowAverage(k, x, x + m)
  {
    TimesIsProduct(k + 1, x);
    TimesIsProduct(k, x + m);
    TimesIsProduct(k, m);
  }

  /** A table of bounds that is closed under leaving the picked peer out. */
  ghost predicate Shares(B: seq<real>, total: int) {
    forall k, x, y :: 0 <= k < |B| - 1 && BelowAverage(k, x, y) && y as real <= B[k + 1] + total as real
                      ==> x as real <= B[k]
  }

  function BoundTable(total: int, n: nat): (B: seq<real>)
    ensures |B| == n + 1
  {
    seq(n + 1, k requires 0 <= k <= n => Bound(total, k, n))
  }

  lemma BoundsShare(total: int, n: nat)
    ensures Shares(BoundTable(total, n), total)
  {
    var B := BoundTable(total, n);
    forall k, x, y | 0 <= k < n && BelowAverage(k, x, y) && y as real <= B[k + 1] + total as real
      ensures x as real <= B[k]
    {
      AverageInReals(k, x, y, B[k + 1] + total as real);
      BoundStep(total as real, k, n, Tail(k + 1, n), x as real);
    }
  }

  lemma AverageInReals(k: nat, x: int, y: int, z: real)
    requires BelowAverage(k, x, y) && y as real <= z
    ensures ((k + 1) as real) * (x as real) <= (k as real) * z
  {
    TimesIsProduct(k + 1, x);
    TimesIsProduct(k, y);
    ProductAsReal(k + 1, x);
    ProductAsReal(k, y);
    assert (k as real) * (y as real) <= (k as real) * z;
  }

  lemma {:induction false} ProductAsReal(k: nat, x: int)
    ensures (k * x) as real == (k as real) * (x as real)
  {
    if k > 0 {
      ProductAsReal(k - 1, x);
      assert k * x == (k - 1) * x + x;
      assert (k as real) * (x as real) == ((k - 1) as real) * (x as real) + x as real;
    }
  }

  /** The bound for `k` counters from the one for `k + 1`. */
  lemma BoundStep(W: real, k: nat, n: nat, h: real, x: real)
    requires ((k + 1) as real) * x <= (k as real) * (((k + 1) as real) * W * h + W)
    ensures x <= (k as real) * W * (1.0 / ((k + 1) as real) + h)
  {
    var kr, k1 := k as real, (k + 1) as real;
    calc {
      kr * (k1 * W * h + W);
      kr * W * (k1 * h + 1.0);
      { assert k1 * (1.0 / k1) == 1.0; }
      kr * W * (k1 * (1.0 / k1 + h));
      k1 * (kr * W * (1.0 / k1 + h));
    }
    CancelFactor(k1, x, kr * W * (1.0 / k1 + h));
  }

  lemma CancelFactor(a: real, x: real, y: real)
    requires a > 0.0 && a * x <= a * y
    ensures x <= y
  {
  }

  lemma BoundIsPositive(total: int, k: nat, n: nat)
    requires total >= 0
    ensures Bound(total, k, n) >= 0.0
  {
    assert (k as real) * (total as real) >= 0.0;
  }

  /** A subset holding the picked peer does not gain. */
  lemma PickedSubsetStep(c: seq<int>, w: seq<int>, S: set<nat>)
    requires Weights(w) && |c| == |w| && Best(Charged(c, w)) in S
    ensures SumOn(Step(c, w), S) <= SumOn(c, S)
  {
    var d := Charged(c, w);
    SumOnCharged(c, w, S);
    SumOnUpdate(d, Best(d), d[Best(d)] - Sum(w), S);
    SumOnPart(w, S);
  }

  /** A subset without the picked peer ends below its share of the subset with it. */
  lemma UnpickedSubsetStep(c: seq<int>, w: seq<int>, S: set<nat>) returns (y: int)
    requires Weights(w) && |c| == |w| && (forall i :: i in S ==> i < |w|)
    requires Best(Charged(c, w)) !in S
    ensures y <= SumOn(c, S + {Best(Charged(c, w))}) + Sum(w)
    ensures BelowAverage(|S|, SumOn(Step(c, w), S), y)
  {
    var d := Charged(c, w);
    var b := Best(d);
    SumOnUpdate(d, b, d[b] - Sum(w), S);
    SumOnCharged(c, w, S + {b});
    SumOnPart(w, S + {b});
    SumOnInsert(d, b, S);
    BestIsFirstLargest(d);
    SumOnAtMost(d, S, d[b]);
    AddingTheLargest(|S|, SumOn(d, S), d[b]);
    y := SumOn(d, S) + d[b];
  }

  lemma {:induction false} SubsetBoundBy(w: seq<int>, t: nat, S: set<nat>, B: seq<real>)
    requires Weights(w)
    requires forall i :: i in S ==> i < |w|
    requires |B| == |w| + 1 && Shares(B, Sum(w)) && forall k :: 0 <= k < |B| ==> B[k] >= 0.0
    ensures |S| <= |w| && SumOn(Run(w, t), S) as real <= B[|S|]
    decreases t
  {
    hide Step, Sum, Charged;
    SubsetCardinality(S, |w|);
    if t == 0 {
      SumOfZeros(|w|, S);
    } else {
      var c := Run(w, t - 1);
      var b := Best(Charged(c, w));
      if b in S {
        SubsetBoundBy(w, t - 1, S, B);
        PickedSubsetStep(c, w, S);
      } else {
        SubsetBoundBy(w, t - 1, S + {b}, B);
        var y := UnpickedSubsetStep(c, w, S);
      }
    }
  }

  /** After every call, any `k` counters together hold at most `k * W * (1/(k+1) + ... + 1/n)`. */
  lemma SubsetBound(w: seq<int>, t: nat, S: set<nat>)
    requires Weights(w)
    requires forall i :: i in S ==> i < |w|
    ensures SumOn(Run(w, t), S) as real <= Bound(Sum(w), |S|, |w|)
  {
    var B := BoundTable(Sum(w), |w|);
    BoundsShare(Sum(w), |w|);
    forall k | 0 <= k < |B| ensures B[k] >= 0.0 { BoundIsPositive(Sum(w), k, |w|); }
    SubsetBoundBy(w, t, S, B);
  }

  lemma {:induction false} SubsetCardinality(S: set<nat>, n: nat)
    requires forall i :: i in S ==> i < n
    ensures |S| <= n
  {
    if n == 0 {
      assert S == {};
    } else {
      SubsetCardinality(S - {n - 1}, n - 1);
      if n - 1 in S { assert |S - {n - 1}| == |S| - 1; } else { assert S - {n - 1} == S; }
    }
  }

  // ---------------------------------------------------------------- 16-bit counters

  predicate InI16(x: int) {
    -32768 <= x <= 32767
  }

  /** Two's complement value of the low 16 bits: `i16` addition in a release build. */
  function Wrap16(x: int): (r: int)
    ensures InI16(r)
    ensures InI16(x) ==> r == x
  {
    var m := x % 65536;
    if m >= 32768 then m - 65536 else m
  }

  lemma WrapAdd(x: int, y: int)
    ensures Wrap16(Wrap16(x) + y) == Wrap16(x + y)
  {
  }

  lemma WrapSub(x: int, y: int)
    ensures Wrap16(x - Wrap16(y)) == Wrap16(x - y)
  {
  }

  function WrapCharged(c: seq<int>, w: seq<int>): (d: seq<int>)
    requires |c| == |w|
    ensures |d| == |c|
  {
    seq(|c|, i requires 0 <= i < |c| => Wrap16(c[i] + w[i]))
  }

  function WrapStep(c: seq<int>, w: seq<int>): (c': seq<int>)
    requires |c| == |w| > 0
    ensures |c'| == |w|
  {
    var d := WrapCharged(c, w);
    var b := Best(d);
    d[b := Wrap16(d[b] - Wrap16(Sum(w)))]
  }

  /** Counters of the program after `t` calls. */
  function WrapRun(w: seq<int>, t: nat): (c: seq<int>)
    requires |w| > 0
    ensures |c| == |w|
  {
    if t == 0 then seq(|w|, _ => 0) else WrapStep(WrapRun(w, t - 1), w)
  }

  /** Peer the program returns from call number `t`. */
  function WrapPick(w: seq<int>, t: nat): (b: nat)
    requires |w| > 0
    ensures b < |w|
  {
    Best(WrapCharged(WrapRun(w, t), w))
  }

  function WrapPicks(w: seq<int>, s: nat, t: nat, i: nat): (n: nat)
    requires |w| > 0 && s <= t
    decreases t - s
  {
    if s == t then 0 else WrapPicks(w, s, t - 1, i) + if WrapPick(w, t - 1) == i then 1 else 0
  }

  /** The counters are in range before call number `t` and once it has added the weights. */
  ghost predicate FitsAt(w: seq<int>, t: nat)
    requires |w| > 0
  {
    forall i :: 0 <= i < |w| ==> InI16(Run(w, t)[i]) && InI16(Run(w, t)[i] + w[i])
  }

  /** No counter ever leaves the 16-bit range, before or after the pick of a call. */
  ghost predicate Fits(w: seq<int>)
    requires |w| > 0
  {
    forall t: nat :: FitsAt(w, t)
  }

  lemma WrapStepTracks(c: seq<int>, w: seq<int>)
    requires |c| == |w| > 0
    requires forall i :: 0 <= i < |w| ==> InI16(c[i] + w[i]) && InI16(Step(c, w)[i])
    ensures WrapCharged(c, w) == Charged(c, w)
    ensures WrapStep(c, w) == Step(c, w)
  {
    var d := Charged(c, w);
    assert WrapCharged(c, w) == d;
    var b := Best(d);
    assert Step(c, w)[b] == d[b] - Sum(w);
    WrapSub(d[b], Sum(w));
  }

  /** As long as nothing leaves the 16-bit range, the program follows the integer algorithm. */
  lemma {:induction false} WrapRunTracks(w: seq<int>, t: nat)
    requires |w| > 0 && Fits(w)
    ensures WrapRun(w, t) == Run(w, t)
    ensures WrapPick(w, t) == Pick(w, t)
  {
    hide Step, WrapStep, Charged, WrapCharged, Sum, Fits;
    if t > 0 {
      WrapRunTracks(w, t - 1);
      StepTracksAt(w, t - 1);
      assert WrapRun(w, t) == WrapStep(WrapRun(w, t - 1), w);
    }
    StepTracksAt(w, t);
  }

  lemma WrapRunStep(w: seq<int>, t: nat)
    requires |w| > 0
    ensures WrapRun(w, t + 1) == WrapStep(WrapRun(w, t), w)
  {
  }

  lemma StepTracksAt(w: seq<int>, t: nat)
    requires |w| > 0 && Fits(w)
    ensures WrapCharged(Run(w, t), w) == Charged(Run(w, t), w)
    ensures WrapStep(Run(w, t), w) == Run(w, t + 1)
  {
    var c := Run(w, t);
    assert Run(w, t + 1) == Step(c, w);
    assert FitsAt(w, t) && FitsAt(w, t + 1);
    WrapStepTracks(c, w);
  }

  predicate HarmonicRange(total: int, n: nat) {
    (total as real) * (1.0 + Tail(1, n)) <= 32767.0
  }

  lemma CounterInRange(w: seq<int>, t: nat, i: nat)
    requires Weights(w) && i < |w|
    requires HarmonicRange(Sum(w), |w|)
    ensures InI16(Run(w, t)[i]) && InI16(Run(w, t)[i] + w[i])
  {
    hide Run, Sum, Tail;
    RangeSplits(Sum(w) as real, Tail(1, |w|));
    CounterUpperBound(w, t, i);
    CountersAboveMinusTotal(w, t, i);
    WeightBelowTotal(w, i);
  }

  /** The cup-game bound for one counter keeps it in range when `W * (1 + 1/2 + ... + 1/n) <= 32767`. */
  lemma HarmonicFits(w: seq<int>)
    requires Weights(w)
    requires HarmonicRange(Sum(w), |w|)
    ensures Fits(w)
  {
    hide HarmonicRange;
    forall t: nat, i | 0 <= i < |w|
      ensures InI16(Run(w, t)[i]) && InI16(Run(w, t)[i] + w[i])
    {
      CounterInRange(w, t, i);
    }
  }

  lemma RangeSplits(W: real, h: real)
    requires W >= 0.0 && h >= 0.0
    ensures W * h >= 0.0
    ensures W * (1.0 + h) == W + W * h
  {
    assert W * h >= 0.0;
  }

  lemma CounterUpperBound(w: seq<int>, t: nat, i: nat)
    requires Weights(w) && i < |w|
    ensures Run(w, t)[i] as real <= (Sum(w) as real) * Tail(1, |w|)
  {
    hide Run;
    SubsetBound(w, t, {i});
    SumOnSingleton(Run(w, t), i);
    assert Bound(Sum(w), 1, |w|) == (Sum(w) as real) * Tail(1, |w|);
  }

  lemma SumOnSingleton(c: seq<int>, i: nat)
    requires i < |c|
    ensures SumOn(c, {i}) == c[i]
  {
    SumOnInsert(c, i, {});
    SumOnNothing(c);
    assert {} + {i} == {i};
  }

  lemma {:induction false} SumOnNothing(c: seq<int>)
    ensures SumOn(c, {}) == 0
  {
    if |c| > 0 { SumOnNothing(c[..|c| - 1]); }
  }

  lemma WeightBelowTotal(w: seq<int>, i: nat)
    requires (forall j :: 0 <= j < |w| ==> w[j] >= 0) && i < |w|
    ensures w[i] <= Sum(w)
  {
    SumOnPart(w, {i});
    SumOnSingleton(w, i);
  }

  /** In particular when the number of peers times the total weight is at most 32767. */
  lemma ProductFits(w: seq<int>)
    requires Weights(w) && |w| * Sum(w) <= 32767
    ensures Fits(w)
  {
    hide HarmonicRange, Sum, Run, Fits;
    ProductRange(|w|, Sum(w));
    HarmonicFits(w);
  }

  lemma ProductRange(n: nat, total: int)
    requires n >= 1 && total >= 0 && n * total <= 32767
    ensures HarmonicRange(total, n)
  {
    TailBelow(1, n);
    ProductAsReal(n, total);
    LargerFactor(total as real, 1.0 + Tail(1, n), n as real);
  }

  lemma LargerFactor(a: real, x: real, y: real)
    requires a >= 0.0 && x <= y
    ensures a * x <= a * y
  {
  }

  lemma {:induction false} TailBelow(k: nat, n: nat)
    requires k <= n
    ensures Tail(k, n) <= (n - k) as real
    decreases n - k
  {
    if k < n {
      TailBelow(k + 1, n);
      assert 1.0 / ((k + 1) as real) <= 1.0;
    }
  }

  /** Exact fairness of the program: with 16-bit counters that fit, any `Sum(w)` consecutive
      calls return peer `i` exactly `w[i]` times, and the sequence has period `Sum(w)`. */
  lemma FairWhenFits(w: seq<int>, s: nat, i: nat)
    requires Weights(w) && i < |w| && Fits(w)
    ensures WrapPicks(w, s, s + Sum(w), i) == w[i]
    ensures WrapPick(w, s + Sum(w)) == WrapPick(w, s)
  {
    hide Run, WrapRun, Sum, Picks, WrapPicks, Pick, WrapPick, Fits;
    Fair(w, s, i);
    WrapPicksTrack(w, s, s + Sum(w), i);
    Periodic(w, s);
    WrapRunTracks(w, s);
    WrapRunTracks(w, s + Sum(w));
  }

  /** The same for a caller who can only look at the weights. */
  lemma ProgramIsFair(w: seq<int>, s: nat, i: nat)
    requires Weights(w) && i < |w| && |w| * Sum(w) <= 32767
    ensures WrapPicks(w, s, s + Sum(w), i) == w[i]
    ensures WrapPick(w, s + Sum(w)) == WrapPick(w, s)
  {
    hide Run, WrapRun, Sum, Picks, WrapPicks, Pick, WrapPick, Fits;
    ProductFits(w);
    FairWhenFits(w, s, i);
  }

  lemma {:induction false} WrapPicksTrack(w: seq<int>, s: nat, t: nat, i: nat)
    requires |w| > 0 && s <= t && Fits(w)
    ensures WrapPicks(w, s, t, i) == Picks(w, s, t, i)
    decreases t - s
  {
    hide Run, WrapRun, Pick, WrapPick, Fits;
    if s < t {
      WrapPicksTrack(w, s, t - 1, i);
      WrapRunTracks(w, t - 1);
    }
  }

  // ---------------------------------------------------------------- beyond the range

  /** Whether weights fit shows in one round of `Sum(w)` calls. */
  lemma FitsInOneRound(w: seq<int>)
    requires Weights(w)
    ensures Fits(w) <==> forall t: nat :: t < Sum(w) ==> FitsAt(w, t)
  {
    hide Run, Sum;
    if !Fits(w) {
      var t: nat :| !FitsAt(w, t);
      var r := RoundAgain(w, t);
      assert !FitsAt(w, r);
    }
  }

  /** Every state of the counters occurs in the first round. */
  lemma {:induction false} RoundAgain(w: seq<int>, t: nat) returns (r: nat)
    requires Weights(w)
    ensures r < Sum(w) && Run(w, t) == Run(w, r)
  {
    hide Run, Sum;
    if t >= Sum(w) {
      Periodic(w, t - Sum(w));
      r := RoundAgain(w, t - Sum(w));
    } else {
      r := t;
    }
  }

  lemma FirstOfMaxima(d: seq<int>, b: nat)
    requires b < |d|
    requires forall i :: 0 <= i < |d| ==> d[i] <= d[b]
    requires forall i :: 0 <= i < b ==> d[i] < d[b]
    ensures Best(d) == b
  {
    BestIsFirstLargest(d);
  }

  lemma WrapPrefix(w: seq<int>, i: nat)
    requires i < |w|
    ensures Wrap16(Wrap16(Sum(w[..i])) + w[i]) == Wrap16(Sum(w[..i + 1]))
  {
    WrapAdd(Sum(w[..i]), w[i]);
    SumPrefix(w, i);
  }

  /** The counters `now` while the loop is at peer `n`, on its way from `c` to `d`. */
  ghost predicate Halfway(now: seq<int>, c: seq<int>, d: seq<int>, n: nat) {
    |now| == |c| == |d| && forall j :: 0 <= j < |now| ==> now[j] == if j < n then d[j] else c[j]
  }

  lemma HalfwayOn(now: seq<int>, c: seq<int>, d: seq<int>, w: seq<int>, n: nat, b: nat)
    requires |c| == |w| && d == WrapCharged(c, w) && Halfway(now, c, d, n) && n < |c|
    ensures Wrap16(now[n] + w[n]) == d[n] && Halfway(now[n := d[n]], c, d, n + 1)
    ensures b < n ==> now[n := d[n]][b] == d[b]
  {
  }

  lemma HalfwayEnds(now: seq<int>, c: seq<int>, d: seq<int>)
    requires Halfway(now, c, d, |c|)
    ensures now == d
  {
  }

  /** `b` is the first largest of the first `n` counters. */
  ghost predicate Leads(d: seq<int>, n: nat, b: nat) {
    b < n <= |d| && forall j :: 0 <= j < n ==> d[j] <= d[b] && (j < b ==> d[j] < d[b])
  }

  lemma LeadsOn(d: seq<int>, n: nat, b: nat)
    requires n < |d| && b < |d| && (n == 0 || Leads(d, n, b))
    ensures Leads(d, n + 1, if n == 0 || d[n] > d[b] then n else b)
  {
  }

  lemma LeaderIsBest(d: seq<int>, b: nat)
    requires Leads(d, |d|, b)
    ensures Best(d) == b
  {
    FirstOfMaxima(d, b);
  }

  // ---------------------------------------------------------------- the balancer object

  /** `ew`, `weight` and `token` are bytes in the program. */
  datatype Node = Node(cw: int, ew: int, weight: int, token: int)

  predicate IsByte(x: int) {
    0 <= x <= 255
  }

  class Balancer {
    const total: nat
    const nodes: array<Node>
    ghost const weights: seq<int>
    ghost var calls: nat
    ghost var counters: seq<int>

    ghost predicate Holds(c: seq<int>)
      reads nodes
    {
      && |c| == |weights| == nodes.Length
      && forall i :: 0 <= i < nodes.Length ==> nodes[i] == Node(c[i], weights[i], weights[i], i)
    }

    /** The nodes hold the counters of `calls` calls, and nothing else ever changes. */
    ghost predicate Valid()
      reads this, nodes
    {
      && total == |weights|
      && if total <= 1 then nodes.Length == 0 else Holds(counters) && counters == WrapRun(weights, calls)
    }

    constructor (w: seq<int>)
      requires |w| <= 255 && forall i :: 0 <= i < |w| ==> IsByte(w[i])
      ensures Valid() && fresh(nodes) && weights == w && calls == 0
    {
      total, weights, calls := |w|, w, 0;
      counters := seq(|w|, _ => 0);
      if |w| <= 1 {
        nodes := new Node[0];
      } else {
        nodes := new Node[|w|](i requires 0 <= i < |w| => Node(0, w[i], w[i], i));
      }
    }

    /** The loop body for peer `i`: adds its weight. A peer whose `ew` is below its weight
        recovers one step; none is, since `ew` starts at the weight. */
    method ChargeOne(i: nat, ghost c: seq<int>) returns (cw: int)
      requires Holds(c) && i < |c|
      modifies nodes
      ensures cw == Wrap16(c[i] + weights[i]) && Holds(c[i := cw])
    {
      var p := nodes[i];
      cw := Wrap16(p.cw + p.ew);
      nodes[i] := p.(cw := cw, ew := if p.ew < p.weight then p.ew + 1 else p.ew);
    }

    /** One turn of the loop: charges peer `i` and keeps the first largest counter so far. */
    method Visit(i: nat, tw: int, best: nat, ghost now: seq<int>, ghost c: seq<int>, ghost d: seq<int>)
      returns (tw': int, best': nat, ghost now': seq<int>)
      requires Holds(now) && i < nodes.Length && best < nodes.Length && |c| == |weights| && d == WrapCharged(c, weights)
      requires Halfway(now, c, d, i) && (i > 0 ==> best < i && Leads(d, i, best))
      modifies nodes
      ensures tw' == Wrap16(tw + weights[i])
      ensures Holds(now') && Halfway(now', c, d, i + 1)
      ensures best' <= i && Leads(d, i + 1, best')
    {
      HalfwayOn(now, c, d, weights, i, best);
      LeadsOn(d, i, best);
      hide Wrap16, WrapCharged, Leads, Halfway;
      tw' := Wrap16(tw + nodes[i].ew);
      var cw := ChargeOne(i, now);
      now' := now[i := cw];
      best' := if i == 0 || cw > nodes[best].cw then i else best;
    }

    /** The loop of one call: adds every weight, and remembers the first largest counter. */
    method Charge(ghost c: seq<int>) returns (tw: int, best: nat)
      requires Holds(c) && |c| > 0
      modifies nodes
      ensures Holds(WrapCharged(c, weights))
      ensures tw == Wrap16(Sum(weights)) && best == Best(WrapCharged(c, weights))
    {
      ghost var d := WrapCharged(c, weights);
      assert Wrap16(Sum(weights[..0])) == 0;
      assert Halfway(c, c, d, 0);
      assert nodes.Length == |weights| == |c|;
      hide Sum, Wrap16, Best, WrapCharged, Leads, Halfway, Holds;
      tw, best := 0, 0;
      ghost var now := c;
      for i := 0 to nodes.Length
        invariant tw == Wrap16(Sum(weights[..i]))
        invariant best < nodes.Length && (i > 0 ==> best < i && Leads(d, i, best))
        invariant Holds(now) && Halfway(now, c, d, i)
      {
        WrapPrefix(weights, i);
        tw, best, now := Visit(i, tw, best, now, c, d);
      }
      assert weights[..nodes.Length] == weights;
      HalfwayEnds(now, c, d);
      LeaderIsBest(d, best);
    }

    /** Writes one counter. */
    method Put(b: nat, x: int, ghost d: seq<int>)
      requires Holds(d) && b < |d|
      modifies nodes
      ensures Holds(d[b := x])
    {
      nodes[b] := nodes[b].(cw := x);
    }

    /** The call with two peers or more. */
    method Rotate() returns (token: int)
      requires |weights| > 0 && Holds(counters)
      modifies this`counters, nodes
      ensures counters == WrapStep(old(counters), weights) && Holds(counters)
      ensures token == Best(WrapCharged(old(counters), weights))
    {
      hide Best, Sum, Wrap16;
      ghost var d := WrapCharged(counters, weights);
      var tw, best := Charge(counters);
      Put(best, Wrap16(nodes[best].cw - tw), d);
      token := nodes[best].token;
      counters := d[best := Wrap16(d[best] - tw)];
    }

    /** One call under the lock. */
    method Next() returns (token: int)
      requires Valid()
      modifies this`calls, this`counters, nodes
      ensures Valid() && calls == old(calls) + 1
      ensures token == if |weights| <= 1 then 0 else WrapPick(weights, old(calls))
    {
      hide WrapRun, WrapStep, WrapCharged, Best;
      if total <= 1 {
        token := 0;
      } else {
        WrapRunStep(weights, calls);
        token := Rotate();
      }
      calls := calls + 1;
    }
  }
}
