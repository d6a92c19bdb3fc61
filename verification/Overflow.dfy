/** When the 16-bit counters of the balancer leave their range, and what that does to fairness.

    `Debt` is what a counter would be without wrap-around, given the peers the program really returns: the
    counter is its low 16 bits, and its level says how often it has wrapped. */
module Overflow {
  import opened RoundRobin

  /** In the first round every peer is returned as often as its weight says. */
  ghost predicate FairRound(w: seq<int>)
    requires |w| > 0 && Sum(w) >= 0
  {
    forall i :: 0 <= i < |w| ==> WrapPicks(w, 0, Sum(w), i) == w[i]
  }

  ghost function Debt(w: seq<int>, t: nat): (c: seq<int>)
    requires |w| > 0
    ensures |c| == |w|
  {
    if t == 0 then seq(|w|, _ => 0)
    else
      var d := Charged(Debt(w, t - 1), w);
      d[WrapPick(w, t - 1) := d[WrapPick(w, t - 1)] - Sum(w)]
  }

  lemma DebtStep(w: seq<int>, t: nat, i: nat)
    requires i < |w|
    ensures Debt(w, t + 1)[i] == Debt(w, t)[i] + w[i] - if WrapPick(w, t) == i then Sum(w) else 0
  {
    hide Sum, WrapPick;
  }

  lemma WrapRunStep(w: seq<int>, t: nat, i: nat)
    requires i < |w|
    ensures var d := WrapCharged(WrapRun(w, t), w);
            WrapRun(w, t + 1)[i] == if WrapPick(w, t) == i then Wrap16(d[i] - Wrap16(Sum(w))) else d[i]
  {
    hide Sum, Wrap16, Best, WrapCharged;
  }

  lemma WrapChargedAt(c: seq<int>, w: seq<int>, i: nat)
    requires |c| == |w| && i < |w|
    ensures WrapCharged(c, w)[i] == Wrap16(c[i] + w[i])
  {
    hide Wrap16;
  }

  lemma DebtStarts(w: seq<int>, i: nat)
    requires i < |w|
    ensures WrapRun(w, 0)[i] == 0 == Debt(w, 0)[i]
  {
  }

  /** A counter holds the low 16 bits of its debt, before and after a call has added the weights. */
  lemma {:induction false} DebtWraps(w: seq<int>, t: nat, i: nat)
    requires i < |w|
    ensures WrapRun(w, t)[i] == Wrap16(Debt(w, t)[i])
    ensures WrapCharged(WrapRun(w, t), w)[i] == Wrap16(Debt(w, t)[i] + w[i])
  {
    hide Sum, WrapRun, WrapCharged, Debt, WrapPick, Wrap16;
    if t == 0 {
      DebtStarts(w, i);
    } else {
      DebtWraps(w, t - 1, i);
      DebtStep(w, t - 1, i);
      WrapRunStep(w, t - 1, i);
      var x := Debt(w, t - 1)[i] + w[i];
      WrapSub(Wrap16(x), Sum(w));
      WrapAdd(x, -Sum(w));
    }
    WrapChargedAt(WrapRun(w, t), w, i);
    WrapAdd(Debt(w, t)[i], w[i]);
  }

  /** A debt is what the weight has earned minus what the picks have cost. */
  lemma {:induction false} DebtLedger(w: seq<int>, t: nat, i: nat)
    requires i < |w|
    ensures Debt(w, t)[i] == Times(t, w[i]) - Times(WrapPicks(w, 0, t, i), Sum(w))
  {
    hide Sum, WrapPick;
    if t > 0 {
      DebtLedger(w, t - 1, i);
      DebtStep(w, t - 1, i);
    }
  }

  lemma {:induction false} DebtsSumToZero(w: seq<int>, t: nat)
    requires |w| > 0
    ensures Sum(Debt(w, t)) == 0
  {
    hide Sum, SumOn, WrapPick;
    var n := |w|;
    SumOnAll(Debt(w, t), n);
    if t == 0 {
      SumOfZeros(n, Upto(n));
    } else {
      DebtsSumToZero(w, t - 1);
      var d := Charged(Debt(w, t - 1), w);
      var b := WrapPick(w, t - 1);
      SumOnAll(Debt(w, t - 1), n);
      SumOnAll(w, n);
      SumOnCharged(Debt(w, t - 1), w, Upto(n));
      SumOnUpdate(d, b, d[b] - Sum(w), Upto(n));
    }
  }

  /** After a fair round every debt is paid. */
  lemma PaidInFull(w: seq<int>, i: nat)
    requires Weights(w) && FairRound(w) && i < |w|
    ensures Debt(w, Sum(w))[i] == 0
  {
    hide Sum, WrapPicks, Debt;
    DebtLedger(w, Sum(w), i);
    LedgerBalances(Sum(w), w[i], w[i]);
  }

  /** The last call of a fair round finds one debt equal to the total and all others zero. */
  lemma LastCall(w: seq<int>, i: nat)
    requires Weights(w) && FairRound(w) && i < |w|
    ensures Debt(w, Sum(w) - 1)[i] + w[i] == if WrapPick(w, Sum(w) - 1) == i then Sum(w) else 0
  {
    hide Sum, WrapPicks, Debt, WrapPick;
    PaidInFull(w, i);
    DebtStep(w, Sum(w) - 1, i);
  }

  /** The peer a call returns has the largest counter. */
  lemma PickIsLargest(w: seq<int>, t: nat, i: nat)
    requires i < |w|
    ensures Wrap16(Debt(w, t)[i] + w[i]) <= Wrap16(Debt(w, t)[WrapPick(w, t)] + w[WrapPick(w, t)])
  {
    hide Debt, Wrap16;
    var d := WrapCharged(WrapRun(w, t), w);
    BestIsFirstLargest(d);
    DebtWraps(w, t, i);
    DebtWraps(w, t, WrapPick(w, t));
  }

  // ---------------------------------------------------------------- totals above the range

  /** Counters that fit bound the total. */
  lemma FittingTotals(w: seq<int>)
    requires Weights(w) && Fits(w)
    ensures Sum(w) <= 32767
  {
    hide Sum, Run;
    FirstRoundReturns(w);
    var t := Sum(w) - 1;
    var b := Pick(w, t);
    RunStepAt(w, t, b);
    StartsAtZero(w, b);
    assert FitsAt(w, t);
  }

  /** With a total above the range no round is fair: the counter that should be the only one above zero before
      the last call reads as negative. */
  lemma LargeTotalsAreUnfair(w: seq<int>)
    requires Weights(w) && |w| >= 2 && 32767 < Sum(w) < 65536
    ensures !Fits(w) && !FairRound(w)
  {
    hide Sum, WrapPicks, Debt, WrapPick;
    if Fits(w) {
      FittingTotals(w);
    }
    if FairRound(w) {
      var b := WrapPick(w, Sum(w) - 1);
      var i := if b == 0 then 1 else 0;
      LastCall(w, b);
      LastCall(w, i);
      PickIsLargest(w, Sum(w) - 1, i);
    }
  }

  // ---------------------------------------------------------------- levels

  /** How often a value has left the range upwards. */
  function Level(x: int): int {
    (x + 32768) / 65536
  }

  lemma Levelled(x: int)
    ensures Wrap16(x) == x - 65536 * Level(x)
    ensures Level(x) == 0 <==> InI16(x)
  {
  }

  ghost function Levels(c: seq<int>): (l: seq<int>)
    ensures |l| == |c| && forall i :: 0 <= i < |c| ==> l[i] == Level(c[i])
  {
    seq(|c|, i requires 0 <= i < |c| => Level(c[i]))
  }

  ghost function Wrapped(c: seq<int>): (d: seq<int>)
    ensures |d| == |c| && forall i :: 0 <= i < |c| ==> d[i] == Wrap16(c[i])
  {
    seq(|c|, i requires 0 <= i < |c| => Wrap16(c[i]))
  }

  lemma {:induction false} LevelsSum(c: seq<int>)
    ensures Sum(Wrapped(c)) == Sum(c) - 65536 * Sum(Levels(c))
  {
    hide Level, Wrap16;
    if c != [] {
      var n := |c| - 1;
      LevelsSum(c[..n]);
      assert Wrapped(c)[..n] == Wrapped(c[..n]) && Levels(c)[..n] == Levels(c[..n]);
      Levelled(c[n]);
    }
  }

  lemma {:induction false} SumOfEqual(n: nat, x: int)
    ensures Sum(seq(n, _ => x)) == Times(n, x)
  {
    if n > 0 {
      assert seq(n, _ => x)[..n - 1] == seq(n - 1, _ => x);
      SumOfEqual(n - 1, x);
    }
  }

  lemma SumOfNothing(n: nat)
    ensures Sum(seq(n, _ => 0)) == 0
  {
    SumOfEqual(n, 0);
    TimesIsProduct(n, 0);
  }

  /** Before the pick of a call: the counters, read without their levels, add up to the total minus the levels. */
  lemma ChargedSum(w: seq<int>, t: nat)
    requires |w| > 0
    ensures Sum(Wrapped(Charged(Debt(w, t), w))) == Sum(w) - 65536 * Sum(Levels(Charged(Debt(w, t), w)))
  {
    hide Sum, SumOn, Debt, Level, Wrap16;
    var n, c := |w|, Debt(w, t);
    DebtsSumToZero(w, t);
    LevelsSum(Charged(c, w));
    SumOnAll(Charged(c, w), n);
    SumOnAll(c, n);
    SumOnAll(w, n);
    SumOnCharged(c, w, Upto(n));
  }

  /** A pick leaves all levels alone, or lowers one by one when every counter reads as negative. */
  lemma PickLevel(x: int, total: int)
    requires 0 < total <= 32767
    ensures Level(x - total) == Level(x) || (Level(x - total) == Level(x) - 1 && Wrap16(x) < 0)
  {
  }

  /** The levels never add up to less than zero. */
  lemma {:induction false} LevelsStayUp(w: seq<int>, t: nat)
    requires Weights(w) && Sum(w) <= 32767
    ensures Sum(Levels(Debt(w, t))) >= 0
  {
    hide Sum, Level, Wrap16, WrapPick;
    if t == 0 {
      assert Levels(Debt(w, 0)) == seq(|w|, _ => 0) by { Levelled(0); }
      SumOfNothing(|w|);
    } else {
      LevelsStayUp(w, t - 1);
      var c := Debt(w, t - 1);
      var d := Charged(c, w);
      var b := WrapPick(w, t - 1);
      ChargeLifts(c, w);
      PickLevel(d[b], Sum(w));
      ChargedSum(w, t - 1);
      assert Levels(Debt(w, t)) == Levels(d)[b := Level(d[b] - Sum(w))];
      SumUpdate(Levels(d), b, Level(d[b] - Sum(w)));
      hide Debt;
      if Sum(Levels(d)) <= 0 {
        PositivePick(w, t - 1);
      }
    }
  }

  lemma SumUpdate(d: seq<int>, b: nat, x: int)
    requires b < |d|
    ensures Sum(d[b := x]) == Sum(d) + x - d[b]
  {
    hide Sum, SumOn;
    SumOnAll(d, |d|);
    SumOnAll(d[b := x], |d|);
    SumOnUpdate(d, b, x, Upto(|d|));
  }

  lemma ChargeLifts(c: seq<int>, w: seq<int>)
    requires |c| == |w| && forall i :: 0 <= i < |w| ==> w[i] >= 0
    ensures forall i :: 0 <= i < |w| ==> Levels(c)[i] <= Levels(Charged(c, w))[i]
    ensures Sum(Levels(c)) <= Sum(Levels(Charged(c, w)))
  {
    hide Sum;
    SumMonotone(Levels(c), Levels(Charged(c, w)));
  }

  /** When the counters add up to something positive, the one picked is positive. */
  lemma PositivePick(w: seq<int>, t: nat)
    requires Weights(w) && Sum(Levels(Charged(Debt(w, t), w))) <= 0
    ensures Wrap16(Debt(w, t)[WrapPick(w, t)] + w[WrapPick(w, t)]) > 0
  {
    hide Sum, Debt, WrapPick, Level, Wrap16;
    var d := Wrapped(Charged(Debt(w, t), w));
    ChargedSum(w, t);
    if d[WrapPick(w, t)] <= 0 {
      forall i | 0 <= i < |d| ensures d[i] <= 0 {
        PickIsLargest(w, t, i);
      }
      var zeros := seq(|d|, _ => 0);
      SumMonotone(d, zeros);
      SumOfNothing(|d|);
    }
  }

  // ---------------------------------------------------------------- the last wrap of a fair round

  /** No counter has wrapped once call `t` has added the weights. */
  ghost predicate Unwrapped(w: seq<int>, t: nat)
    requires |w| > 0
  {
    forall i :: 0 <= i < |w| ==> InI16(Debt(w, t)[i] + w[i])
  }

  /** If nothing has wrapped in call `t + 1`, nothing had in what call `t` left. */
  lemma UnwrappedBefore(w: seq<int>, t: nat, i: nat)
    requires Weights(w) && Sum(w) <= 32767 && Unwrapped(w, t + 1) && i < |w|
    ensures InI16(Debt(w, t + 1)[i])
  {
    hide Sum, Debt, Level;
    var c := Debt(w, t + 1);
    var d := Charged(c, w);
    LevelsStayUp(w, t + 1);
    ChargeLifts(c, w);
    forall j | 0 <= j < |w| ensures Levels(d)[j] == 0 {
      Levelled(d[j]);
    }
    var zeros := seq(|w|, _ => 0);
    assert Levels(d) == zeros;
    SumOfNothing(|w|);
    BelowWithSameSum(Levels(c), zeros);
    Levelled(c[i]);
  }

  /** What is left after the last call in which a counter had wrapped: the peer returned is far above zero, and
      all others are as far below as it was from the end of the second range. */
  lemma LastWrap(w: seq<int>, t: nat, i: nat)
    requires Weights(w) && Sum(w) <= 32767 && !Unwrapped(w, t) && Unwrapped(w, t + 1) && i < |w|
    ensures var b := WrapPick(w, t);
            && Debt(w, t)[b] + w[b] >= 32768 && Debt(w, t + 1)[b] + w[b] <= 32767
            && (i != b ==> Debt(w, t + 1)[i] <= Debt(w, t + 1)[b] + Sum(w) - 65536)
  {
    hide Sum, Debt, WrapPick;
    var b := WrapPick(w, t);
    forall j | 0 <= j < |w| && j != b ensures InI16(Debt(w, t)[j] + w[j]) {
      UnwrappedBefore(w, t, j);
      DebtStep(w, t, j);
    }
    UnwrappedBefore(w, t, b);
    DebtStep(w, t, b);
    assert !InI16(Debt(w, t)[b] + w[b]);
    DebtStep(w, t, i);
    PickIsLargest(w, t, i);
  }

  /** Sums of values that are all but one at most `x`. */
  lemma {:induction false} AllButOne(c: seq<int>, b: nat, x: int)
    requires b < |c| && forall i :: 0 <= i < |c| && i != b ==> c[i] <= x
    ensures Sum(c) <= c[b] + Times(|c| - 1, x)
  {
    var n := |c| - 1;
    if b < n {
      AllButOne(c[..n], b, x);
    } else {
      AtMost(c[..n], x);
    }
  }

  lemma {:induction false} AtMost(c: seq<int>, x: int)
    requires forall i :: 0 <= i < |c| ==> c[i] <= x
    ensures Sum(c) <= Times(|c|, x)
  {
    if c != [] {
      AtMost(c[..|c| - 1], x);
    }
  }

  /** Few peers, or a total far enough below the range: there the last wrap of a round is never made good. */
  predicate Narrow(w: seq<int>) {
    (|w| - 1) * Sum(w) < 32771 * |w| - 65536
  }

  lemma SmallProduct(t: nat, x: int)
    ensures x <= 1 ==> t * x <= t
  {
  }

  /** The peer returned at the last wrap has a weight of two or more. */
  lemma WrapsOnlyWithWeight(w: seq<int>, t: nat, b: nat)
    requires Weights(w) && Sum(w) <= 32767 && t < Sum(w) && b < |w| && Debt(w, t)[b] + w[b] >= 32768
    ensures w[b] >= 2
  {
    hide Sum, WrapPicks, Debt;
    DebtLedger(w, t, b);
    TimesIsProduct(t, w[b]);
    TimesIsProduct(WrapPicks(w, 0, t, b), Sum(w));
    assert WrapPicks(w, 0, t, b) * Sum(w) >= 0;
    SmallProduct(t, w[b]);
  }

  /** In a narrow weighting a round in which a counter wraps cannot end with all debts paid. */
  lemma NoLastWrap(w: seq<int>, t: nat)
    requires Weights(w) && Sum(w) <= 32767 && Narrow(w) && t < Sum(w) && !Unwrapped(w, t)
    ensures !Unwrapped(w, t + 1)
  {
    hide Sum, Debt, WrapPick;
    if Unwrapped(w, t + 1) {
      var b := WrapPick(w, t);
      var c := Debt(w, t + 1);
      var y := c[b] + Sum(w) - 65536;
      forall i | 0 <= i < |w| && i != b ensures c[i] <= y {
        LastWrap(w, t, i);
      }
      LastWrap(w, t, b);
      WrapsOnlyWithWeight(w, t, b);
      AllButOne(c, b, y);
      DebtsSumToZero(w, t + 1);
      TimesIsProduct(|w| - 1, y);
      TooNarrow(|w|, Sum(w), c[b], w[b]);
    }
  }

  lemma TooNarrow(n: nat, total: int, p: int, x: int)
    requires n >= 1 && (n - 1) * total < 32771 * n - 65536
    requires p + x <= 32767 && x >= 2
    ensures p + (n - 1) * (p + total - 65536) < 0
  {
    assert p + (n - 1) * (p + total - 65536) == n * p + (n - 1) * total - 65536 * (n - 1);
    assert n * p <= n * 32765;
  }

  lemma {:induction false} WrapsToTheEnd(w: seq<int>, t: nat, end: nat)
    requires Weights(w) && Sum(w) <= 32767 && Narrow(w) && t <= end < Sum(w) && !Unwrapped(w, t)
    ensures !Unwrapped(w, end)
    decreases end - t
  {
    hide Sum, Unwrapped;
    if t < end {
      NoLastWrap(w, t);
      WrapsToTheEnd(w, t + 1, end);
    }
  }

  /** A call in which the counters fit picks as the integer algorithm does. */
  lemma PicksAlike(w: seq<int>, t: nat)
    requires |w| > 0 && FitsAt(w, t) && Debt(w, t) == Run(w, t)
    ensures WrapPick(w, t) == Pick(w, t)
  {
    hide Sum, Run, Debt, Wrap16, WrapCharged, WrapRun, Best;
    var d := Charged(Run(w, t), w);
    forall i | 0 <= i < |w| ensures WrapCharged(WrapRun(w, t), w)[i] == d[i] {
      DebtWraps(w, t, i);
    }
    assert WrapCharged(WrapRun(w, t), w) == d;
  }

  /** Up to the first call that leaves the range, debts are the counters of the integer algorithm. */
  lemma {:induction false} DebtTracks(w: seq<int>, t: nat)
    requires |w| > 0 && forall u: nat :: u < t ==> FitsAt(w, u)
    ensures Debt(w, t) == Run(w, t)
  {
    hide Sum, FitsAt, WrapPick, Best, Charged;
    if t > 0 {
      DebtTracks(w, t - 1);
      PicksAlike(w, t - 1);
    }
  }

  /** In the first call that leaves the range a counter is too large once the weights are added. */
  lemma WrapsUpwards(w: seq<int>, t: nat)
    requires Weights(w) && Sum(w) <= 32767 && !FitsAt(w, t) && Debt(w, t) == Run(w, t)
    ensures !Unwrapped(w, t)
  {
    hide Sum, Run, Debt;
    var i :| 0 <= i < |w| && !(InI16(Run(w, t)[i]) && InI16(Run(w, t)[i] + w[i]));
    CountersAboveMinusTotal(w, t, i);
    assert !InI16(Debt(w, t)[i] + w[i]);
  }

  lemma {:induction false} FirstWrap(w: seq<int>, t: nat) returns (u: nat)
    requires Weights(w) && Sum(w) <= 32767 && t < Sum(w) && !FitsAt(w, t)
    ensures u < Sum(w) && !Unwrapped(w, u)
  {
    hide Sum, FitsAt, Unwrapped, Run, Debt;
    if earlier: nat :| earlier < t && !FitsAt(w, earlier) {
      u := FirstWrap(w, earlier);
    } else {
      u := t;
      DebtTracks(w, t);
      WrapsUpwards(w, t);
    }
  }

  /** A narrow weighting that does not fit is not served fairly. */
  lemma NarrowIsUnfair(w: seq<int>)
    requires Weights(w) && Sum(w) <= 32767 && Narrow(w) && !Fits(w)
    ensures !FairRound(w)
  {
    hide Sum, Run, Debt, WrapPicks, WrapPick;
    FitsInOneRound(w);
    var t: nat :| t < Sum(w) && !FitsAt(w, t);
    var u := FirstWrap(w, t);
    WrapsToTheEnd(w, u, Sum(w) - 1);
    if FairRound(w) {
      forall i | 0 <= i < |w| ensures InI16(Debt(w, Sum(w) - 1)[i] + w[i]) {
        LastCall(w, i);
      }
    }
  }

  lemma FitsIsFair(w: seq<int>)
    requires Weights(w) && Fits(w)
    ensures FairRound(w)
  {
    hide Sum, WrapPicks, Fits;
    forall i | 0 <= i < |w| ensures WrapPicks(w, 0, Sum(w), i) == w[i] {
      FairWhenFits(w, 0, i);
    }
  }

  /** The program serves a round fairly exactly when its counters fit: for every total above the range, and below
      it for every narrow weighting. */
  lemma FairExactlyWhenFits(w: seq<int>)
    requires Weights(w) && |w| >= 2 && Sum(w) < 65536 && (Sum(w) > 32767 || Narrow(w))
    ensures FairRound(w) <==> Fits(w)
  {
    hide Sum, WrapPicks;
    if Fits(w) {
      FitsIsFair(w);
    } else if Sum(w) > 32767 {
      LargeTotalsAreUnfair(w);
    } else {
      NarrowIsUnfair(w);
    }
  }

  /** A weight is a byte, and so is the number of a peer. */
  ghost predicate Bytes(w: seq<int>) {
    2 <= |w| <= 256 && forall i :: 0 <= i < |w| ==> w[i] <= 255
  }

  /** For byte weights: the first round is fair exactly when the counters fit, for every total outside
      32514 .. 32767. */
  lemma BytesAreFairExactlyWhenTheyFit(w: seq<int>)
    requires Weights(w) && Bytes(w) && !(32514 <= Sum(w) <= 32767)
    ensures FairRound(w) <==> Fits(w)
  {
    hide Sum, Fits, FairRound;
    AtMost(w, 255);
    TimesIsProduct(|w|, 255);
    if |w| == 2 {
      ProductFits(w);
      FitsIsFair(w);
    } else {
      if Sum(w) <= 32513 {
        BytesAreNarrow(|w|, Sum(w));
      }
      FairExactlyWhenFits(w);
    }
  }

  lemma ProductBelow(k: nat, x: int, y: int)
    requires x <= y
    ensures k * x <= k * y
  {
  }

  lemma BytesAreNarrow(n: nat, total: int)
    requires 3 <= n <= 256 && 0 <= total <= 255 * n && total <= 32513
    ensures (n - 1) * total < 32771 * n - 65536
  {
    if n <= 127 {
      ProductBelow(n - 1, total, 255 * n);
      assert (n - 3) * (127 - n) == 130 * n - n * n - 381;
      assert (n - 1) * (255 * n) == 255 * (n * n) - 255 * n;
      ProductBelow(n - 3, 0, 127 - n);
    } else {
      ProductBelow(n - 1, total, 32513);
    }
  }

  /** 129 peers of the largest weight are not served alike. */
  lemma HeaviestAreUnfair()
    ensures var w := seq(129, _ => 255); Weights(w) && Bytes(w) && !FairRound(w)
  {
    hide Sum, FairRound;
    var w := seq(129, _ => 255);
    SumOfEqual(129, 255);
    TimesIsProduct(129, 255);
    LargeTotalsAreUnfair(w);
  }
}
