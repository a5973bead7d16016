/**
 What the largest-remainder payout promises (src/services/bolao/bolao-prize.service.ts:98-119):
 it is determined by its rule, favours heavier rows, splits ties to within a coin,
 and no other whole-coin split of the pool is closer to the exact shares.
 */
module PrizeFairness {
  import opened Common
  import opened BolaoPrize

  lemma {:induction false} SumIntMonotone(a: seq<int>, b: seq<int>, k: nat)
    requires |a| == |b| && k < |a|
    requires forall i | 0 <= i < |a| :: a[i] <= b[i]
    requires a[k] < b[k]
    ensures SumInt(a) < SumInt(b)
  {
    var n := |a| - 1;
    if k < n {
      SumIntMonotone(a[..n], b[..n], k);
    } else {
      SumIntWeaklyMonotone(a[..n], b[..n]);
    }
  }

  lemma {:induction false} SumIntWeaklyMonotone(a: seq<int>, b: seq<int>)
    requires |a| == |b|
    requires forall i | 0 <= i < |a| :: a[i] <= b[i]
    ensures SumInt(a) <= SumInt(b)
  {
    if |a| > 0 {
      SumIntWeaklyMonotone(a[..|a| - 1], b[..|b| - 1]);
    }
  }

  lemma BeatsAsymmetric(x: seq<real>, i: nat, j: nat)
    requires i < |x| && j < |x|
    ensures !(Beats(x, i, j) && Beats(x, j, i))
  {
  }

  /** If `b` gives an extra coin that `a` does not, then `b` gives every extra of `a`. */
  lemma ExtrasNested(x: seq<real>, pool: int, a: seq<int>, b: seq<int>, k: nat)
    requires LargestRemainder(x, pool, a) && LargestRemainder(x, pool, b)
    requires k < |x| && a[k] < b[k]
    ensures forall i | 0 <= i < |x| :: a[i] <= b[i]
  {
    forall i | 0 <= i < |x| ensures a[i] <= b[i] {
      BeatsAsymmetric(x, i, k);
    }
  }

  /** The rule leaves no choice: two payouts that obey it are the same. */
  lemma PayoutUnique(x: seq<real>, pool: int, a: seq<int>, b: seq<int>)
    requires LargestRemainder(x, pool, a) && LargestRemainder(x, pool, b)
    ensures a == b
  {
    forall k | 0 <= k < |x| ensures a[k] == b[k] {
      if a[k] < b[k] {
        ExtrasNested(x, pool, a, b, k);
        SumIntMonotone(a, b, k);
      } else if b[k] < a[k] {
        ExtrasNested(x, pool, b, a, k);
        SumIntMonotone(b, a, k);
      }
    }
  }

  /** A larger exact share is never paid less; an equal one loses a coin at most, to an earlier row. */
  lemma HeavierNeverPaidLess(x: seq<real>, pool: int, a: seq<int>, i: nat, j: nat)
    requires LargestRemainder(x, pool, a) && i < |x| && j < |x|
    ensures x[i] > x[j] ==> a[i] >= a[j]
    ensures x[i] == x[j] && i < j ==> a[j] <= a[i] <= a[j] + 1
  {
    if a[j] == x[j].Floor + 1 && a[i] == x[i].Floor {
      assert Beats(x, j, i);
    }
  }

  /** A row without an extra coin never had the larger remainder. */
  lemma ExtraGoesToLargerRemainder(x: seq<real>, pool: int, a: seq<int>, i: nat, j: nat)
    requires LargestRemainder(x, pool, a) && i < |x| && j < |x|
    requires a[i] > x[i].Floor && a[j] <= x[j].Floor
    ensures Remainder(x[j]) <= Remainder(x[i])
    ensures Remainder(x[j]) == Remainder(x[i]) ==> i < j
  {
    assert Beats(x, i, j);
  }

  // ---------- optimality ----------

  function Distance(x: real, a: int): (d: real)
    ensures d >= 0.0
  {
    if a as real >= x then a as real - x else x - a as real
  }

  /** Total absolute deviation of whole amounts from exact shares. */
  function Deviation(x: seq<real>, a: seq<int>): (d: real)
    requires |x| == |a|
    ensures d >= 0.0
  {
    if |x| == 0 then 0.0
    else Deviation(x[..|x| - 1], a[..|a| - 1]) + Distance(x[|x| - 1], a[|a| - 1])
  }

  /** What an extra coin does to a row's deviation. */
  function ExtraCost(x: real): (c: real)
    ensures -1.0 < c <= 1.0
  {
    1.0 - 2.0 * Remainder(x)
  }

  /** A slope between the cost of every extra coin given and of every one withheld. */
  ghost predicate Separates(x: seq<real>, a: seq<int>, slope: real)
    requires |x| == |a|
  {
    && -1.0 <= slope <= 1.0
    && forall i | 0 <= i < |x| ::
         && (a[i] == x[i].Floor + 1 ==> ExtraCost(x[i]) <= slope)
         && (a[i] == x[i].Floor ==> ExtraCost(x[i]) >= slope)
  }

  lemma {:induction false} DearestExtra(x: seq<real>, a: seq<int>, n: nat) returns (slope: real)
    requires |x| == |a| && n <= |x|
    ensures -1.0 <= slope <= 1.0
    ensures forall i | 0 <= i < n && a[i] == x[i].Floor + 1 :: ExtraCost(x[i]) <= slope
    ensures slope == -1.0 || exists i :: 0 <= i < n && a[i] == x[i].Floor + 1 && ExtraCost(x[i]) == slope
  {
    if n == 0 {
      slope := -1.0;
    } else {
      slope := DearestExtra(x, a, n - 1);
      if a[n - 1] == x[n - 1].Floor + 1 && ExtraCost(x[n - 1]) > slope {
        slope := ExtraCost(x[n - 1]);
      }
    }
  }

  lemma SeparatorExists(x: seq<real>, pool: int, a: seq<int>) returns (slope: real)
    requires LargestRemainder(x, pool, a)
    ensures Separates(x, a, slope)
  {
    slope := DearestExtra(x, a, |x|);
    forall i | 0 <= i < |x| && a[i] == x[i].Floor ensures ExtraCost(x[i]) >= slope {
      if slope > -1.0 {
        var j :| 0 <= j < |x| && a[j] == x[j].Floor + 1 && ExtraCost(x[j]) == slope;
        assert Beats(x, j, i);
      }
    }
  }

  lemma ProductNonNegative(a: real, b: real)
    requires a >= 0.0 && b >= 0.0
    ensures a * b >= 0.0
  {
  }

  /** `k` steps at unit cost, the first of them at cost `c`, cost at least `k` times `slope`. */
  lemma StepsCost(c: real, slope: real, k: int)
    requires slope <= 1.0 && c >= slope && k >= 1
    ensures c + (k - 1) as real >= slope * k as real
  {
    var m := (k - 1) as real;
    ProductNonNegative(1.0 - slope, m);
    assert (1.0 - slope) * m == m - slope * m;
    assert k as real == m + 1.0;
    assert slope * (m + 1.0) == slope * m + slope;
  }

  /** Moving one row away from its payout costs at least the separating slope per coin. */
  lemma SlopeBound(x: real, a: int, b: int, slope: real)
    requires -1.0 <= slope <= 1.0
    requires (a == x.Floor + 1 && ExtraCost(x) <= slope) || (a == x.Floor && ExtraCost(x) >= slope)
    ensures Distance(x, b) - Distance(x, a) >= slope * (b - a) as real
  {
    var c := ExtraCost(x);
    if b > a {
      StepsCost(if a == x.Floor then c else 1.0, slope, b - a);
    } else if b < a {
      StepsCost(if a == x.Floor then 1.0 else -c, -slope, a - b);
      assert slope * (b - a) as real == -slope * (a - b) as real;
    }
  }

  /** Bounds that hold row by row hold for the whole deviation. */
  lemma {:induction false} DeviationBound(x: seq<real>, a: seq<int>, b: seq<int>, cost: seq<real>)
    requires |x| == |a| == |b| == |cost|
    requires forall i | 0 <= i < |x| :: Distance(x[i], b[i]) - Distance(x[i], a[i]) >= cost[i]
    ensures Deviation(x, b) - Deviation(x, a) >= SumReal(cost)
  {
    if |x| > 0 {
      var n := |x| - 1;
      DeviationBound(x[..n], a[..n], b[..n], cost[..n]);
    }
  }

  /** How far each row moves from `a` to `b`. */
  function Moves(a: seq<int>, b: seq<int>): (m: seq<real>)
    requires |a| == |b|
    ensures |m| == |a|
  {
    seq(|a|, i requires 0 <= i < |a| => (b[i] - a[i]) as real)
  }

  lemma {:induction false} SumOfMoves(a: seq<int>, b: seq<int>)
    requires |a| == |b|
    ensures SumReal(Moves(a, b)) == (SumInt(b) - SumInt(a)) as real
  {
    if |a| > 0 {
      var n := |a| - 1;
      SumOfMoves(a[..n], b[..n]);
      assert Moves(a, b)[..n] == Moves(a[..n], b[..n]);
    }
  }

  function Scaled(c: real, s: seq<real>): (t: seq<real>)
    ensures |t| == |s| && forall i | 0 <= i < |s| :: t[i] == c * s[i]
  {
    seq(|s|, i requires 0 <= i < |s| => c * s[i])
  }

  lemma ScaledZero(c: real, s: seq<real>)
    requires SumReal(s) == 0.0
    ensures SumReal(Scaled(c, s)) == 0.0
  {
    SumScaled(s, c, Scaled(c, s));
  }

  /** Moves that keep the total cost nothing at any slope. */
  lemma BalancedMovesAreFree(a: seq<int>, b: seq<int>, slope: real)
    requires |a| == |b| && SumInt(a) == SumInt(b)
    ensures SumReal(Scaled(slope, Moves(a, b))) == 0.0
  {
    SumOfMoves(a, b);
    ScaledZero(slope, Moves(a, b));
  }

  lemma CostAt(x: seq<real>, a: seq<int>, b: seq<int>, slope: real, i: nat)
    requires |x| == |a| == |b| && Separates(x, a, slope) && i < |x|
    requires a[i] == x[i].Floor || a[i] == x[i].Floor + 1
    ensures Distance(x[i], b[i]) - Distance(x[i], a[i]) >= Scaled(slope, Moves(a, b))[i]
  {
    SlopeBound(x[i], a[i], b[i], slope);
  }

  /** No whole-coin split of the same pool lies closer to the exact shares. */
  lemma PayoutMinimisesDeviation(x: seq<real>, pool: int, a: seq<int>, b: seq<int>)
    requires LargestRemainder(x, pool, a)
    requires |b| == |x| && SumInt(b) == pool
    ensures Deviation(x, a) <= Deviation(x, b)
  {
    var slope := SeparatorExists(x, pool, a);
    BalancedMovesAreFree(a, b, slope);
    var cost := Scaled(slope, Moves(a, b));
    assert Deviation(x, b) - Deviation(x, a) >= SumReal(cost) by {
      forall i | 0 <= i < |x| ensures Distance(x[i], b[i]) - Distance(x[i], a[i]) >= cost[i] {
        CostAt(x, a, b, slope, i);
      }
      DeviationBound(x, a, b, cost);
    }
  }

  // ---------- the payout as a function ----------

  /** The first row in service order among those without an extra coin. */
  lemma {:induction false} NextServed(x: seq<real>, a: seq<int>, n: nat) returns (best: nat)
    requires |x| == |a| && n <= |x|
    requires exists i :: 0 <= i < n && a[i] == x[i].Floor
    ensures best < n && a[best] == x[best].Floor
    ensures forall j | 0 <= j < n && j != best && a[j] == x[j].Floor :: Beats(x, best, j)
  {
    if exists i :: 0 <= i < n - 1 && a[i] == x[i].Floor {
      best := NextServed(x, a, n - 1);
      if a[n - 1] == x[n - 1].Floor && Beats(x, n - 1, best) {
        best := n - 1;
      }
    } else {
      best := n - 1;
    }
  }

  lemma {:induction false} AllServed(x: seq<real>, a: seq<int>)
    requires |x| == |a| && forall i | 0 <= i < |x| :: a[i] == x[i].Floor + 1
    ensures SumInt(a) == SumInt(Floors(x)) + |x|
  {
    if |x| > 0 {
      var n := |x| - 1;
      AllServed(x[..n], a[..n]);
      assert Floors(x)[..n] == Floors(x[..n]);
    }
  }

  /** Serving one row after another reaches every pool between the floors and one coin more each. */
  lemma {:induction false} PayoutExists(x: seq<real>, leftover: nat) returns (a: seq<int>)
    requires leftover <= |x|
    ensures LargestRemainder(x, SumInt(Floors(x)) + leftover, a)
  {
    if leftover == 0 {
      a := Floors(x);
    } else {
      var b := PayoutExists(x, leftover - 1);
      if forall i | 0 <= i < |x| :: b[i] != x[i].Floor {
        AllServed(x, b);
      }
      var best := NextServed(x, b, |x|);
      SumIntUpdate(b, best, b[best] + 1);
      a := b[best := b[best] + 1];
    }
  }

  lemma SamePayout(pool: int, items: seq<PrizeDistributionItem>, rows: seq<PrizeRow>, p: seq<Payout>, q: seq<Payout>)
    requires ValidDistribution(items) && IsPayout(pool, items, rows, p) && IsPayout(pool, items, rows, q)
    ensures p == q
  {
    var ws := WeightedRows(items, rows);
    if pool > 0 && |ws| > 0 {
      PayoutUnique(ExactShares(pool, Weights(ws)), pool, Amounts(p), Amounts(q));
      forall i | 0 <= i < |p| ensures p[i] == q[i] {
        assert Amounts(p)[i] == Amounts(q)[i];
      }
    }
  }

  /** Every pool has a payout that obeys the rule. */
  lemma SomePayout(pool: int, items: seq<PrizeDistributionItem>, rows: seq<PrizeRow>)
    requires ValidDistribution(items)
    ensures exists p :: IsPayout(pool, items, rows, p)
  {
    var ws := WeightedRows(items, rows);
    var p: seq<Payout> := [];
    if pool > 0 && |ws| > 0 {
      WeightsPositive(items, rows);
      LeftoverBelowRows(pool, Weights(ws));
      var x := ExactShares(pool, Weights(ws));
      var a := PayoutExists(x, pool - SumInt(Floors(x)));
      p := seq(|ws|, i requires 0 <= i < |ws| => Payout(ws[i].userId, ws[i].position, a[i]));
      assert Amounts(p) == a;
    }
    assert IsPayout(pool, items, rows, p);
  }

  /** The payouts of a pool, as a value: the only list the rule allows. */
  ghost function Payouts(pool: int, items: seq<PrizeDistributionItem>, rows: seq<PrizeRow>): (p: seq<Payout>)
    requires ValidDistribution(items)
    ensures IsPayout(pool, items, rows, p)
  {
    SomePayout(pool, items, rows);
    var p: seq<Payout> :| IsPayout(pool, items, rows, p);
    p
  }

  // ---------- when a payout is zero ----------

  lemma {:induction false} SumAtLeastCount(a: seq<int>)
    requires forall i | 0 <= i < |a| :: a[i] >= 1
    ensures SumInt(a) >= |a|
  {
    if |a| > 0 {
      SumAtLeastCount(a[..|a| - 1]);
    }
  }

  /** A pool smaller than the number of paid rows leaves someone with nothing. */
  lemma SmallPoolLeavesZero(x: seq<real>, pool: int, a: seq<int>)
    requires LargestRemainder(x, pool, a) && pool < |x|
    ensures exists i :: 0 <= i < |x| && a[i] <= 0
  {
    if forall i | 0 <= i < |x| :: a[i] >= 1 {
      SumAtLeastCount(a);
    }
  }
}
