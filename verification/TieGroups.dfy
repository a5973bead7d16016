/**
 Tie groups of an official ranking on the podium (src/services/bolao/bolao-prize.service.ts:71-96
 fed by src/services/ranking/ranking-tiebreak.service.ts:51-73): the groups tile the positions,
 share exactly the bands they occupy, and a better position never earns less.
 */
module TieGroups {
  import opened Common
  import opened BolaoPrize
  import opened PrizeFairness
  import opened RankingTiebreak

  /** Positions as `rank` gives them: a row shares the position before it or takes its own place. */
  ghost predicate Standings(rows: seq<PrizeRow>) {
    forall i | 0 <= i < |rows| ::
      rows[i].position == i + 1 || (i > 0 && rows[i].position == rows[i - 1].position)
  }

  /** Prize rows of a ranking. */
  function PrizeRows<T>(ranked: seq<Ranked<T>>, userOf: T -> UserId): (rows: seq<PrizeRow>)
    ensures |rows| == |ranked|
  {
    seq(|ranked|, i requires 0 <= i < |ranked| => PrizeRow(userOf(ranked[i].row), ranked[i].position))
  }

  lemma {:induction false} PositionsStand<T>(sorted: seq<T>, metricsFor: T -> Metrics, i: nat)
    requires i < |sorted|
    ensures var r := Positions(sorted, metricsFor);
            r[i].position == i + 1 || (i > 0 && r[i].position == r[i - 1].position)
    decreases |sorted|
  {
    if i < |sorted| - 1 {
      PositionsStand(sorted[..|sorted| - 1], metricsFor, i);
    }
  }

  lemma RankGivesStandings<T>(rows: seq<T>, metricsFor: T -> Metrics, userOf: T -> UserId)
    ensures Standings(PrizeRows(RankRows(rows, metricsFor), userOf))
  {
    var r := RankRows(rows, metricsFor);
    forall i | 0 <= i < |rows|
      ensures r[i].position == i + 1 || (i > 0 && r[i].position == r[i - 1].position)
    {
      PositionsStand(SortRows(rows, metricsFor), metricsFor, i);
    }
  }

  // ---------- tiling ----------

  lemma {:induction false} StandingsBounds(rows: seq<PrizeRow>)
    requires Standings(rows)
    ensures forall i | 0 <= i < |rows| :: 1 <= rows[i].position <= i + 1
  {
    if |rows| > 0 {
      var before := rows[..|rows| - 1];
      StandingsBounds(before);
      forall i | 0 <= i < |rows| ensures 1 <= rows[i].position <= i + 1 {
        if i > 0 {
          assert rows[i - 1] == before[i - 1];
        }
        if i < |rows| - 1 {
          assert rows[i] == before[i];
        }
      }
    }
  }

  /** The position that follows tie group `k`, in a list of group positions over `n` rows. */
  function NextPosition(ps: seq<int>, n: nat, k: nat): int {
    if k + 1 < |ps| then ps[k + 1] else n + 1
  }

  ghost predicate TileAt(rows: seq<PrizeRow>, ps: seq<int>, k: nat)
    requires k < |ps|
  {
    var next := NextPosition(ps, |rows|, k);
    1 <= ps[k] < next <= |rows| + 1 && TiedRows(rows, ps[k]) == rows[ps[k] - 1..next - 1]
  }

  /** The tie groups occupy consecutive intervals of positions, from 1 to the number of rows. */
  ghost predicate Tiling(rows: seq<PrizeRow>, ps: seq<int>) {
    && (|rows| > 0 ==> |ps| > 0 && ps[0] == 1 && ps[|ps| - 1] == rows[|rows| - 1].position)
    && (|rows| == 0 ==> |ps| == 0)
    && (forall k | 0 <= k < |ps| :: TileAt(rows, ps, k))
    && (forall k, l | 0 <= k < l < |ps| :: ps[k] != ps[l])
  }

  lemma TiedKept(rows: seq<PrizeRow>, p: int, from: nat, to: nat)
    requires |rows| > 0 && rows[|rows| - 1].position != p && from <= to < |rows|
    requires TiedRows(rows[..|rows| - 1], p) == rows[..|rows| - 1][from..to]
    ensures TiedRows(rows, p) == rows[from..to]
  {
  }

  lemma TiedGrows(rows: seq<PrizeRow>, p: int, from: nat)
    requires |rows| > 0 && rows[|rows| - 1].position == p && from < |rows|
    requires TiedRows(rows[..|rows| - 1], p) == rows[..|rows| - 1][from..|rows| - 1]
    ensures TiedRows(rows, p) == rows[from..|rows|]
  {
  }

  /** One more row in the last group. */
  lemma TilingTied(rows: seq<PrizeRow>, ps: seq<int>)
    requires |rows| > 1 && rows[|rows| - 1].position == rows[|rows| - 2].position
    requires Tiling(rows[..|rows| - 1], ps)
    ensures Tiling(rows, ps)
  {
    var n := |rows| - 1;
    assert rows[..n][n - 1] == rows[n - 1];
    forall k | 0 <= k < |ps| ensures TileAt(rows, ps, k) {
      TiedTile(rows, ps, k);
    }
  }

  lemma TiedTile(rows: seq<PrizeRow>, ps: seq<int>, k: nat)
    requires |rows| > 1 && k < |ps| && TileAt(rows[..|rows| - 1], ps, k)
    requires if k == |ps| - 1 then ps[k] == rows[|rows| - 1].position else ps[k] != rows[|rows| - 1].position
    ensures TileAt(rows, ps, k)
  {
    if k < |ps| - 1 {
      TiedKept(rows, ps[k], ps[k] - 1, ps[k + 1] - 1);
    } else {
      TiedGrows(rows, ps[k], ps[k] - 1);
    }
  }

  lemma UntiedTile(rows: seq<PrizeRow>, ps: seq<int>, k: nat)
    requires |rows| > 0 && rows[|rows| - 1].position == |rows|
    requires k < |ps| && TileAt(rows[..|rows| - 1], ps, k) && ps[k] != |rows|
    ensures TileAt(rows, ps + [|rows|], k)
  {
    TiedKept(rows, ps[k], ps[k] - 1, NextPosition(ps, |rows| - 1, k) - 1);
  }

  lemma OwnTile(rows: seq<PrizeRow>, ps: seq<int>)
    requires |rows| > 0 && rows[|rows| - 1].position == |rows| && TiedRows(rows[..|rows| - 1], |rows|) == []
    ensures TileAt(rows, ps + [|rows|], |ps|)
  {
    var qs := ps + [|rows|];
    assert qs[|ps|] == |rows| && NextPosition(qs, |rows|, |ps|) == |rows| + 1;
    assert TiedRows(rows, |rows|) == [rows[|rows| - 1]];
    assert rows[|rows| - 1..|rows|] == [rows[|rows| - 1]];
  }

  /** A row that opens a group of its own. */
  lemma TilingUntied(rows: seq<PrizeRow>, ps: seq<int>)
    requires |rows| > 0 && rows[|rows| - 1].position == |rows|
    requires Tiling(rows[..|rows| - 1], ps) && |rows| !in ps
    requires TiedRows(rows[..|rows| - 1], |rows|) == []
    ensures Tiling(rows, ps + [|rows|])
  {
    assert forall k | 0 <= k < |ps| :: ps[k] in ps;
    forall k | 0 <= k < |ps| ensures TileAt(rows, ps + [|rows|], k) {
      UntiedTile(rows, ps, k);
    }
    OwnTile(rows, ps);
  }

  lemma {:induction false} GroupsTile(rows: seq<PrizeRow>)
    requires Standings(rows)
    ensures Tiling(rows, FirstPositions(rows))
  {
    if |rows| > 0 {
      var n := |rows| - 1;
      var before := rows[..n];
      GroupsTile(before);
      if n > 0 && rows[n].position == rows[n - 1].position {
        PositionsListed(before);
        TilingTied(rows, FirstPositions(before));
      } else {
        StandingsBounds(before);
        if n + 1 in FirstPositions(before) {
          var i := ListedPosition(before, n + 1);
        }
        NoTiedRows(before, n + 1);
        TilingUntied(rows, FirstPositions(before));
      }
    }
  }

  lemma {:induction false} PercentageSumSplit(items: seq<PrizeDistributionItem>, p: int, c: nat, d: nat)
    ensures PercentageSum(items, p, c + d) == PercentageSum(items, p, c) + PercentageSum(items, p + c, d)
  {
    if d > 0 {
      PercentageSumSplit(items, p, c, d - 1);
    }
  }

  /** Every position of a ranking has a share exactly while it has a band. */
  lemma {:induction false} PercentageSumZero(items: seq<PrizeDistributionItem>, p: int, c: nat)
    requires ValidDistribution(items) && p >= 1 && c >= 1
    ensures PercentageSum(items, p, c) == 0 <==> p > |items|
    decreases c
  {
    PercentageSumNonNegative(items, p + 1, c - 1);
    PercentageSumSplit(items, p, 1, c - 1);
    if c > 1 {
      PercentageSumZero(items, p + 1, c - 1);
    }
  }

  /** All bands together are 100%. */
  lemma {:induction false} BandsAddUp(items: seq<PrizeDistributionItem>, n: nat)
    requires n <= |items|
    ensures PercentageSum(items, 1, n) == SumInt(Percentages(items)[..n])
  {
    if n > 0 {
      BandsAddUp(items, n - 1);
      assert Percentages(items)[..n][..n - 1] == Percentages(items)[..n - 1];
    }
  }

  /** A podium at least as long as the distribution gives out all of it. */
  lemma FullPodium(items: seq<PrizeDistributionItem>, n: nat)
    requires ValidDistribution(items) && n >= |items|
    ensures PercentageSum(items, 1, n) == 100
  {
    BandsAddUp(items, |items|);
    assert Percentages(items)[..|items|] == Percentages(items);
    PercentageSumSplit(items, 1, |items|, n - |items|);
    if n > |items| {
      PercentageSumZero(items, 1 + |items|, n - |items|);
    }
  }

  // ---------- weights of the groups ----------

  lemma {:induction false} SumConstant(s: seq<real>, c: real)
    requires forall i | 0 <= i < |s| :: s[i] == c
    ensures SumReal(s) == |s| as real * c
  {
    if |s| > 0 {
      SumConstant(s[..|s| - 1], c);
      assert |s| as real * c == (|s| - 1) as real * c + c;
    }
  }

  /** The members of a tie group together weigh the percentage of the positions they occupy. */
  lemma GroupWeight(items: seq<PrizeDistributionItem>, tied: seq<PrizeRow>, p: int)
    ensures SumReal(Weights(WeightedGroup(items, tied, p))) ==
              (if |tied| == 0 then 0 else PercentageSum(items, p, |tied|)) as real
  {
    hide PercentageSum, SumReal, Weights, WeightedGroup;
    var w, percentage := Weights(WeightedGroup(items, tied, p)), PercentageSum(items, p, |tied|) as real;
    EqualWeights(items, tied, p);
    if |w| == 0 {
      SumConstant(w, 0.0);
    } else {
      SumConstant(w, percentage / |tied| as real);
      DivideBack(percentage, |tied| as real);
    }
  }

  lemma EqualWeights(items: seq<PrizeDistributionItem>, tied: seq<PrizeRow>, p: int)
    ensures var w, percentage := Weights(WeightedGroup(items, tied, p)), PercentageSum(items, p, |tied|);
            if percentage == 0 || |tied| == 0 then w == []
            else |w| == |tied| && forall i | 0 <= i < |w| :: w[i] == percentage as real / |tied| as real
  {
    hide PercentageSum;
  }

  lemma DivideBack(a: real, b: real)
    requires b > 0.0
    ensures b * (a / b) == a
  {
  }

  lemma WeightsAppend(a: seq<WeightedRow>, b: seq<WeightedRow>)
    ensures SumReal(Weights(a + b)) == SumReal(Weights(a)) + SumReal(Weights(b))
  {
    assert Weights(a + b) == Weights(a) + Weights(b);
    SumRealAppend(Weights(a), Weights(b));
  }

  /** The position after the first `k` groups. */
  function GroupsEnd(rows: seq<PrizeRow>, ps: seq<int>, k: nat): int {
    if k == 0 then 1 else NextPosition(ps, |rows|, k - 1)
  }

  lemma GroupStartsAtEnd(rows: seq<PrizeRow>, ps: seq<int>, k: nat)
    requires Tiling(rows, ps) && k < |ps|
    ensures ps[k] == GroupsEnd(rows, ps, k) >= 1
    ensures GroupsEnd(rows, ps, k + 1) == ps[k] + |TiedRows(rows, ps[k])|
    ensures |TiedRows(rows, ps[k])| > 0
  {
    assert TileAt(rows, ps, k);
  }

  lemma AddGroupWeight(items: seq<PrizeDistributionItem>, before: seq<WeightedRow>, tied: seq<PrizeRow>, p: int)
    requires p >= 1 && |tied| > 0 && SumReal(Weights(before)) == PercentageSum(items, 1, p - 1) as real
    ensures SumReal(Weights(before + WeightedGroup(items, tied, p))) == PercentageSum(items, 1, p - 1 + |tied|) as real
  {
    WeightsAppend(before, WeightedGroup(items, tied, p));
    GroupWeight(items, tied, p);
    PercentageSumSplit(items, 1, p - 1, |tied|);
  }

  /** The groups at `ps` follow one another from position 1 up to `end`. */
  ghost predicate Chain(rows: seq<PrizeRow>, ps: seq<int>, end: int) {
    if |ps| == 0 then end == 1
    else
      var p := ps[|ps| - 1];
      Chain(rows, ps[..|ps| - 1], p) && p >= 1 && |TiedRows(rows, p)| > 0 && end == p + |TiedRows(rows, p)|
  }

  lemma {:induction false} TilingChain(rows: seq<PrizeRow>, ps: seq<int>, k: nat)
    requires Tiling(rows, ps) && k <= |ps|
    ensures Chain(rows, ps[..k], GroupsEnd(rows, ps, k))
  {
    if k > 0 {
      TilingChain(rows, ps, k - 1);
      GroupStartsAtEnd(rows, ps, k - 1);
      assert ps[..k][..k - 1] == ps[..k - 1];
    }
  }

  lemma {:induction false} ChainWeight(items: seq<PrizeDistributionItem>, rows: seq<PrizeRow>, ps: seq<int>, end: int)
    requires Chain(rows, ps, end)
    ensures end >= 1
    ensures SumReal(Weights(WeightedGroups(items, rows, ps))) == PercentageSum(items, 1, end - 1) as real
  {
    if |ps| > 0 {
      var p := ps[|ps| - 1];
      ChainWeight(items, rows, ps[..|ps| - 1], p);
      AddGroupWeight(items, WeightedGroups(items, rows, ps[..|ps| - 1]), TiedRows(rows, p), p);
    }
  }

  /** The total weight is the percentage of the positions 1 to the number of rows. */
  lemma TotalWeight(items: seq<PrizeDistributionItem>, rows: seq<PrizeRow>)
    requires Standings(rows)
    ensures SumReal(Weights(WeightedRows(items, rows))) == PercentageSum(items, 1, |rows|) as real
  {
    var ps := FirstPositions(rows);
    GroupsTile(rows);
    TilingChain(rows, ps, |ps|);
    assert ps[..|ps|] == ps;
    ChainWeight(items, rows, ps, |rows| + 1);
  }

  /** The weighted rows are rows of the ranking from the top, in ranking order. */
  ghost predicate FromTheTop(rows: seq<PrizeRow>, ws: seq<WeightedRow>) {
    && |ws| <= |rows|
    && forall i | 0 <= i < |ws| :: ws[i].userId == rows[i].userId && ws[i].position == rows[i].position
  }

  lemma GroupFromTheTop(items: seq<PrizeDistributionItem>, rows: seq<PrizeRow>, ps: seq<int>, k: nat,
                        before: seq<WeightedRow>)
    requires ValidDistribution(items) && Tiling(rows, ps) && k < |ps|
    requires FromTheTop(rows, before) && (ps[k] <= |items| ==> |before| == ps[k] - 1)
    ensures var group := WeightedGroup(items, TiedRows(rows, ps[k]), ps[k]);
            && FromTheTop(rows, before + group)
            && (ps[k] <= |items| ==> |before + group| == GroupsEnd(rows, ps, k + 1) - 1)
            && (ps[k] > |items| ==> group == [])
  {
    var p, tied := ps[k], TiedRows(rows, ps[k]);
    assert TileAt(rows, ps, k);
    PercentageSumZero(items, p, |tied|);
    if p > |items| {
      assert before + [] == before;
    } else {
      AppendFromTheTop(items, rows, before, tied, p);
    }
  }

  lemma AppendFromTheTop(items: seq<PrizeDistributionItem>, rows: seq<PrizeRow>, before: seq<WeightedRow>,
                         tied: seq<PrizeRow>, p: int)
    requires FromTheTop(rows, before) && |before| == p - 1 && |before| + |tied| <= |rows|
    requires tied == rows[p - 1..p - 1 + |tied|] && PercentageSum(items, p, |tied|) != 0
    ensures FromTheTop(rows, before + WeightedGroup(items, tied, p))
    ensures |WeightedGroup(items, tied, p)| == |tied|
  {
    hide PercentageSum;
    GroupOnTop(rows, before, tied, WeightedGroup(items, tied, p));
  }

  lemma GroupOnTop(rows: seq<PrizeRow>, before: seq<WeightedRow>, tied: seq<PrizeRow>, group: seq<WeightedRow>)
    requires FromTheTop(rows, before) && |before| + |tied| <= |rows| && |group| == |tied|
    requires tied == rows[|before|..|before| + |tied|]
    requires forall i | 0 <= i < |group| :: group[i].userId == tied[i].userId && group[i].position == tied[i].position
    ensures FromTheTop(rows, before + group)
  {
    var whole, n := before + group, |before|;
    forall i | n <= i < |whole| ensures whole[i].userId == rows[i].userId && whole[i].position == rows[i].position {
      assert whole[i] == group[i - n] && tied[i - n] == rows[i];
    }
  }

  lemma TilingIncreases(rows: seq<PrizeRow>, ps: seq<int>, k: nat)
    requires Tiling(rows, ps) && 0 < k < |ps|
    ensures ps[k - 1] < ps[k]
  {
    assert TileAt(rows, ps, k - 1);
  }

  lemma {:induction false} GroupsFromTheTop(items: seq<PrizeDistributionItem>, rows: seq<PrizeRow>, ps: seq<int>,
                                            k: nat)
    requires ValidDistribution(items) && Tiling(rows, ps) && k <= |ps|
    ensures FromTheTop(rows, WeightedGroups(items, rows, ps[..k]))
    ensures (k < |ps| ==> ps[k] <= |items|) && (k > 0 ==> ps[k - 1] <= |items|) ==>
              |WeightedGroups(items, rows, ps[..k])| == GroupsEnd(rows, ps, k) - 1
    ensures k > 0 && ps[k - 1] > |items| ==>
              WeightedGroups(items, rows, ps[..k]) == WeightedGroups(items, rows, ps[..k - 1])
  {
    if k > 0 {
      GroupsFromTheTop(items, rows, ps, k - 1);
      assert ps[..k][..k - 1] == ps[..k - 1];
      if k > 1 {
        TilingIncreases(rows, ps, k - 1);
      }
      GroupStartsAtEnd(rows, ps, k - 1);
      GroupFromTheTop(items, rows, ps, k - 1, WeightedGroups(items, rows, ps[..k - 1]));
    }
  }

  /** Payouts go to the top of the ranking, and the leader is always among them. */
  lemma PaidFromTheTop(items: seq<PrizeDistributionItem>, rows: seq<PrizeRow>)
    requires ValidDistribution(items) && Standings(rows)
    ensures FromTheTop(rows, WeightedRows(items, rows))
    ensures |rows| > 0 ==> |WeightedRows(items, rows)| > 0
  {
    var ps := FirstPositions(rows);
    assert ps[..|ps|] == ps;
    GroupsTile(rows);
    GroupsFromTheTop(items, rows, ps, |ps|);
    if |rows| > 0 {
      TotalWeight(items, rows);
      PercentageSumZero(items, 1, |rows|);
    }
  }

  lemma {:induction false} GroupsPaidDown(items: seq<PrizeDistributionItem>, rows: seq<PrizeRow>, ps: seq<int>, k: nat)
    requires ValidDistribution(items) && Tiling(rows, ps) && k <= |ps|
    ensures var paid := |WeightedGroups(items, rows, ps[..k])|; paid >= GroupsEnd(rows, ps, k) - 1 || paid >= |items|
  {
    if k > 0 {
      GroupsPaidDown(items, rows, ps, k - 1);
      assert ps[..k][..k - 1] == ps[..k - 1];
      GroupStartsAtEnd(rows, ps, k - 1);
      var p, tied := ps[k - 1], TiedRows(rows, ps[k - 1]);
      PercentageSumZero(items, p, |tied|);
      assert |WeightedGroup(items, tied, p)| == if p > |items| then 0 else |tied|;
    }
  }

  /** Every ranked row that has a band is paid out of the pool: row by row, from the top. */
  lemma PaidRowsAtLeast(items: seq<PrizeDistributionItem>, rows: seq<PrizeRow>)
    requires ValidDistribution(items) && Standings(rows)
    ensures |WeightedRows(items, rows)| >= |rows| || |WeightedRows(items, rows)| >= |items|
    ensures forall i | 0 <= i < |rows| && i < |items| ::
              i < |WeightedRows(items, rows)| && WeightedRows(items, rows)[i].userId == rows[i].userId
              && WeightedRows(items, rows)[i].position == rows[i].position
  {
    PaidFromTheTop(items, rows);
    var ps := FirstPositions(rows);
    assert ps[..|ps|] == ps;
    GroupsTile(rows);
    GroupsPaidDown(items, rows, ps, |ps|);
  }

  // ---------- a better position never earns less ----------

  ghost predicate NonIncreasing(items: seq<PrizeDistributionItem>) {
    forall i, j | 0 <= i < j < |items| :: items[i].percentage >= items[j].percentage
  }

  lemma BandsNonIncreasing(items: seq<PrizeDistributionItem>, p: int, q: int)
    requires ValidDistribution(items) && NonIncreasing(items) && 1 <= p <= q
    ensures PercentageAt(items, p) >= PercentageAt(items, q) >= 0
  {
  }

  lemma ScaleMonotone(c: nat, low: int, high: int)
    requires low <= high
    ensures c * low <= c * high
  {
  }

  /** A group carries, per position, between its last and its first percentage. */
  lemma {:induction false} GroupAverage(items: seq<PrizeDistributionItem>, p: int, c: nat)
    requires ValidDistribution(items) && NonIncreasing(items) && p >= 1
    ensures c > 0 ==> c * PercentageAt(items, p + c - 1) <= PercentageSum(items, p, c)
    ensures PercentageSum(items, p, c) <= c * PercentageAt(items, p)
  {
    hide PercentageAt, ValidDistribution, NonIncreasing;
    if c > 1 {
      GroupAverage(items, p, c - 1);
      var last, prior, first := PercentageAt(items, p + c - 1), PercentageAt(items, p + c - 2), PercentageAt(items, p);
      BandsNonIncreasing(items, p + c - 2, p + c - 1);
      BandsNonIncreasing(items, p, p + c - 1);
      ScaleMonotone(c - 1, last, prior);
      assert c * last == (c - 1) * last + last && c * first == (c - 1) * first + first;
    }
  }

  lemma AverageBounds(total: int, count: nat, low: int, high: int)
    requires count > 0 && count * low <= total <= count * high
    ensures low as real <= total as real / count as real <= high as real
  {
    var a := total as real / count as real;
    assert a * count as real == total as real;
  }

  /** The weights do not increase along the list, and the last is at least `low`. */
  ghost predicate Falling(ws: seq<WeightedRow>, low: real) {
    |ws| > 0 ==> ws[|ws| - 1].weight >= low && Falling(ws[..|ws| - 1], ws[|ws| - 1].weight)
  }

  lemma {:induction false} FallingOrder(ws: seq<WeightedRow>, low: real, i: nat, j: nat)
    requires Falling(ws, low) && i <= j < |ws|
    ensures ws[i].weight >= ws[j].weight >= low
    decreases |ws|
  {
    var last := |ws| - 1;
    if i < last {
      FallingOrder(ws[..last], ws[last].weight, i, if j < last then j else i);
    }
  }

  /** A group of equal weights goes below a list that is nowhere lighter. */
  lemma {:induction false} AppendFalling(before: seq<WeightedRow>, group: seq<WeightedRow>, high: real, w: real,
                                         low: real)
    requires Falling(before, high) && high >= w >= low
    requires forall i | 0 <= i < |group| :: group[i].weight == w
    ensures Falling(before + group, low)
    decreases |group|
  {
    if |group| == 0 {
      assert before + group == before;
    } else {
      var rest := group[..|group| - 1];
      AppendFalling(before, rest, high, w, w);
      assert (before + group)[..|before + group| - 1] == before + rest;
    }
  }

  /** The group at position `p` below the groups before it. */
  lemma GroupBelow(items: seq<PrizeDistributionItem>, tied: seq<PrizeRow>, p: int, before: seq<WeightedRow>,
                   above: int, low: int)
    requires ValidDistribution(items) && NonIncreasing(items) && p >= 1 && |tied| > 0
    requires Falling(before, above as real) && above == PercentageAt(items, p - 1) && (p == 1 ==> before == [])
    requires low == PercentageAt(items, p + |tied| - 1)
    ensures Falling(before + WeightedGroup(items, tied, p), low as real)
  {
    var group, high := WeightedGroup(items, tied, p), PercentageAt(items, p);
    var c, total := |tied|, PercentageSum(items, p, |tied|);
    GroupAverage(items, p, c);
    AverageBounds(total, c, low, high);
    if p > 1 {
      BandsNonIncreasing(items, p - 1, p);
    }
    AppendFalling(before, group, (if p == 1 then high else above) as real, total as real / c as real, low as real);
  }

  /** The payouts go, place by place, to the rows from the top. */
  lemma PayoutRow(pool: int, items: seq<PrizeDistributionItem>, rows: seq<PrizeRow>, payouts: seq<Payout>, i: nat)
    requires ValidDistribution(items) && Standings(rows) && IsPayout(pool, items, rows, payouts) && i < |payouts|
    ensures i < |rows| && payouts[i].userId == rows[i].userId && payouts[i].position == rows[i].position
  {
    hide Standings, ValidDistribution, WeightedRows, LargestRemainder;
    PaidFromTheTop(items, rows);
  }

  /** Down the list of groups the weights do not increase. */
  lemma {:induction false} GroupsNonIncreasing(items: seq<PrizeDistributionItem>, rows: seq<PrizeRow>, ps: seq<int>,
                                               end: int, low: int)
    requires ValidDistribution(items) && NonIncreasing(items) && Chain(rows, ps, end)
               && low == PercentageAt(items, end - 1)
    ensures Falling(WeightedGroups(items, rows, ps), low as real) && end >= 1 && (end == 1 ==> |ps| == 0)
  {
    if |ps| > 0 {
      var p, before := ps[|ps| - 1], ps[..|ps| - 1];
      var tied, prior, above := TiedRows(rows, p), WeightedGroups(items, rows, before), PercentageAt(items, p - 1);
      assert Chain(rows, before, p);
      GroupsNonIncreasing(items, rows, before, p, above);
      GroupBelow(items, tied, p, prior, above, low);
    }
  }

  lemma SharesFollowWeights(pool: int, w: seq<real>, i: nat, j: nat)
    requires SumReal(w) > 0.0 && i < |w| && j < |w| && pool >= 0 && w[i] >= w[j]
    ensures ExactShares(pool, w)[i] >= ExactShares(pool, w)[j]
  {
    hide SumReal;
    TimesMonotone(pool as real, w[i], w[j]);
    DivideMonotone(pool as real * w[i], pool as real * w[j], SumReal(w));
  }

  lemma TimesMonotone(c: real, a: real, b: real)
    requires c >= 0.0 && a >= b
    ensures c * a >= c * b
  {
  }

  lemma DivideMonotone(a: real, b: real, t: real)
    requires a >= b && t > 0.0
    ensures a / t >= b / t
  {
  }

  /** With bands that do not increase, nobody is paid less than a row ranked below. */
  lemma BetterPositionEarnsNoLess(pool: int, items: seq<PrizeDistributionItem>, rows: seq<PrizeRow>,
                                  payouts: seq<Payout>, i: nat, j: nat)
    requires ValidDistribution(items) && NonIncreasing(items) && Standings(rows)
    requires IsPayout(pool, items, rows, payouts) && i < j < |payouts|
    ensures payouts[i].amount >= payouts[j].amount
    ensures payouts[i].position <= payouts[j].position
  {
    var ws := WeightedRows(items, rows);
    var ps := FirstPositions(rows);
    assert ps[..|ps|] == ps;
    GroupsTile(rows);
    TilingChain(rows, ps, |ps|);
    var low := PercentageAt(items, |rows|);
    GroupsNonIncreasing(items, rows, ps, |rows| + 1, low);
    PaidFromTheTop(items, rows);
    StandingsNonDecreasing(rows, i, j);
    FallingOrder(ws, low as real, i, j);
    SharesFollowWeights(pool, Weights(ws), i, j);
    HeavierNeverPaidLess(ExactShares(pool, Weights(ws)), pool, Amounts(payouts), i, j);
    assert Amounts(payouts)[i] == payouts[i].amount && Amounts(payouts)[j] == payouts[j].amount;
  }

  lemma {:induction false} StandingsNonDecreasing(rows: seq<PrizeRow>, i: nat, j: nat)
    requires Standings(rows) && i <= j < |rows|
    ensures rows[i].position <= rows[j].position
    decreases j
  {
    if i < j {
      StandingsBounds(rows);
      StandingsNonDecreasing(rows, i, j - 1);
    }
  }
}
