/**
 The prize split of a Mesa (src/services/bolao/bolao-prize.service.ts): the pool of
 an amount collected, the weights of tie groups, and the largest-remainder payout.
 Shares are exact rationals here, written as `real`.
 */
module BolaoPrize {
  import opened Common

  datatype PrizeDistributionItem = PrizeDistributionItem(position: int, percentage: int)

  datatype PrizeRow = PrizeRow(userId: UserId, position: int)

  datatype WeightedRow = WeightedRow(userId: UserId, position: int, weight: real)

  datatype Payout = Payout(userId: UserId, position: int, amount: int)

  datatype PoolTotals = PoolTotals(grossCollected: int, platformFee: int, prizePool: int)

  datatype DistributionError = NoBands | PositionsNotSequential | PercentageNotPositive | NotOneHundred

  // ---------- validateDistribution and calculatePool ----------

  function Percentages(items: seq<PrizeDistributionItem>): (p: seq<int>)
    ensures |p| == |items|
  {
    seq(|items|, i requires 0 <= i < |items| => items[i].percentage)
  }

  /** What a usable distribution is: bands 1, 2, 3, ... with positive shares of 100%. */
  predicate ValidDistribution(items: seq<PrizeDistributionItem>) {
    && |items| > 0
    && (forall i | 0 <= i < |items| :: items[i].position == i + 1 && items[i].percentage > 0)
    && SumInt(Percentages(items)) == 100
  }

  /** The first item, in order, that fails a check decides the error. */
  function ItemError(items: seq<PrizeDistributionItem>, from: nat): (e: Option<DistributionError>)
    requires from <= |items|
    ensures e == None <==>
            forall i | from <= i < |items| :: items[i].position == i + 1 && items[i].percentage > 0
    ensures e.Some? ==> e.value == PositionsNotSequential || e.value == PercentageNotPositive
    decreases |items| - from
  {
    if from == |items| then None
    else if items[from].position != from + 1 then Some(PositionsNotSequential)
    else if items[from].percentage <= 0 then Some(PercentageNotPositive)
    else ItemError(items, from + 1)
  }

  function ValidateDistribution(items: seq<PrizeDistributionItem>): (r: Result<seq<PrizeDistributionItem>,
                                DistributionError>)
    ensures r.Ok? <==> ValidDistribution(items)
    ensures r.Ok? ==> r.value == items
    ensures |items| == 0 ==> r == Err(NoBands)
  {
    if |items| == 0 then Err(NoBands)
    else
      var itemError := ItemError(items, 0);
      if itemError.Some? then Err(itemError.value)
      else if SumInt(Percentages(items)) != 100 then Err(NotOneHundred)
      else Ok(items)
  }

  /** The platform keeps a tenth, rounded down; the rest is the prize. */
  function CalculatePool(grossCollected: int): (t: PoolTotals)
    ensures t.platformFee + t.prizePool == grossCollected == t.grossCollected
    ensures 10 * t.platformFee <= grossCollected < 10 * t.platformFee + 10
    ensures grossCollected > 0 ==> t.prizePool > 0
  {
    var platformFee := grossCollected / 10;
    PoolTotals(grossCollected, platformFee, grossCollected - platformFee)
  }

  // ---------- tie groups and weights ----------

  /** Percentage of a position, 0 where the distribution has no band. */
  function PercentageAt(items: seq<PrizeDistributionItem>, position: int): int {
    if 1 <= position <= |items| then items[position - 1].percentage else 0
  }

  /** Sum of the percentages of `count` consecutive positions. */
  function PercentageSum(items: seq<PrizeDistributionItem>, position: int, count: nat): int {
    if count == 0 then 0
    else PercentageSum(items, position, count - 1) + PercentageAt(items, position + count - 1)
  }

  /** The distinct positions of the rows, in order of first appearance. */
  function FirstPositions(rows: seq<PrizeRow>): (ps: seq<int>) {
    if |rows| == 0 then []
    else
      var before := FirstPositions(rows[..|rows| - 1]);
      var last := rows[|rows| - 1];
      if last.position in before then before else before + [last.position]
  }

  /** Each position of a row is listed, once. */
  lemma {:induction false} PositionsListed(rows: seq<PrizeRow>)
    ensures forall i | 0 <= i < |rows| :: rows[i].position in FirstPositions(rows)
    ensures forall i, j | 0 <= i < j < |FirstPositions(rows)| :: FirstPositions(rows)[i] != FirstPositions(rows)[j]
  {
    if |rows| > 0 {
      PositionsListed(rows[..|rows| - 1]);
      assert forall i | 0 <= i < |rows| - 1 :: rows[i] == rows[..|rows| - 1][i];
    }
  }

  /** A listed position is that of a row. */
  lemma {:induction false} ListedPosition(rows: seq<PrizeRow>, p: int) returns (i: nat)
    requires p in FirstPositions(rows)
    ensures i < |rows| && rows[i].position == p
  {
    var n := |rows| - 1;
    if p in FirstPositions(rows[..n]) {
      i := ListedPosition(rows[..n], p);
    } else {
      i := n;
    }
  }

  /** The rows at a position, in their order. */
  function TiedRows(rows: seq<PrizeRow>, position: int): (tied: seq<PrizeRow>) {
    if |rows| == 0 then []
    else
      var last := rows[|rows| - 1];
      TiedRows(rows[..|rows| - 1], position) + (if last.position == position then [last] else [])
  }

  /** One tie group: nothing if its positions carry no percentage, else equal weights. */
  function WeightedGroup(items: seq<PrizeDistributionItem>, tied: seq<PrizeRow>, position: int): seq<WeightedRow> {
    var percentage := PercentageSum(items, position, |tied|);
    if percentage == 0 || |tied| == 0 then []
    else
      seq(|tied|, i requires 0 <= i < |tied| =>
        WeightedRow(tied[i].userId, tied[i].position, percentage as real / |tied| as real))
  }

  function WeightedGroups(items: seq<PrizeDistributionItem>, rows: seq<PrizeRow>,
                          positions: seq<int>): seq<WeightedRow> {
    if |positions| == 0 then []
    else
      var p := positions[|positions| - 1];
      WeightedGroups(items, rows, positions[..|positions| - 1]) + WeightedGroup(items, TiedRows(rows, p), p)
  }

  function WeightedRows(items: seq<PrizeDistributionItem>, rows: seq<PrizeRow>): seq<WeightedRow> {
    WeightedGroups(items, rows, FirstPositions(rows))
  }

  function Weights(ws: seq<WeightedRow>): (w: seq<real>)
    ensures |w| == |ws|
  {
    seq(|ws|, i requires 0 <= i < |ws| => ws[i].weight)
  }

  /** The exact share of each weighted row. */
  function ExactShares(pool: int, w: seq<real>): (x: seq<real>)
    requires SumReal(w) > 0.0
    ensures |x| == |w|
    ensures forall i | 0 <= i < |w| :: x[i] == pool as real * w[i] / SumReal(w)
  {
    seq(|w|, i requires 0 <= i < |w| => pool as real * w[i] / SumReal(w))
  }

  lemma PercentageSumNonNegative(items: seq<PrizeDistributionItem>, position: int, count: nat)
    requires ValidDistribution(items)
    ensures PercentageSum(items, position, count) >= 0
  {
  }

  lemma RatioPositive(a: real, b: real)
    requires a > 0.0 && b > 0.0
    ensures a / b > 0.0
  {
  }

  lemma GroupPositive(items: seq<PrizeDistributionItem>, tied: seq<PrizeRow>, position: int)
    requires ValidDistribution(items)
    ensures forall i | 0 <= i < |WeightedGroup(items, tied, position)| ::
              WeightedGroup(items, tied, position)[i].weight > 0.0
  {
    PercentageSumNonNegative(items, position, |tied|);
    if PercentageSum(items, position, |tied|) > 0 && |tied| > 0 {
      RatioPositive(PercentageSum(items, position, |tied|) as real, |tied| as real);
    }
  }

  lemma {:induction false} WeightedGroupsPositive(items: seq<PrizeDistributionItem>, rows: seq<PrizeRow>,
                                                  positions: seq<int>)
    requires ValidDistribution(items)
    ensures forall i | 0 <= i < |WeightedGroups(items, rows, positions)| ::
              WeightedGroups(items, rows, positions)[i].weight > 0.0
  {
    if |positions| > 0 {
      var p := positions[|positions| - 1];
      WeightedGroupsPositive(items, rows, positions[..|positions| - 1]);
      GroupPositive(items, TiedRows(rows, p), p);
    }
  }

  lemma {:induction false} SumRealPositive(s: seq<real>)
    requires forall i | 0 <= i < |s| :: s[i] > 0.0
    ensures SumReal(s) >= 0.0
    ensures |s| > 0 ==> SumReal(s) > 0.0
  {
    if |s| > 0 {
      SumRealPositive(s[..|s| - 1]);
    }
  }

  // ---------- the largest-remainder rule, stated without an algorithm ----------

  function Remainder(x: real): (r: real)
    ensures 0.0 <= r < 1.0
  {
    x - x.Floor as real
  }

  /** Row i is served before row j: a larger remainder, or an equal one and earlier. */
  ghost predicate Beats(x: seq<real>, i: nat, j: nat)
    requires i < |x| && j < |x|
  {
    Remainder(x[i]) > Remainder(x[j]) || (Remainder(x[i]) == Remainder(x[j]) && i < j)
  }

  /** `a` pays out the whole pool, each row its floor or one more, extras by priority. */
  ghost predicate LargestRemainder(x: seq<real>, pool: int, a: seq<int>) {
    && |a| == |x|
    && (forall i | 0 <= i < |x| :: a[i] == x[i].Floor || a[i] == x[i].Floor + 1)
    && SumInt(a) == pool
    && (forall i, j | 0 <= i < |x| && 0 <= j < |x| && a[i] == x[i].Floor + 1 && a[j] == x[j].Floor ::
          Beats(x, i, j))
  }

  function Amounts(payouts: seq<Payout>): (a: seq<int>)
    ensures |a| == |payouts|
  {
    seq(|payouts|, i requires 0 <= i < |payouts| => payouts[i].amount)
  }

  /** What `calculatePayouts` must return, for every input. */
  ghost predicate IsPayout(prizePool: int, items: seq<PrizeDistributionItem>, rows: seq<PrizeRow>, payouts: seq<Payout>)
    requires ValidDistribution(items)
  {
    var ws := WeightedRows(items, rows);
    if prizePool <= 0 || |ws| == 0 then payouts == []
    else
      && |payouts| == |ws|
      && (forall i | 0 <= i < |ws| :: payouts[i].userId == ws[i].userId && payouts[i].position == ws[i].position)
      && SumReal(Weights(ws)) > 0.0
      && LargestRemainder(ExactShares(prizePool, Weights(ws)), prizePool, Amounts(payouts))
  }

  lemma WeightsPositive(items: seq<PrizeDistributionItem>, rows: seq<PrizeRow>)
    requires ValidDistribution(items)
    ensures var w := Weights(WeightedRows(items, rows));
            && (forall i | 0 <= i < |w| :: w[i] > 0.0)
            && (|w| > 0 ==> SumReal(w) > 0.0)
  {
    WeightedGroupsPositive(items, rows, FirstPositions(rows));
    SumRealPositive(Weights(WeightedRows(items, rows)));
  }

  // ---------- arithmetic of shares ----------

  lemma {:induction false} SumScaled(w: seq<real>, c: real, x: seq<real>)
    requires |x| == |w| && forall i | 0 <= i < |w| :: x[i] == c * w[i]
    ensures SumReal(x) == c * SumReal(w)
  {
    if |w| > 0 {
      SumScaled(w[..|w| - 1], c, x[..|w| - 1]);
    }
  }

  /** The exact shares add up to the pool. */
  lemma SharesAddUp(pool: int, w: seq<real>)
    requires SumReal(w) > 0.0
    ensures SumReal(ExactShares(pool, w)) == pool as real
  {
    var t := SumReal(w);
    var c := pool as real / t;
    var x := ExactShares(pool, w);
    forall i | 0 <= i < |w| ensures x[i] == c * w[i] {
      assert x[i] == pool as real * w[i] / t;
    }
    SumScaled(w, c, x);
  }

  function Floors(x: seq<real>): (f: seq<int>)
    ensures |f| == |x|
  {
    seq(|x|, i requires 0 <= i < |x| => x[i].Floor)
  }

  lemma {:induction false} FloorsBelow(x: seq<real>)
    ensures SumInt(Floors(x)) as real <= SumReal(x)
    ensures |x| > 0 ==> SumReal(x) < SumInt(Floors(x)) as real + |x| as real
  {
    if |x| > 0 {
      var y := x[..|x| - 1];
      FloorsBelow(y);
      assert Floors(x)[..|x| - 1] == Floors(y);
    }
  }

  /** What flooring leaves over is fewer coins than there are rows. */
  lemma LeftoverBelowRows(pool: int, w: seq<real>)
    requires |w| > 0 && SumReal(w) > 0.0
    ensures 0 <= pool - SumInt(Floors(ExactShares(pool, w))) < |w|
  {
    SharesAddUp(pool, w);
    FloorsBelow(ExactShares(pool, w));
  }

  // ---------- calculatePayouts ----------

  /** An allocation in progress; the remainder order holds the same objects. */
  class AllocatedRow {
    const userId: UserId
    const position: int
    const order: nat
    const exactAmount: real
    var amount: int

    constructor (row: WeightedRow, order: nat, exactAmount: real)
      ensures userId == row.userId && position == row.position
      ensures this.order == order && this.exactAmount == exactAmount
      ensures amount == exactAmount.Floor
    {
      this.userId, this.position := row.userId, row.position;
      this.order, this.exactAmount := order, exactAmount;
      this.amount := exactAmount.Floor;
    }

    /** The comparator of the remainder order. */
    ghost predicate ServedBefore(that: AllocatedRow) {
      || Remainder(exactAmount) > Remainder(that.exactAmount)
      || (Remainder(exactAmount) == Remainder(that.exactAmount) && order < that.order)
    }
  }

  ghost predicate InServiceOrder(rows: seq<AllocatedRow>) {
    forall i, j | 0 <= i < j < |rows| :: rows[i].ServedBefore(rows[j])
  }

  /** Where a row belongs in a list already in service order. */
  method FindSlot(sorted: seq<AllocatedRow>, row: AllocatedRow) returns (at: nat)
    requires InServiceOrder(sorted)
    requires forall i | 0 <= i < |sorted| :: sorted[i].order != row.order
    ensures at <= |sorted|
    ensures forall i | 0 <= i < at :: sorted[i].ServedBefore(row)
    ensures forall i | at <= i < |sorted| :: row.ServedBefore(sorted[i])
  {
    at := |sorted|;
    while at > 0 && (Remainder(row.exactAmount) > Remainder(sorted[at - 1].exactAmount)
                     || (Remainder(row.exactAmount) == Remainder(sorted[at - 1].exactAmount)
                         && row.order < sorted[at - 1].order))
      invariant at <= |sorted|
      invariant forall i | at <= i < |sorted| :: row.ServedBefore(sorted[i])
    {
      at := at - 1;
    }
    if at > 0 {
      assert sorted[at - 1].ServedBefore(row);
    }
  }

  lemma InsertedInOrder(sorted: seq<AllocatedRow>, row: AllocatedRow, at: nat)
    requires at <= |sorted| && InServiceOrder(sorted)
    requires forall i | 0 <= i < at :: sorted[i].ServedBefore(row)
    requires forall i | at <= i < |sorted| :: row.ServedBefore(sorted[i])
    ensures InServiceOrder(sorted[..at] + [row] + sorted[at..])
    ensures multiset(sorted[..at] + [row] + sorted[at..]) == multiset(sorted + [row])
  {
    assert sorted == sorted[..at] + sorted[at..];
  }

  lemma OrdersSoFar(sorted: seq<AllocatedRow>, allotted: seq<AllocatedRow>, k: nat)
    requires k < |allotted| && forall i | 0 <= i < |allotted| :: allotted[i].order == i
    requires multiset(sorted) == multiset(allotted[..k])
    ensures forall i | 0 <= i < |sorted| :: sorted[i].order != allotted[k].order
  {
    forall i | 0 <= i < |sorted| ensures sorted[i].order != k {
      assert sorted[i] in multiset(allotted[..k]);
    }
  }

  /** The sort of the remainder order: the same objects, by remainder and then order. */
  method SortByRemainder(allotted: seq<AllocatedRow>) returns (sorted: seq<AllocatedRow>)
    requires forall i | 0 <= i < |allotted| :: allotted[i].order == i
    ensures multiset(sorted) == multiset(allotted)
    ensures InServiceOrder(sorted)
  {
    sorted := [];
    for k := 0 to |allotted|
      invariant multiset(sorted) == multiset(allotted[..k])
      invariant InServiceOrder(sorted)
    {
      var row := allotted[k];
      OrdersSoFar(sorted, allotted, k);
      var at := FindSlot(sorted, row);
      InsertedInOrder(sorted, row, at);
      assert multiset(sorted + [row]) == multiset(sorted) + multiset{row};
      sorted := sorted[..at] + [row] + sorted[at..];
      assert allotted[..k + 1] == allotted[..k] + [row];
    }
    assert allotted[..|allotted|] == allotted;
  }

  lemma {:induction false} NoTiedRows(rows: seq<PrizeRow>, position: int)
    requires position !in FirstPositions(rows)
    ensures TiedRows(rows, position) == []
  {
    if |rows| > 0 {
      NoTiedRows(rows[..|rows| - 1], position);
    }
  }

  lemma OneMoreTied(rows: seq<PrizeRow>, row: PrizeRow, p: int)
    ensures TiedRows(rows + [row], p) == TiedRows(rows, p) + (if row.position == p then [row] else [])
  {
    assert (rows + [row])[..|rows|] == rows;
  }

  lemma OneMorePosition(rows: seq<PrizeRow>, row: PrizeRow)
    ensures FirstPositions(rows + [row]) ==
              if row.position in FirstPositions(rows) then FirstPositions(rows)
              else FirstPositions(rows) + [row.position]
  {
    assert (rows + [row])[..|rows|] == rows;
  }

  /** The groups of the rows, under their keys. */
  ghost predicate Grouped(rows: seq<PrizeRow>, keys: seq<int>, groups: map<int, seq<PrizeRow>>) {
    && keys == FirstPositions(rows)
    && (forall p :: p in groups <==> p in keys)
    && (forall p | p in groups :: groups[p] == TiedRows(rows, p))
  }

  /** One row more goes to the end of its group, which is new if its position is. */
  lemma GroupedNext(rows: seq<PrizeRow>, row: PrizeRow, keys: seq<int>, groups: map<int, seq<PrizeRow>>,
                    keys': seq<int>, group: seq<PrizeRow>)
    requires Grouped(rows, keys, groups)
    requires keys' == if row.position in groups then keys else keys + [row.position]
    requires group == if row.position in groups then groups[row.position] else []
    ensures Grouped(rows + [row], keys', groups[row.position := group + [row]])
  {
    hide FirstPositions, TiedRows;
    OneMorePosition(rows, row);
    if row.position !in groups {
      NoTiedRows(rows, row.position);
    }
    forall p | p in groups || p == row.position
      ensures TiedRows(rows + [row], p) == TiedRows(rows, p) + (if row.position == p then [row] else []) {
      OneMoreTied(rows, row, p);
    }
  }

  /** Groups the rows by position, in the insertion order of a JavaScript Map. */
  method GroupByPosition(rows: seq<PrizeRow>) returns (keys: seq<int>, groups: map<int, seq<PrizeRow>>)
    ensures keys == FirstPositions(rows)
    ensures forall p :: p in groups <==> p in keys
    ensures forall p | p in groups :: groups[p] == TiedRows(rows, p)
  {
    hide FirstPositions, TiedRows;
    keys, groups := [], map[];
    GroupedNone();
    for k := 0 to |rows|
      invariant Grouped(rows[..k], keys, groups)
    {
      var row := rows[k];
      ghost var before := keys;
      if row.position !in groups {
        keys := keys + [row.position];
      }
      var group := if row.position in groups then groups[row.position] else [];
      GroupedNext(rows[..k], row, before, groups, keys, group);
      assert rows[..k + 1] == rows[..k] + [row];
      groups := groups[row.position := group + [row]];
    }
    assert rows[..|rows|] == rows;
  }

  lemma GroupedNone()
    ensures Grouped([], [], map[])
  {
  }

  /** Appends the rows of one tie group with their common weight. */
  method WeighGroup(items: seq<PrizeDistributionItem>, tiedRows: seq<PrizeRow>, position: int,
                    weighted: seq<WeightedRow>, totalWeight: real)
    returns (weighted': seq<WeightedRow>, totalWeight': real)
    requires totalWeight == SumReal(Weights(weighted))
    ensures weighted' == weighted + WeightedGroup(items, tiedRows, position)
    ensures totalWeight' == SumReal(Weights(weighted'))
  {
    hide PercentageAt;
    weighted', totalWeight' := weighted, totalWeight;
    var groupPercentage := 0;
    for n := 0 to |tiedRows|
      invariant groupPercentage == PercentageSum(items, position, n)
    {
      groupPercentage := groupPercentage + PercentageAt(items, position + n);
    }
    if groupPercentage == 0 || |tiedRows| == 0 {
      return;
    }
    ghost var group := WeightedGroup(items, tiedRows, position);
    var weight := groupPercentage as real / |tiedRows| as real;
    for n := 0 to |tiedRows|
      invariant weighted' == weighted + group[..n]
      invariant totalWeight' == SumReal(Weights(weighted'))
    {
      var row := WeightedRow(tiedRows[n].userId, tiedRows[n].position, weight);
      assert group[..n + 1] == group[..n] + [row];
      assert Weights(weighted' + [row])[..|weighted'|] == Weights(weighted');
      weighted' := weighted' + [row];
      totalWeight' := totalWeight' + weight;
    }
    assert group[..|tiedRows|] == group;
  }

  method WeighRows(items: seq<PrizeDistributionItem>, rows: seq<PrizeRow>)
                   returns (weighted: seq<WeightedRow>, totalWeight: real)
    ensures weighted == WeightedRows(items, rows)
    ensures totalWeight == SumReal(Weights(weighted))
  {
    hide WeightedGroup, TiedRows, FirstPositions;
    var keys, groups := GroupByPosition(rows);
    weighted, totalWeight := [], 0.0;
    for k := 0 to |keys|
      invariant weighted == WeightedGroups(items, rows, keys[..k])
      invariant totalWeight == SumReal(Weights(weighted))
    {
      assert keys[..k + 1][..k] == keys[..k];
      var position := keys[k];
      assert position in keys;
      weighted, totalWeight := WeighGroup(items, groups[position], position, weighted, totalWeight);
    }
    assert keys[..|keys|] == keys;
  }

  ghost function AmountsOf(allotted: seq<AllocatedRow>): (a: seq<int>)
    reads allotted
    ensures |a| == |allotted|
  {
    seq(|allotted|, i requires 0 <= i < |allotted| reads allotted => allotted[i].amount)
  }

  /** Floors every exact share. */
  method Allocate(prizePool: int, weighted: seq<WeightedRow>, totalWeight: real) returns (allotted: seq<AllocatedRow>)
    requires |weighted| > 0 && totalWeight == SumReal(Weights(weighted)) && totalWeight > 0.0
    ensures fresh(allotted) && |allotted| == |weighted|
    ensures forall i | 0 <= i < |allotted| ::
              && allotted[i].userId == weighted[i].userId
              && allotted[i].position == weighted[i].position
              && allotted[i].order == i
              && allotted[i].exactAmount == ExactShares(prizePool, Weights(weighted))[i]
    ensures AmountsOf(allotted) == Floors(ExactShares(prizePool, Weights(weighted)))
  {
    allotted := [];
    ghost var x := ExactShares(prizePool, Weights(weighted));
    for k := 0 to |weighted|
      invariant fresh(allotted) && |allotted| == k
      invariant forall i | 0 <= i < k ::
                  && allotted[i].userId == weighted[i].userId
                  && allotted[i].position == weighted[i].position
                  && allotted[i].order == i && allotted[i].exactAmount == x[i]
                  && allotted[i].amount == allotted[i].exactAmount.Floor
    {
      var exactAmount := prizePool as real * weighted[k].weight / totalWeight;
      assert exactAmount == x[k];
      var row := new AllocatedRow(weighted[k], k, exactAmount);
      allotted := allotted + [row];
    }
  }

  ghost function OrderNumbers(rows: seq<AllocatedRow>): (o: seq<nat>)
    ensures |o| == |rows| && forall j | 0 <= j < |rows| :: o[j] == rows[j].order
  {
    seq(|rows|, j requires 0 <= j < |rows| => rows[j].order)
  }

  /** The remainder order lists the same objects, each at its place among the allotted. */
  ghost predicate OrderOf(remainderOrder: seq<AllocatedRow>, allotted: seq<AllocatedRow>) {
    && |remainderOrder| == |allotted|
    && (forall j | 0 <= j < |remainderOrder| ::
          remainderOrder[j].order < |allotted| && allotted[remainderOrder[j].order] == remainderOrder[j])
    && (forall i, j | 0 <= i < j < |allotted| :: allotted[i] != allotted[j])
  }

  /** One more coin for each of the first `k` rows of an order. */
  ghost function Served(a: seq<int>, order: seq<nat>, k: nat): (b: seq<int>)
    requires k <= |order| && forall j | 0 <= j < |order| :: order[j] < |a|
    ensures |b| == |a|
  {
    if k == 0 then a
    else
      var b := Served(a, order, k - 1);
      b[order[k - 1] := b[order[k - 1]] + 1]
  }

  lemma {:induction false} ServedAmounts(a: seq<int>, order: seq<nat>, k: nat)
    requires k <= |order| && forall j | 0 <= j < |order| :: order[j] < |a|
    requires forall i, j | 0 <= i < j < |order| :: order[i] != order[j]
    ensures SumInt(Served(a, order, k)) == SumInt(a) + k
    ensures forall j | 0 <= j < |order| :: Served(a, order, k)[order[j]] == a[order[j]] + (if j < k then 1 else 0)
  {
    if k > 0 {
      var b := Served(a, order, k - 1);
      ServedAmounts(a, order, k - 1);
      SumIntUpdate(b, order[k - 1], b[order[k - 1]] + 1);
    }
  }

  lemma NoWrap(x: nat, n: nat)
    requires x < n
    ensures x % n == x
  {
  }

  /** One more coin for one row, seen through the allotted rows. */
  method GiveCoin(allotted: seq<AllocatedRow>, row: AllocatedRow)
    requires row.order < |allotted| && allotted[row.order] == row
    requires forall i, j | 0 <= i < j < |allotted| :: allotted[i] != allotted[j]
    modifies row
    ensures AmountsOf(allotted) == old(AmountsOf(allotted))[row.order := old(AmountsOf(allotted))[row.order] + 1]
  {
    row.amount := row.amount + 1;
  }

  method ServeNext(allotted: seq<AllocatedRow>, remainderOrder: seq<AllocatedRow>, index: nat,
                   ghost amounts: seq<int>)
    requires index < |remainderOrder| && OrderOf(remainderOrder, allotted) && |amounts| == |allotted|
    requires AmountsOf(allotted) == Served(amounts, OrderNumbers(remainderOrder), index)
    modifies remainderOrder[index]
    ensures AmountsOf(allotted) == Served(amounts, OrderNumbers(remainderOrder), index + 1)
  {
    GiveCoin(allotted, remainderOrder[index]);
  }

  /** Hands the leftover coins out, one each, round the remainder order. */
  method HandOut(allotted: seq<AllocatedRow>, remainderOrder: seq<AllocatedRow>, leftover: int)
    requires 0 <= leftover < |remainderOrder| && OrderOf(remainderOrder, allotted)
    modifies allotted
    ensures AmountsOf(allotted) == Served(old(AmountsOf(allotted)), OrderNumbers(remainderOrder), leftover)
  {
    var n := |remainderOrder|;
    ghost var order, amounts := OrderNumbers(remainderOrder), AmountsOf(allotted);
    var remaining, index := leftover, 0;
    while remaining > 0
      invariant 0 <= remaining <= leftover && index == leftover - remaining
      invariant AmountsOf(allotted) == Served(amounts, order, index)
    {
      ServeNext(allotted, remainderOrder, index, amounts);
      NoWrap(index + 1, n);
      remaining := remaining - 1;
      index := (index + 1) % n;
    }
  }

  /** Serving a priority order from the front gives extras by priority. */
  lemma ExtrasByPriority(x: seq<real>, pool: int, order: seq<nat>, leftover: int, a: seq<int>)
    requires |order| == |x| == |a| && SumInt(a) == pool
    requires forall k | 0 <= k < |order| :: order[k] < |x|
    requires forall i | 0 <= i < |x| :: i in order
    requires forall k, l | 0 <= k < l < |order| :: Beats(x, order[k], order[l])
    requires forall k | 0 <= k < |order| :: a[order[k]] == x[order[k]].Floor + (if k < leftover then 1 else 0)
    ensures LargestRemainder(x, pool, a)
  {
    forall i | 0 <= i < |x| ensures a[i] == x[i].Floor || a[i] == x[i].Floor + 1 {
      assert i in order;
      var k :| 0 <= k < |order| && order[k] == i;
    }
    forall i, j | 0 <= i < |x| && 0 <= j < |x| && a[i] == x[i].Floor + 1 && a[j] == x[j].Floor
      ensures Beats(x, i, j)
    {
      assert i in order;
      var k :| 0 <= k < |order| && order[k] == i;
      assert j in order;
      var l :| 0 <= l < |order| && order[l] == j;
      assert k < leftover <= l;
    }
  }

  /** The sum of the floored amounts, subtracted from the pool. */
  method Leftover(prizePool: int, allotted: seq<AllocatedRow>) returns (remaining: int)
    ensures remaining == prizePool - SumInt(AmountsOf(allotted))
  {
    remaining := prizePool;
    ghost var amounts := AmountsOf(allotted);
    for k := 0 to |allotted|
      invariant remaining == prizePool - SumInt(amounts[..k])
    {
      assert amounts[..k + 1][..k] == amounts[..k];
      remaining := remaining - allotted[k].amount;
    }
    assert amounts[..|allotted|] == amounts;
  }

  /** A sort of the allotted rows is an order of them. */
  lemma SortIsOrder(remainderOrder: seq<AllocatedRow>, allotted: seq<AllocatedRow>)
    requires multiset(remainderOrder) == multiset(allotted) && InServiceOrder(remainderOrder)
    requires forall i | 0 <= i < |allotted| :: allotted[i].order == i
    ensures OrderOf(remainderOrder, allotted)
    ensures forall i | 0 <= i < |allotted| :: i in OrderNumbers(remainderOrder)
  {
    assert |multiset(remainderOrder)| == |multiset(allotted)|;
    forall j | 0 <= j < |remainderOrder|
      ensures remainderOrder[j].order < |allotted| && allotted[remainderOrder[j].order] == remainderOrder[j]
    {
      assert remainderOrder[j] in multiset(allotted);
    }
    forall i | 0 <= i < |allotted| ensures i in OrderNumbers(remainderOrder) {
      assert allotted[i] in multiset(remainderOrder);
      var j :| 0 <= j < |remainderOrder| && remainderOrder[j] == allotted[i];
      assert OrderNumbers(remainderOrder)[j] == i;
    }
  }

  /** Coins handed out in service order, on top of the floors, make a largest-remainder payout. */
  lemma ServedInOrder(x: seq<real>, pool: int, remainderOrder: seq<AllocatedRow>, leftover: nat, a: seq<int>)
    requires |remainderOrder| == |x| && InServiceOrder(remainderOrder) && leftover <= |x|
    requires forall j | 0 <= j < |remainderOrder| ::
               remainderOrder[j].order < |x| && remainderOrder[j].exactAmount == x[remainderOrder[j].order]
    requires forall i | 0 <= i < |x| :: i in OrderNumbers(remainderOrder)
    requires pool == SumInt(Floors(x)) + leftover && a == Served(Floors(x), OrderNumbers(remainderOrder), leftover)
    ensures LargestRemainder(x, pool, a)
  {
    var order := OrderNumbers(remainderOrder);
    forall k, l | 0 <= k < l < |order| ensures Beats(x, order[k], order[l]) && order[k] != order[l] {
      assert remainderOrder[k].ServedBefore(remainderOrder[l]);
    }
    ServedAmounts(Floors(x), order, leftover);
    ExtrasByPriority(x, pool, order, leftover, a);
  }

  /** Floors the shares, then serves the leftover coins by remainder. */
  method Apportion(prizePool: int, weighted: seq<WeightedRow>, totalWeight: real) returns (allotted: seq<AllocatedRow>)
    requires |weighted| > 0 && totalWeight == SumReal(Weights(weighted)) && totalWeight > 0.0
    ensures |allotted| == |weighted|
    ensures forall i | 0 <= i < |allotted| ::
              allotted[i].userId == weighted[i].userId && allotted[i].position == weighted[i].position
    ensures LargestRemainder(ExactShares(prizePool, Weights(weighted)), prizePool, AmountsOf(allotted))
  {
    ghost var x := ExactShares(prizePool, Weights(weighted));
    allotted := Allocate(prizePool, weighted, totalWeight);
    var remaining := Leftover(prizePool, allotted);
    LeftoverBelowRows(prizePool, Weights(weighted));
    var remainderOrder := SortByRemainder(allotted);
    SortIsOrder(remainderOrder, allotted);
    HandOut(allotted, remainderOrder, remaining);
    ServedInOrder(x, prizePool, remainderOrder, remaining, AmountsOf(allotted));
  }

  method CalculatePayouts(prizePool: int, prizeDistribution: seq<PrizeDistributionItem>, rows: seq<PrizeRow>)
                          returns (payouts: seq<Payout>)
    requires ValidDistribution(prizeDistribution)
    ensures IsPayout(prizePool, prizeDistribution, rows, payouts)
  {
    hide LargestRemainder, ExactShares, SumReal, WeightedGroup;
    if prizePool <= 0 || |rows| == 0 {
      return [];
    }
    var weighted, totalWeight := WeighRows(prizeDistribution, rows);
    WeightsPositive(prizeDistribution, rows);
    if |weighted| == 0 || totalWeight == 0.0 {
      return [];
    }
    var allotted := Apportion(prizePool, weighted, totalWeight);
    payouts := [];
    for k := 0 to |allotted|
      invariant |payouts| == k
      invariant forall i | 0 <= i < k ::
                  payouts[i] == Payout(allotted[i].userId, allotted[i].position, allotted[i].amount)
    {
      payouts := payouts + [Payout(allotted[k].userId, allotted[k].position, allotted[k].amount)];
    }
    assert Amounts(payouts) == AmountsOf(allotted);
  }
}
