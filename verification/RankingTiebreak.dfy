/**
 The official ranking order (src/services/ranking/ranking-tiebreak.service.ts): score,
 super doubles, doubles, older account; the user id settles the listing order only.
 */
module RankingTiebreak {
  import opened Common

  datatype Metrics = Metrics(
    userId: UserId, scoreRanking: int, superDoubleHits: int, doubleHits: int, userCreatedAt: Time)

  datatype Ranked<+T> = Ranked(row: T, position: int)

  datatype WindowHits = WindowHits(superDoubleHits: int, doubleHits: int)

  function Compare(a: Metrics, b: Metrics): int {
    if b.scoreRanking != a.scoreRanking then b.scoreRanking - a.scoreRanking
    else if b.superDoubleHits != a.superDoubleHits then b.superDoubleHits - a.superDoubleHits
    else if b.doubleHits != a.doubleHits then b.doubleHits - a.doubleHits
    else if a.userCreatedAt != b.userCreatedAt then a.userCreatedAt - b.userCreatedAt
    else a.userId - b.userId
  }

  predicate SameOfficialPosition(a: Metrics, b: Metrics) {
    && a.scoreRanking == b.scoreRanking
    && a.superDoubleHits == b.superDoubleHits
    && a.doubleHits == b.doubleHits
    && a.userCreatedAt == b.userCreatedAt
  }

  /** Strictly better on the four official keys, taken in order. */
  predicate Better(a: Metrics, b: Metrics) {
    || a.scoreRanking > b.scoreRanking
    || (a.scoreRanking == b.scoreRanking
        && (|| a.superDoubleHits > b.superDoubleHits
            || (a.superDoubleHits == b.superDoubleHits
                && (|| a.doubleHits > b.doubleHits
                    || (a.doubleHits == b.doubleHits && a.userCreatedAt < b.userCreatedAt)))))
  }

  /** `compare` is a strict total order on distinct users, refining the official keys. */
  lemma CompareIsTotalOrder(a: Metrics, b: Metrics, c: Metrics)
    ensures Compare(a, b) < 0 <==> Compare(b, a) > 0
    ensures Compare(a, b) < 0 && Compare(b, c) < 0 ==> Compare(a, c) < 0
    ensures a.userId != b.userId ==> Compare(a, b) != 0
    ensures Compare(a, b) < 0 <==> Better(a, b) || (SameOfficialPosition(a, b) && a.userId < b.userId)
    ensures SameOfficialPosition(a, b) <==> !Better(a, b) && !Better(b, a)
  {
  }

  // ---------- rank ----------

  /** Places a row after every row that does not compare greater. */
  function Insert<T>(sorted: seq<T>, row: T, metricsFor: T -> Metrics): (s: seq<T>)
    ensures |s| == |sorted| + 1
  {
    if |sorted| > 0 && Compare(metricsFor(row), metricsFor(sorted[|sorted| - 1])) < 0 then
      Insert(sorted[..|sorted| - 1], row, metricsFor) + [sorted[|sorted| - 1]]
    else sorted + [row]
  }

  /** The stable sort of a copy of the rows. */
  function SortRows<T>(rows: seq<T>, metricsFor: T -> Metrics): (s: seq<T>)
    ensures |s| == |rows|
  {
    if |rows| == 0 then [] else Insert(SortRows(rows[..|rows| - 1], metricsFor), rows[|rows| - 1], metricsFor)
  }

  /** A row tied with the one before shares its position; any other takes its own place. */
  function Positions<T>(sorted: seq<T>, metricsFor: T -> Metrics): (r: seq<Ranked<T>>)
    ensures |r| == |sorted|
    ensures forall i | 0 <= i < |sorted| :: r[i].row == sorted[i]
  {
    if |sorted| == 0 then []
    else
      var n := |sorted| - 1;
      var before := Positions(sorted[..n], metricsFor);
      before + [Ranked(sorted[n],
                       if n > 0 && SameOfficialPosition(metricsFor(sorted[n]), metricsFor(sorted[n - 1]))
                       then before[n - 1].position else n + 1)]
  }

  function RankRows<T>(rows: seq<T>, metricsFor: T -> Metrics): (r: seq<Ranked<T>>)
    ensures |r| == |rows|
  {
    Positions(SortRows(rows, metricsFor), metricsFor)
  }

  /** Inserts one row, from the end. */
  method InsertRow<T>(sorted: seq<T>, row: T, metricsFor: T -> Metrics) returns (inserted: seq<T>)
    ensures inserted == Insert(sorted, row, metricsFor)
  {
    var at := |sorted|;
    assert sorted[..at] == sorted && sorted[at..] == [];
    while at > 0 && Compare(metricsFor(row), metricsFor(sorted[at - 1])) < 0
      invariant 0 <= at <= |sorted|
      invariant Insert(sorted, row, metricsFor) == Insert(sorted[..at], row, metricsFor) + sorted[at..]
    {
      assert sorted[..at][..at - 1] == sorted[..at - 1];
      assert sorted[at - 1..] == [sorted[at - 1]] + sorted[at..];
      at := at - 1;
    }
    inserted := sorted[..at] + [row] + sorted[at..];
  }

  /** Walks the sorted rows and gives each its position. */
  method AssignPositions<T>(sorted: seq<T>, metricsFor: T -> Metrics) returns (ranked: seq<Ranked<T>>)
    ensures ranked == Positions(sorted, metricsFor)
  {
    ranked := [];
    var position := 1;
    for index := 0 to |sorted|
      invariant ranked == Positions(sorted[..index], metricsFor)
      invariant index > 0 ==> position == ranked[index - 1].position
      invariant index == 0 ==> position == 1
    {
      if index > 0 && !SameOfficialPosition(metricsFor(sorted[index]), metricsFor(sorted[index - 1])) {
        position := index + 1;
      }
      assert sorted[..index + 1][..index] == sorted[..index];
      ranked := ranked + [Ranked(sorted[index], position)];
    }
    assert sorted[..|sorted|] == sorted;
  }

  method Rank<T>(rows: seq<T>, metricsFor: T -> Metrics) returns (ranked: seq<Ranked<T>>)
    ensures ranked == RankRows(rows, metricsFor)
  {
    var sorted := [];
    for k := 0 to |rows|
      invariant sorted == SortRows(rows[..k], metricsFor)
    {
      assert rows[..k + 1][..k] == rows[..k];
      sorted := InsertRow(sorted, rows[k], metricsFor);
    }
    assert rows[..|rows|] == rows;
    ranked := AssignPositions(sorted, metricsFor);
  }

  // ---------- what rank promises ----------

  ghost predicate Sorted<T>(rows: seq<T>, metricsFor: T -> Metrics) {
    forall i, j | 0 <= i < j < |rows| :: Compare(metricsFor(rows[i]), metricsFor(rows[j])) <= 0
  }

  ghost predicate DistinctUsers<T>(rows: seq<T>, metricsFor: T -> Metrics) {
    forall i, j | 0 <= i < j < |rows| :: metricsFor(rows[i]).userId != metricsFor(rows[j]).userId
  }

  lemma SortedAppend<T>(sorted: seq<T>, row: T, metricsFor: T -> Metrics)
    requires Sorted(sorted, metricsFor)
    requires forall r | r in sorted :: Compare(metricsFor(r), metricsFor(row)) <= 0
    ensures Sorted(sorted + [row], metricsFor)
  {
    assert forall i | 0 <= i < |sorted| :: sorted[i] in sorted;
  }

  lemma {:induction false} InsertElements<T>(sorted: seq<T>, row: T, metricsFor: T -> Metrics)
    ensures multiset(Insert(sorted, row, metricsFor)) == multiset(sorted) + multiset{row}
    ensures forall r | r in Insert(sorted, row, metricsFor) :: r == row || r in sorted
  {
    var n := |sorted| - 1;
    if |sorted| > 0 && Compare(metricsFor(row), metricsFor(sorted[n])) < 0 {
      InsertElements(sorted[..n], row, metricsFor);
      assert sorted == sorted[..n] + [sorted[n]];
    }
  }

  lemma {:induction false} InsertSorted<T>(sorted: seq<T>, row: T, metricsFor: T -> Metrics)
    requires Sorted(sorted, metricsFor)
    ensures Sorted(Insert(sorted, row, metricsFor), metricsFor)
  {
    var n := |sorted| - 1;
    if |sorted| > 0 {
      if Compare(metricsFor(row), metricsFor(sorted[n])) < 0 {
        InsertSorted(sorted[..n], row, metricsFor);
        InsertElements(sorted[..n], row, metricsFor);
        SortedAppend(Insert(sorted[..n], row, metricsFor), sorted[n], metricsFor);
      } else {
        forall r | r in sorted ensures Compare(metricsFor(r), metricsFor(row)) <= 0 {
          CompareIsTotalOrder(metricsFor(r), metricsFor(sorted[n]), metricsFor(row));
        }
        SortedAppend(sorted, row, metricsFor);
      }
    }
  }

  /** The listing is the same rows, sorted. */
  lemma {:induction false} SortRowsSorts<T>(rows: seq<T>, metricsFor: T -> Metrics)
    ensures Sorted(SortRows(rows, metricsFor), metricsFor)
    ensures multiset(SortRows(rows, metricsFor)) == multiset(rows)
  {
    hide Insert, Compare;
    if |rows| > 0 {
      var n := |rows| - 1;
      SortRowsSorts(rows[..n], metricsFor);
      InsertSorted(SortRows(rows[..n], metricsFor), rows[n], metricsFor);
      InsertElements(SortRows(rows[..n], metricsFor), rows[n], metricsFor);
      assert rows == rows[..n] + [rows[n]];
    }
  }

  /** How many of the rows are strictly better on the official keys. */
  function BetterCount<T>(rows: seq<T>, metricsFor: T -> Metrics, x: Metrics): nat {
    if |rows| == 0 then 0
    else BetterCount(rows[..|rows| - 1], metricsFor, x) + (if Better(metricsFor(rows[|rows| - 1]), x) then 1 else 0)
  }

  lemma {:induction false} BetterCountInsert<T>(sorted: seq<T>, row: T, metricsFor: T -> Metrics, x: Metrics)
    ensures BetterCount(Insert(sorted, row, metricsFor), metricsFor, x) ==
            BetterCount(sorted, metricsFor, x) + (if Better(metricsFor(row), x) then 1 else 0)
  {
    var n := |sorted| - 1;
    if |sorted| > 0 && Compare(metricsFor(row), metricsFor(sorted[n])) < 0 {
      BetterCountInsert(sorted[..n], row, metricsFor, x);
      assert Insert(sorted, row, metricsFor)[..n + 1] == Insert(sorted[..n], row, metricsFor);
    } else {
      assert (sorted + [row])[..|sorted|] == sorted;
    }
  }

  lemma {:induction false} BetterCountSort<T>(rows: seq<T>, metricsFor: T -> Metrics, x: Metrics)
    ensures BetterCount(SortRows(rows, metricsFor), metricsFor, x) == BetterCount(rows, metricsFor, x)
  {
    if |rows| > 0 {
      var n := |rows| - 1;
      BetterCountSort(rows[..n], metricsFor, x);
      BetterCountInsert(SortRows(rows[..n], metricsFor), rows[n], metricsFor, x);
    }
  }

  /** If exactly the first `q` rows are better, `q` rows are better. */
  lemma {:induction false} BetterCountPrefix<T>(rows: seq<T>, metricsFor: T -> Metrics, x: Metrics, q: nat)
    requires forall j | 0 <= j < |rows| :: Better(metricsFor(rows[j]), x) <==> j < q
    ensures BetterCount(rows, metricsFor, x) == if |rows| < q then |rows| else q
  {
    if |rows| > 0 {
      BetterCountPrefix(rows[..|rows| - 1], metricsFor, x, q);
    }
  }

  /** Exactly the rows before the position of row `k` are better than it. */
  ghost predicate Splits<T>(sorted: seq<T>, metricsFor: T -> Metrics, k: nat, position: int)
    requires k < |sorted|
  {
    && 1 <= position <= k + 1
    && forall j | 0 <= j < |sorted| :: Better(metricsFor(sorted[j]), metricsFor(sorted[k])) <==> j < position - 1
  }

  lemma SortedPrefix<T>(sorted: seq<T>, n: nat, metricsFor: T -> Metrics)
    requires Sorted(sorted, metricsFor) && n <= |sorted|
    ensures Sorted(sorted[..n], metricsFor)
  {
  }

  /** A row before the last keeps its split. */
  lemma SplitKept<T>(sorted: seq<T>, metricsFor: T -> Metrics, k: nat, position: int)
    requires Sorted(sorted, metricsFor) && k < |sorted| - 1 && Splits(sorted[..|sorted| - 1], metricsFor, k, position)
    ensures Splits(sorted, metricsFor, k, position)
  {
    var n := |sorted| - 1;
    forall j | 0 <= j < |sorted| ensures Better(metricsFor(sorted[j]), metricsFor(sorted[k])) <==> j < position - 1 {
      if j < n {
        assert sorted[..n][j] == sorted[j];
      } else {
        assert Compare(metricsFor(sorted[k]), metricsFor(sorted[n])) <= 0;
      }
    }
  }

  /** The last row shares the split of the one before, or has all rows before it as better. */
  lemma SplitLast<T>(sorted: seq<T>, metricsFor: T -> Metrics, before: int)
    requires Sorted(sorted, metricsFor) && |sorted| > 1
               && Splits(sorted[..|sorted| - 1], metricsFor, |sorted| - 2, before)
    ensures var n := |sorted| - 1;
            Splits(sorted, metricsFor, n,
              if SameOfficialPosition(metricsFor(sorted[n]), metricsFor(sorted[n - 1])) then before else n + 1)
  {
    var n := |sorted| - 1;
    var x, y := metricsFor(sorted[n]), metricsFor(sorted[n - 1]);
    assert Compare(y, x) <= 0;
    forall j | 0 <= j < n
      ensures Better(metricsFor(sorted[j]), x) <==> (if SameOfficialPosition(x, y) then j < before - 1 else true)
    {
      assert sorted[..n][j] == sorted[j] && sorted[..n][n - 1] == sorted[n - 1];
      assert Better(metricsFor(sorted[j]), y) <==> j < before - 1;
      assert j < n - 1 ==> Compare(metricsFor(sorted[j]), y) <= 0;
    }
  }

  /** In a sorted list a position is one past the last better row, and ties start there. */
  lemma {:induction false} PositionSplits<T>(sorted: seq<T>, metricsFor: T -> Metrics, k: nat)
    requires Sorted(sorted, metricsFor) && k < |sorted|
    ensures Splits(sorted, metricsFor, k, Positions(sorted, metricsFor)[k].position)
    decreases |sorted|
  {
    var n := |sorted| - 1;
    SortedPrefix(sorted, n, metricsFor);
    if k < n {
      PositionSplits(sorted[..n], metricsFor, k);
      SplitKept(sorted, metricsFor, k, Positions(sorted[..n], metricsFor)[k].position);
    } else if n > 0 {
      PositionSplits(sorted[..n], metricsFor, n - 1);
      SplitLast(sorted, metricsFor, Positions(sorted[..n], metricsFor)[n - 1].position);
    }
  }

  /** Every ranked row stands one place below the rows that are strictly better. */
  lemma RankPosition<T>(rows: seq<T>, metricsFor: T -> Metrics, k: nat)
    requires k < |rows|
    ensures var r := RankRows(rows, metricsFor)[k];
            r.position == 1 + BetterCount(rows, metricsFor, metricsFor(r.row))
  {
    var sorted := SortRows(rows, metricsFor);
    SortRowsSorts(rows, metricsFor);
    PositionSplits(sorted, metricsFor, k);
    var x := metricsFor(sorted[k]);
    BetterCountPrefix(sorted, metricsFor, x, Positions(sorted, metricsFor)[k].position - 1);
    BetterCountSort(rows, metricsFor, x);
  }

  lemma SameLast<T>(s: seq<T>, t: seq<T>, metricsFor: T -> Metrics)
    requires |s| == |t| > 0 && s[|s| - 1] in t && t[|t| - 1] in s
    requires Sorted(s, metricsFor) && Sorted(t, metricsFor) && DistinctUsers(t, metricsFor)
    ensures s[|s| - 1] == t[|t| - 1]
  {
    var n := |s| - 1;
    var i :| 0 <= i <= n && t[i] == s[n];
    var j :| 0 <= j <= n && s[j] == t[n];
    if i < n {
      CompareIsTotalOrder(metricsFor(s[n]), metricsFor(t[n]), metricsFor(s[n]));
    }
  }

  lemma SameLength<T>(s: seq<T>, t: seq<T>)
    requires multiset(s) == multiset(t)
    ensures |s| == |t|
  {
    assert |multiset(s)| == |s| && |multiset(t)| == |t|;
  }

  lemma DropLast<T>(s: seq<T>, t: seq<T>)
    requires multiset(s) == multiset(t) && |s| == |t| > 0 && s[|s| - 1] == t[|t| - 1]
    ensures multiset(s[..|s| - 1]) == multiset(t[..|t| - 1])
  {
    WithoutLast(s);
    WithoutLast(t);
  }

  lemma WithoutLast<T>(s: seq<T>)
    requires |s| > 0
    ensures multiset(s[..|s| - 1]) == multiset(s) - multiset{s[|s| - 1]}
  {
    assert s == s[..|s| - 1] + [s[|s| - 1]];
  }

  lemma {:induction false} SortedUnique<T>(s: seq<T>, t: seq<T>, metricsFor: T -> Metrics)
    requires multiset(s) == multiset(t)
    requires Sorted(s, metricsFor) && Sorted(t, metricsFor) && DistinctUsers(t, metricsFor)
    ensures s == t
  {
    hide Sorted, Compare;
    SameLength(s, t);
    if |s| > 0 {
      var n := |s| - 1;
      assert s[n] in multiset(t) && t[n] in multiset(s);
      SameLast(s, t, metricsFor);
      DropLast(s, t);
      SortedPrefix(s, n, metricsFor);
      SortedPrefix(t, n, metricsFor);
      SortedUnique(s[..n], t[..n], metricsFor);
      assert s == s[..n] + [s[n]] && t == t[..n] + [t[n]];
    }
  }

  lemma {:induction false} AtMostOnce<T>(s: seq<T>, x: T, metricsFor: T -> Metrics)
    requires DistinctUsers(s, metricsFor)
    ensures multiset(s)[x] <= 1
  {
    if |s| > 0 {
      var n := |s| - 1;
      AtMostOnce(s[..n], x, metricsFor);
      assert s == s[..n] + [s[n]];
      assert s[n] !in s[..n];
    }
  }

  lemma RepeatCounts<T>(s: seq<T>, i: nat, j: nat)
    requires i < j < |s| && s[i] == s[j]
    ensures multiset(s)[s[i]] >= 2
  {
    assert s == s[..i] + [s[i]] + s[i + 1..j] + [s[j]] + s[j + 1..];
  }

  lemma SameUserSameRow<T>(s: seq<T>, x: T, y: T, metricsFor: T -> Metrics)
    requires DistinctUsers(s, metricsFor) && x in s && y in s
    requires metricsFor(x).userId == metricsFor(y).userId
    ensures x == y
  {
    var k :| 0 <= k < |s| && s[k] == x;
    var l :| 0 <= l < |s| && s[l] == y;
  }

  lemma DistinctUsersPermuted<T>(s: seq<T>, t: seq<T>, metricsFor: T -> Metrics)
    requires multiset(s) == multiset(t) && DistinctUsers(s, metricsFor)
    ensures DistinctUsers(t, metricsFor)
  {
    forall i, j | 0 <= i < j < |t| ensures metricsFor(t[i]).userId != metricsFor(t[j]).userId {
      assert t[i] in multiset(s) && t[j] in multiset(s);
      AtMostOnce(s, t[i], metricsFor);
      if metricsFor(t[i]).userId == metricsFor(t[j]).userId {
        SameUserSameRow(s, t[i], t[j], metricsFor);
        RepeatCounts(t, i, j);
      }
    }
  }

  /** The ranking of a set of users does not depend on the order they are read in. */
  lemma RankOrderIndependent<T>(rows: seq<T>, others: seq<T>, metricsFor: T -> Metrics)
    requires multiset(rows) == multiset(others) && DistinctUsers(rows, metricsFor)
    ensures RankRows(rows, metricsFor) == RankRows(others, metricsFor)
  {
    SortRowsSorts(rows, metricsFor);
    SortRowsSorts(others, metricsFor);
    DistinctUsersPermuted(rows, SortRows(others, metricsFor), metricsFor);
    SortedUnique(SortRows(rows, metricsFor), SortRows(others, metricsFor), metricsFor);
  }

  /** Hits inside a window: the running totals now, less those before it. */
  function CalculateWindowHits(current: Option<WindowHits>, baseline: Option<WindowHits>): WindowHits {
    var c := if current.Some? then current.value else WindowHits(0, 0);
    var b := if baseline.Some? then baseline.value else WindowHits(0, 0);
    WindowHits(c.superDoubleHits - b.superDoubleHits, c.doubleHits - b.doubleHits)
  }
}
