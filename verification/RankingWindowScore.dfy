/**
 Scores inside a window (src/services/ranking/ranking-window-score.service.ts): a running total at
 the end of the window, less the one before its start. When a user's rounds were scored in closing
 order this telescopes to the sum over the rounds that close inside the window.
 */
module RankingWindowScore {
  import opened Common
  import opened GameTables
  import opened GameInvariant
  import opened Columns
  import opened HitLedger
  import opened RankingTiebreak

  datatype Window = Window(startDate: Option<Time>, endDate: Option<Time>)

  /** A participant of a ranking and the total captured on entry. */
  datatype Entrant = Entrant(userId: UserId, scoreInitial: int)

  datatype WindowRow = WindowRow(
    userId: UserId, score: int, scoreRound: int, scoreInitial: int, scoreTotalCurrent: int,
    superDoubleHits: int, doubleHits: int, userCreatedAt: Time)

  /** When the round of a row closed. */
  function CloseAt(h: History, rounds: seq<Round>): Time {
    if h.roundId < |rounds| then rounds[h.roundId].closeAt else 0
  }

  /** The first row, by latest closing and then newest, whose closing time is accepted. */
  function Latest(rows: seq<History>, rounds: seq<Round>, accepts: Time -> bool): (h: Option<History>)
    ensures h.Some? ==> h.value in rows && accepts(CloseAt(h.value, rounds))
  {
    if |rows| == 0 then None
    else
      var last := rows[|rows| - 1];
      var before := Latest(rows[..|rows| - 1], rounds, accepts);
      if accepts(CloseAt(last, rounds)) && (before.None? || CloseAt(last, rounds) >= CloseAt(before.value, rounds))
      then Some(last) else before
  }

  function ScoreTotalBefore(t: Tables, u: UserId, date: Time): int {
    var h := Latest(Rows(t.histories, u), t.rounds, (x: Time) => x < date);
    if h.Some? then h.value.scoreTotal else 0
  }

  function HitsOfRow(h: Option<History>): Option<WindowHits> {
    if h.None? then None else Some(WindowHits(h.value.totalSuperDoubles, h.value.totalDoubles))
  }

  function WindowRowOf(t: Tables, w: Window, e: Entrant, now: Time): WindowRow {
    var rows := Rows(t.histories, e.userId);
    var endDate := if w.endDate.Some? then w.endDate.value else now;
    var latest := Latest(rows, t.rounds, (x: Time) => x <= endDate);
    var baseline := if w.startDate.Some?
      then Latest(rows, t.rounds, (x: Time) => x <= endDate && x < w.startDate.value) else None;
    var rankingEnded := w.endDate.Some? && now > w.endDate.value;
    var liveTotal := if e.userId in t.users then t.users[e.userId].scoreTotal else 0;
    var current := if !rankingEnded then liveTotal else if latest.Some? then latest.value.scoreTotal
      else e.scoreInitial;
    var scoreRound := if latest.Some? && (w.startDate.None? || CloseAt(latest.value, t.rounds) >= w.startDate.value)
                      then latest.value.scoreRound else 0;
    var hits := CalculateWindowHits(HitsOfRow(latest), HitsOfRow(baseline));
    WindowRow(e.userId, current - e.scoreInitial, scoreRound, e.scoreInitial, current,
              hits.superDoubleHits, hits.doubleHits,
              if e.userId in t.users then t.users[e.userId].createdAt else 0)
  }

  function RowMetrics(row: WindowRow): Metrics {
    Metrics(row.userId, row.score, row.superDoubleHits, row.doubleHits, row.userCreatedAt)
  }

  function WindowRows(t: Tables, w: Window, entrants: seq<Entrant>, now: Time): (rows: seq<WindowRow>)
    ensures |rows| == |entrants|
    ensures forall i | 0 <= i < |entrants| :: rows[i] == WindowRowOf(t, w, entrants[i], now)
  {
    seq(|entrants|, i requires 0 <= i < |entrants| => WindowRowOf(t, w, entrants[i], now))
  }

  function BuildRows(t: Tables, w: Window, entrants: seq<Entrant>, now: Time): (rows: seq<Ranked<WindowRow>>)
    ensures |rows| == |entrants|
  {
    RankRows(WindowRows(t, w, entrants, now), RowMetrics)
  }

  // ---------- telescoping ----------

  /** A user's rounds were scored in the order they closed. */
  ghost predicate CloseOrder(rows: seq<History>, rounds: seq<Round>) {
    && (forall k | 0 <= k < |rows| :: rows[k].roundId < |rounds|)
    && (forall i, j | 0 <= i < j < |rows| :: CloseAt(rows[i], rounds) <= CloseAt(rows[j], rounds))
  }

  /** The rounds whose closing time is accepted. */
  function Accepted(rounds: seq<Round>, accepts: Time -> bool): int -> bool {
    r => 0 <= r < |rounds| && accepts(rounds[r].closeAt)
  }

  function CarriedOr0(h: Option<History>, c: Column): int {
    if h.Some? then Carried(h.value, c) else 0
  }

  ghost predicate DownClosed(accepts: Time -> bool) {
    forall x, y | x <= y && accepts(y) :: accepts(x)
  }

  lemma {:induction false} AllAccepted(rows: seq<History>, rounds: seq<Round>, c: Column, accepts: Time -> bool)
    requires forall k | 0 <= k < |rows| :: rows[k].roundId < |rounds| && accepts(CloseAt(rows[k], rounds))
    ensures SelectedRows(rows, rounds, c, Accepted(rounds, accepts)) == SelectedRows(rows, rounds, c, x => true)
  {
    if |rows| > 0 {
      AllAccepted(rows[..|rows| - 1], rounds, c, accepts);
    }
  }

  lemma CumulativePrefix(rows: seq<History>, rounds: seq<Round>, c: Column)
    requires |rows| > 0 && Cumulative(rows, rounds, c)
    ensures Cumulative(rows[..|rows| - 1], rounds, c)
    ensures Carried(rows[|rows| - 1], c) == SelectedRows(rows, rounds, c, x => true)
  {
    var n := |rows| - 1;
    assert rows[..n + 1] == rows;
    forall k | 0 <= k < n ensures Carried(rows[..n][k], c) == SelectedRows(rows[..n][..k + 1], rounds, c, x => true) {
      assert rows[..n][..k + 1] == rows[..k + 1];
    }
  }

  lemma LastAcceptedCarries(rows: seq<History>, rounds: seq<Round>, c: Column, accepts: Time -> bool)
    requires |rows| > 0 && CloseOrder(rows, rounds) && Cumulative(rows, rounds, c) && DownClosed(accepts)
    requires accepts(CloseAt(rows[|rows| - 1], rounds))
    ensures CarriedOr0(Latest(rows, rounds, accepts), c) == SelectedRows(rows, rounds, c, Accepted(rounds, accepts))
  {
    var n := |rows| - 1;
    CumulativePrefix(rows, rounds, c);
    forall k | 0 <= k < |rows| ensures accepts(CloseAt(rows[k], rounds)) {
      assert CloseAt(rows[k], rounds) <= CloseAt(rows[n], rounds);
    }
    AllAccepted(rows, rounds, c, accepts);
    var before := Latest(rows[..n], rounds, accepts);
    if before.Some? {
      var k :| 0 <= k < n && rows[..n][k] == before.value;
      assert CloseAt(rows[k], rounds) <= CloseAt(rows[n], rounds);
    }
  }

  lemma CloseOrderPrefix(rows: seq<History>, rounds: seq<Round>)
    requires |rows| > 0 && CloseOrder(rows, rounds)
    ensures CloseOrder(rows[..|rows| - 1], rounds)
  {
  }

  /** The latest accepted row carries the sum over the accepted rounds. */
  lemma {:induction false} LatestCarriesSum(rows: seq<History>, rounds: seq<Round>, c: Column, accepts: Time -> bool)
    requires CloseOrder(rows, rounds) && Cumulative(rows, rounds, c) && DownClosed(accepts)
    ensures CarriedOr0(Latest(rows, rounds, accepts), c) == SelectedRows(rows, rounds, c, Accepted(rounds, accepts))
  {
    if |rows| > 0 {
      var n := |rows| - 1;
      if accepts(CloseAt(rows[n], rounds)) {
        LastAcceptedCarries(rows, rounds, c, accepts);
      } else {
        CumulativePrefix(rows, rounds, c);
        CloseOrderPrefix(rows, rounds);
        LatestCarriesSum(rows[..n], rounds, c, accepts);
      }
    }
  }

  function InWindow(rounds: seq<Round>, start: Time, end: Time): int -> bool {
    r => 0 <= r < |rounds| && start <= rounds[r].closeAt <= end
  }

  lemma {:induction false} SelectedDifference(rows: seq<History>, rounds: seq<Round>, c: Column, start: Time, end: Time)
    requires start <= end
    ensures SelectedRows(rows, rounds, c, Accepted(rounds, (x: Time) => x <= end)) -
            SelectedRows(rows, rounds, c, Accepted(rounds, (x: Time) => x < start)) ==
            SelectedRows(rows, rounds, c, InWindow(rounds, start, end))
  {
    if |rows| > 0 {
      SelectedDifference(rows[..|rows| - 1], rounds, c, start, end);
    }
  }

  /** The difference of two running values is what the rounds in between brought. */
  lemma ColumnTelescopes(rows: seq<History>, rounds: seq<Round>, u: UserId, c: Column, start: Time, end: Time)
    requires RowsStandForRounds(rows, rounds, u) && CloseOrder(rows, rounds) && Cumulative(rows, rounds, c)
    requires start <= end
    ensures CarriedOr0(Latest(rows, rounds, (x: Time) => x <= end), c)
              - CarriedOr0(Latest(rows, rounds, (x: Time) => x < start), c) ==
            SelectedRounds(rounds, u, c, InWindow(rounds, start, end), |rounds|)
  {
    LatestCarriesSum(rows, rounds, c, (x: Time) => x <= end);
    LatestCarriesSum(rows, rounds, c, (x: Time) => x < start);
    SelectedDifference(rows, rounds, c, start, end);
    RowsAddUpRounds(rows, rounds, u, c, InWindow(rounds, start, end));
  }

  lemma {:induction false} NoneAccepted(rows: seq<History>, rounds: seq<Round>, accepts: Time -> bool,
                                        fewer: Time -> bool)
    requires Latest(rows, rounds, accepts).None? && forall x | fewer(x) :: accepts(x)
    ensures Latest(rows, rounds, fewer).None?
  {
    if |rows| > 0 {
      NoneAccepted(rows[..|rows| - 1], rounds, accepts, fewer);
    }
  }

  /** After its end a window reads the total at the end, or nothing new. */
  lemma EndedScore(t: Tables, start: Time, end: Time, e: Entrant, now: Time)
    requires end < now
    ensures var latest := Latest(Rows(t.histories, e.userId), t.rounds, (x: Time) => x <= end);
            WindowRowOf(t, Window(Some(start), Some(end)), e, now).score ==
            if latest.Some? then latest.value.scoreTotal - e.scoreInitial else 0
  {
  }

  lemma BaselineCarried(t: Tables, u: UserId, start: Time)
    ensures ScoreTotalBefore(t, u, start) ==
              CarriedOr0(Latest(Rows(t.histories, u), t.rounds, (x: Time) => x < start), Score)
  {
  }

  lemma ScoreDifference(t: Tables, u: UserId, start: Time, end: Time)
    requires LedgerSound(t) && start <= end && CloseOrder(Rows(t.histories, u), t.rounds)
    ensures CarriedOr0(Latest(Rows(t.histories, u), t.rounds, (x: Time) => x <= end), Score)
            - CarriedOr0(Latest(Rows(t.histories, u), t.rounds, (x: Time) => x < start), Score)
            == SelectedRounds(t.rounds, u, Score, InWindow(t.rounds, start, end), |t.rounds|)
  {
    SoundRows(t, u);
    ScoreColumnCumulative(t, u);
    ColumnTelescopes(Rows(t.histories, u), t.rounds, u, Score, start, end);
  }

  lemma EndedScoreCarried(t: Tables, start: Time, end: Time, e: Entrant, now: Time)
    requires start <= end < now && e.scoreInitial == ScoreTotalBefore(t, e.userId, start)
    ensures WindowRowOf(t, Window(Some(start), Some(end)), e, now).score ==
            CarriedOr0(Latest(Rows(t.histories, e.userId), t.rounds, (x: Time) => x <= end), Score)
            - CarriedOr0(Latest(Rows(t.histories, e.userId), t.rounds, (x: Time) => x < start), Score)
  {
    var rows := Rows(t.histories, e.userId);
    EndedScore(t, start, end, e, now);
    BaselineCarried(t, e.userId, start);
    if Latest(rows, t.rounds, (x: Time) => x <= end).None? {
      NoneAccepted(rows, t.rounds, (x: Time) => x <= end, (x: Time) => x < start);
    }
  }

  /** After the end of a window its score is the sum of what the rounds closing inside it earned. */
  lemma WindowScoreTelescopes(t: Tables, start: Time, end: Time, e: Entrant, now: Time)
    requires LedgerSound(t) && start <= end < now
    requires CloseOrder(Rows(t.histories, e.userId), t.rounds)
    requires e.scoreInitial == ScoreTotalBefore(t, e.userId, start)
    ensures WindowRowOf(t, Window(Some(start), Some(end)), e, now).score ==
            SelectedRounds(t.rounds, e.userId, Score, InWindow(t.rounds, start, end), |t.rounds|)
  {
    EndedScoreCarried(t, start, end, e, now);
    ScoreDifference(t, e.userId, start, end);
  }

  lemma BaselineSum(t: Tables, u: UserId, start: Time)
    requires LedgerSound(t) && CloseOrder(Rows(t.histories, u), t.rounds)
    ensures ScoreTotalBefore(t, u, start) ==
            SelectedRows(Rows(t.histories, u), t.rounds, Score, Accepted(t.rounds, (x: Time) => x < start))
  {
    ScoreColumnCumulative(t, u);
    BaselineCarried(t, u, start);
    LatestCarriesSum(Rows(t.histories, u), t.rounds, Score, (x: Time) => x < start);
  }

  lemma RestSum(t: Tables, u: UserId, start: Time)
    requires LedgerSound(t)
    ensures SelectedRows(Rows(t.histories, u), t.rounds, Score, Accepted(t.rounds, (x: Time) => x >= start)) ==
            SelectedRounds(t.rounds, u, Score, Accepted(t.rounds, (x: Time) => x >= start), |t.rounds|)
  {
    SoundRows(t, u);
    RowsAddUpRounds(Rows(t.histories, u), t.rounds, u, Score, Accepted(t.rounds, (x: Time) => x >= start));
  }

  lemma {:induction false} SplitAt(rows: seq<History>, rounds: seq<Round>, c: Column, start: Time)
    requires forall k | 0 <= k < |rows| :: rows[k].roundId < |rounds|
    ensures SelectedRows(rows, rounds, c, x => true) ==
            SelectedRows(rows, rounds, c, Accepted(rounds, (x: Time) => x < start))
            + SelectedRows(rows, rounds, c, Accepted(rounds, (x: Time) => x >= start))
  {
    if |rows| > 0 {
      SplitAt(rows[..|rows| - 1], rounds, c, start);
    }
  }

  /** All of a user's rows, split at an instant: the total so far is the baseline and the rest. */
  lemma TotalSplits(t: Tables, u: UserId, start: Time)
    requires LedgerSound(t) && CloseOrder(Rows(t.histories, u), t.rounds)
    ensures RoundSum(Rows(t.histories, u)) == ScoreTotalBefore(t, u, start)
            + SelectedRounds(t.rounds, u, Score, Accepted(t.rounds, (x: Time) => x >= start), |t.rounds|)
  {
    BaselineSum(t, u, start);
    RestSum(t, u, start);
    RowsSum(t, u);
    SplitAt(Rows(t.histories, u), t.rounds, Score, start);
  }

  lemma RowsSum(t: Tables, u: UserId)
    requires LedgerSound(t)
    ensures SelectedRows(Rows(t.histories, u), t.rounds, Score, x => true) == RoundSum(Rows(t.histories, u))
  {
    var rows := Rows(t.histories, u);
    forall k | 0 <= k < |rows| ensures rows[k].scoreRound == RowEarned(rows[k], t.rounds, Score) {
      RowEarnsItsRound(t, u, k);
    }
    ScoreColumnSum(rows, t.rounds);
  }

  /** Before the end it is the sum over every round scored so far that closes from the start on. */
  lemma LiveScoreTelescopes(t: Tables, start: Time, end: Option<Time>, e: Entrant, now: Time)
    requires LedgerSound(t) && e.userId in t.users && (end.Some? ==> now <= end.value)
    requires CloseOrder(Rows(t.histories, e.userId), t.rounds)
    requires e.scoreInitial == ScoreTotalBefore(t, e.userId, start)
    ensures WindowRowOf(t, Window(Some(start), end), e, now).score ==
            SelectedRounds(t.rounds, e.userId, Score, Accepted(t.rounds, (x: Time) => x >= start), |t.rounds|)
  {
    TotalSplits(t, e.userId, start);
  }

  lemma {:induction false} SameAcceptance(rows: seq<History>, rounds: seq<Round>, a: Time -> bool, b: Time -> bool)
    requires forall x :: a(x) == b(x)
    ensures Latest(rows, rounds, a) == Latest(rows, rounds, b)
  {
    if |rows| > 0 {
      SameAcceptance(rows[..|rows| - 1], rounds, a, b);
    }
  }

  lemma RowHits(t: Tables, start: Time, end: Time, e: Entrant, now: Time)
    ensures var row := WindowRowOf(t, Window(Some(start), Some(end)), e, now);
            var latest := Latest(Rows(t.histories, e.userId), t.rounds, (x: Time) => x <= end);
            var baseline := Latest(Rows(t.histories, e.userId), t.rounds, (x: Time) => x <= end && x < start);
            && row.doubleHits == CarriedOr0(latest, Doubles) - CarriedOr0(baseline, Doubles)
            && row.superDoubleHits == CarriedOr0(latest, Supers) - CarriedOr0(baseline, Supers)
  {
  }

  /** The tie-break hits of a window are the hits of the rounds closing inside it. */
  lemma WindowHitsTelescope(t: Tables, start: Time, end: Time, e: Entrant, now: Time)
    requires RowsStandForRounds(Rows(t.histories, e.userId), t.rounds, e.userId) && start <= end
    requires CloseOrder(Rows(t.histories, e.userId), t.rounds)
    requires Cumulative(Rows(t.histories, e.userId), t.rounds, Doubles)
    requires Cumulative(Rows(t.histories, e.userId), t.rounds, Supers)
    ensures var row := WindowRowOf(t, Window(Some(start), Some(end)), e, now);
            && row.doubleHits == SelectedRounds(t.rounds, e.userId, Doubles, InWindow(t.rounds, start, end), |t.rounds|)
            && row.superDoubleHits ==
              SelectedRounds(t.rounds, e.userId, Supers, InWindow(t.rounds, start, end), |t.rounds|)
  {
    var rows := Rows(t.histories, e.userId);
    HitColumns(rows, t.rounds, e.userId, start, end);
    SameAcceptance(rows, t.rounds, (x: Time) => x <= end && x < start, (x: Time) => x < start);
    RowHits(t, start, end, e, now);
  }

  lemma HitColumns(rows: seq<History>, rounds: seq<Round>, u: UserId, start: Time, end: Time)
    requires RowsStandForRounds(rows, rounds, u) && CloseOrder(rows, rounds) && start <= end
    requires Cumulative(rows, rounds, Doubles) && Cumulative(rows, rounds, Supers)
    ensures forall c | c == Doubles || c == Supers ::
              CarriedOr0(Latest(rows, rounds, (x: Time) => x <= end), c)
                - CarriedOr0(Latest(rows, rounds, (x: Time) => x < start), c) ==
              SelectedRounds(rounds, u, c, InWindow(rounds, start, end), |rounds|)
  {
    ColumnTelescopes(rows, rounds, u, Doubles, start, end);
    ColumnTelescopes(rows, rounds, u, Supers, start, end);
  }

  // ---------- rounds scored out of closing order ----------

  /** Where the latest accepted row stands. */
  function LatestIndex(rows: seq<History>, rounds: seq<Round>, accepts: Time -> bool): (k: Option<nat>)
    ensures k.Some? ==> k.value < |rows| && Latest(rows, rounds, accepts) == Some(rows[k.value])
    ensures k.None? ==> Latest(rows, rounds, accepts) == None
    ensures k.None? ==> forall i | 0 <= i < |rows| :: !accepts(CloseAt(rows[i], rounds))
  {
    if |rows| == 0 then None
    else
      var n := |rows| - 1;
      var before := LatestIndex(rows[..n], rounds, accepts);
      if accepts(CloseAt(rows[n], rounds))
        && (before.None? || CloseAt(rows[n], rounds) >= CloseAt(rows[before.value], rounds))
      then Some(n) else before
  }

  function Refused(rounds: seq<Round>, accepts: Time -> bool): int -> bool {
    r => !(0 <= r < |rounds| && accepts(rounds[r].closeAt))
  }

  /**
   What the running value of the latest accepted row has too much: the rows written up to it that are
   not accepted, less the accepted rows written after it.
   */
  function Misplaced(rows: seq<History>, rounds: seq<Round>, c: Column, accepts: Time -> bool): int {
    var k := LatestIndex(rows, rounds, accepts);
    if k.None? then 0
    else SelectedRows(rows[..k.value + 1], rounds, c, Refused(rounds, accepts))
         - SelectedRows(rows[k.value + 1..], rounds, c, Accepted(rounds, accepts))
  }

  /** As much is misplaced at the end of a window as before its start. */
  predicate SameMisplaced(rows: seq<History>, rounds: seq<Round>, c: Column, start: Time, end: Time) {
    Misplaced(rows, rounds, c, (x: Time) => x <= end) == Misplaced(rows, rounds, c, (x: Time) => x < start)
  }

  /** The running sum up to the latest accepted row is the accepted sum and what is misplaced. */
  lemma LatestSplits(rows: seq<History>, rounds: seq<Round>, c: Column, accepts: Time -> bool, k: nat)
    requires LatestIndex(rows, rounds, accepts) == Some(k) && forall i | 0 <= i < |rows| :: rows[i].roundId < |rounds|
    ensures SelectedRows(rows[..k + 1], rounds, c, x => true) ==
            SelectedRows(rows, rounds, c, Accepted(rounds, accepts)) + Misplaced(rows, rounds, c, accepts)
  {
    hide SelectedRows, Latest, LatestIndex;
    var upTo, after := rows[..k + 1], rows[k + 1..];
    assert rows == upTo + after;
    SelectedRowsAppend(upTo, after, rounds, c, Accepted(rounds, accepts));
    SelectedRowsSplit(upTo, rounds, c, Accepted(rounds, accepts), Refused(rounds, accepts), x => true);
  }

  /** In whatever order rounds were scored, the latest accepted row carries the accepted sum and what is misplaced. */
  lemma LatestCarriesExactly(rows: seq<History>, rounds: seq<Round>, c: Column, accepts: Time -> bool)
    requires Cumulative(rows, rounds, c) && forall k | 0 <= k < |rows| :: rows[k].roundId < |rounds|
    ensures CarriedOr0(Latest(rows, rounds, accepts), c) ==
            SelectedRows(rows, rounds, c, Accepted(rounds, accepts)) + Misplaced(rows, rounds, c, accepts)
  {
    hide SelectedRows, Latest, LatestIndex, Carried;
    var k := LatestIndex(rows, rounds, accepts);
    if k.None? {
      SelectedRowsNone(rows, rounds, c, Accepted(rounds, accepts));
    } else {
      LatestSplits(rows, rounds, c, accepts, k.value);
      assert Carried(rows[k.value], c) == SelectedRows(rows[..k.value + 1], rounds, c, x => true);
    }
  }

  /** What the latest accepted row has too much of hits: what is misplaced, less what its column has lost. */
  function HitsOff(rows: seq<History>, rounds: seq<Round>, c: Column, accepts: Time -> bool): int {
    var k := LatestIndex(rows, rounds, accepts);
    if k.None? then 0 else Misplaced(rows, rounds, c, accepts) - MissingHits(rows, rounds, c, k.value)
  }

  lemma LatestHitsExactly(rows: seq<History>, rounds: seq<Round>, c: Column, accepts: Time -> bool)
    requires Chained(rows, rounds, c) && forall k | 0 <= k < |rows| :: rows[k].roundId < |rounds|
    ensures CarriedOr0(Latest(rows, rounds, accepts), c) ==
            SelectedRows(rows, rounds, c, Accepted(rounds, accepts)) + HitsOff(rows, rounds, c, accepts)
  {
    hide SelectedRows, Latest, LatestIndex, Carried, Chained, Misplaced;
    var k := LatestIndex(rows, rounds, accepts);
    if k.None? {
      SelectedRowsNone(rows, rounds, c, Accepted(rounds, accepts));
    } else {
      LatestSplits(rows, rounds, c, accepts, k.value);
      CarriedLoses(rows, rounds, c, k.value);
    }
  }

  /** The difference of two running values is what the rounds in between brought and what is misplaced. */
  lemma ColumnExactly(rows: seq<History>, rounds: seq<Round>, u: UserId, c: Column, start: Time, end: Time)
    requires RowsStandForRounds(rows, rounds, u) && Cumulative(rows, rounds, c) && start <= end
    ensures CarriedOr0(Latest(rows, rounds, (x: Time) => x <= end), c)
              - CarriedOr0(Latest(rows, rounds, (x: Time) => x < start), c) ==
            SelectedRounds(rounds, u, c, InWindow(rounds, start, end), |rounds|)
            + Misplaced(rows, rounds, c, (x: Time) => x <= end) - Misplaced(rows, rounds, c, (x: Time) => x < start)
  {
    LatestCarriesExactly(rows, rounds, c, (x: Time) => x <= end);
    LatestCarriesExactly(rows, rounds, c, (x: Time) => x < start);
    SelectedDifference(rows, rounds, c, start, end);
    RowsAddUpRounds(rows, rounds, u, c, InWindow(rounds, start, end));
  }

  /** A user's rows in a sound ledger. */
  ghost predicate UserRows(t: Tables, u: UserId, rows: seq<History>) {
    rows == Rows(t.histories, u) && RowsStandForRounds(rows, t.rounds, u) && Cumulative(rows, t.rounds, Score)
  }

  lemma SoundUserRows(t: Tables, u: UserId)
    requires LedgerSound(t)
    ensures UserRows(t, u, Rows(t.histories, u))
  {
    SoundRows(t, u);
    ScoreColumnCumulative(t, u);
  }

  lemma EndedScoreIs(t: Tables, rows: seq<History>, start: Time, end: Time, e: Entrant, now: Time)
    requires UserRows(t, e.userId, rows) && start <= end < now && e.scoreInitial == ScoreTotalBefore(t, e.userId, start)
    ensures WindowRowOf(t, Window(Some(start), Some(end)), e, now).score ==
            SelectedRounds(t.rounds, e.userId, Score, InWindow(t.rounds, start, end), |t.rounds|)
            + Misplaced(rows, t.rounds, Score, (x: Time) => x <= end)
            - Misplaced(rows, t.rounds, Score, (x: Time) => x < start)
  {
    hide SelectedRounds, Misplaced;
    EndedScoreCarried(t, start, end, e, now);
    ColumnExactly(rows, t.rounds, e.userId, Score, start, end);
  }

  lemma EndedScoreExactly(t: Tables, rows: seq<History>, start: Time, end: Time, e: Entrant, now: Time)
    requires UserRows(t, e.userId, rows) && start <= end < now && e.scoreInitial == ScoreTotalBefore(t, e.userId, start)
    ensures WindowRowOf(t, Window(Some(start), Some(end)), e, now).score ==
              SelectedRounds(t.rounds, e.userId, Score, InWindow(t.rounds, start, end), |t.rounds|) <==>
            SameMisplaced(rows, t.rounds, Score, start, end)
  {
    EndedScoreIs(t, rows, start, end, e, now);
  }

  /**
   When an ended window scores the sum of what the rounds closing inside it earned: exactly when as
   much is misplaced at its end as before its start.
   */
  lemma WindowScoreExactly(t: Tables, start: Time, end: Time, e: Entrant, now: Time)
    requires LedgerSound(t) && start <= end < now && e.scoreInitial == ScoreTotalBefore(t, e.userId, start)
    ensures var rows := Rows(t.histories, e.userId);
            WindowRowOf(t, Window(Some(start), Some(end)), e, now).score ==
              SelectedRounds(t.rounds, e.userId, Score, InWindow(t.rounds, start, end), |t.rounds|) <==>
            SameMisplaced(rows, t.rounds, Score, start, end)
  {
    SoundUserRows(t, e.userId);
    EndedScoreExactly(t, Rows(t.histories, e.userId), start, end, e, now);
  }

  lemma RestExactly(t: Tables, u: UserId, rows: seq<History>, start: Time)
    requires UserRows(t, u, rows)
    ensures SelectedRows(rows, t.rounds, Score, x => true) - ScoreTotalBefore(t, u, start) ==
            SelectedRounds(t.rounds, u, Score, Accepted(t.rounds, (x: Time) => x >= start), |t.rounds|)
            - Misplaced(rows, t.rounds, Score, (x: Time) => x < start)
  {
    BaselineCarried(t, u, start);
    LatestCarriesExactly(rows, t.rounds, Score, (x: Time) => x < start);
    RowsAddUpRounds(rows, t.rounds, u, Score, Accepted(t.rounds, (x: Time) => x >= start));
    SplitAt(rows, t.rounds, Score, start);
  }

  function LiveTotalOf(t: Tables, u: UserId): int { if u in t.users then t.users[u].scoreTotal else 0 }

  lemma LiveTotal(t: Tables, u: UserId)
    requires LedgerSound(t)
    ensures LiveTotalOf(t, u) == SelectedRows(Rows(t.histories, u), t.rounds, Score, x => true)
  {
    if u in t.users {
      RowsSum(t, u);
    } else {
      NobodysRows(t, u);
    }
  }

  /** Only users have rows. */
  lemma NobodysRows(t: Tables, u: UserId)
    requires LedgerSound(t) && u !in t.users
    ensures Rows(t.histories, u) == []
  {
    if |Rows(t.histories, u)| > 0 {
      RowIsBacked(t, u, 0);
    }
  }

  lemma UserChained(t: Tables, u: UserId)
    requires LedgerSound(t) && HitsSound(t)
    ensures HitsChained(t.histories, t.rounds, u)
  {
    if u !in t.users {
      NobodysRows(t, u);
      NoRowsChained(t.rounds);
    }
  }

  /** What a live total has over the baseline. */
  lemma LiveScoreIs(t: Tables, start: Time, end: Option<Time>, e: Entrant, now: Time)
    requires end.Some? ==> now <= end.value
    ensures WindowRowOf(t, Window(Some(start), end), e, now).score == LiveTotalOf(t, e.userId) - e.scoreInitial
  {
  }

  lemma LiveRowsExactly(t: Tables, rows: seq<History>, start: Time, end: Option<Time>, e: Entrant, now: Time)
    requires UserRows(t, e.userId, rows) && (end.Some? ==> now <= end.value)
    requires LiveTotalOf(t, e.userId) == SelectedRows(rows, t.rounds, Score, x => true)
    requires e.scoreInitial == ScoreTotalBefore(t, e.userId, start)
    ensures WindowRowOf(t, Window(Some(start), end), e, now).score ==
              SelectedRounds(t.rounds, e.userId, Score, Accepted(t.rounds, (x: Time) => x >= start), |t.rounds|) <==>
            Misplaced(rows, t.rounds, Score, (x: Time) => x < start) == 0
  {
    hide SelectedRows, SelectedRounds, Misplaced, WindowRowOf;
    LiveScoreIs(t, start, end, e, now);
    RestExactly(t, e.userId, rows, start);
  }

  /**
   A window that has not ended scores the rounds closing from its start on exactly when nothing is
   misplaced before its start.
   */
  lemma LiveScoreExactly(t: Tables, start: Time, end: Option<Time>, e: Entrant, now: Time)
    requires LedgerSound(t) && (end.Some? ==> now <= end.value)
    requires e.scoreInitial == ScoreTotalBefore(t, e.userId, start)
    ensures WindowRowOf(t, Window(Some(start), end), e, now).score ==
              SelectedRounds(t.rounds, e.userId, Score, Accepted(t.rounds, (x: Time) => x >= start), |t.rounds|) <==>
            Misplaced(Rows(t.histories, e.userId), t.rounds, Score, (x: Time) => x < start) == 0
  {
    SoundUserRows(t, e.userId);
    LiveTotal(t, e.userId);
    LiveRowsExactly(t, Rows(t.histories, e.userId), start, end, e, now);
  }

  lemma HitsExactly(rows: seq<History>, rounds: seq<Round>, u: UserId, c: Column, start: Time, end: Time)
    requires RowsStandForRounds(rows, rounds, u) && Chained(rows, rounds, c) && start <= end
    ensures CarriedOr0(Latest(rows, rounds, (x: Time) => x <= end), c)
              - CarriedOr0(Latest(rows, rounds, (x: Time) => x < start), c) ==
            SelectedRounds(rounds, u, c, InWindow(rounds, start, end), |rounds|)
            + HitsOff(rows, rounds, c, (x: Time) => x <= end) - HitsOff(rows, rounds, c, (x: Time) => x < start)
  {
    hide Chained, SelectedRows, HitsOff, Latest;
    LatestHitsExactly(rows, rounds, c, (x: Time) => x <= end);
    LatestHitsExactly(rows, rounds, c, (x: Time) => x < start);
    SelectedDifference(rows, rounds, c, start, end);
    RowsAddUpRounds(rows, rounds, u, c, InWindow(rounds, start, end));
  }

  /** As much is off at the end of a window as before its start. */
  predicate SameHitsOff(rows: seq<History>, rounds: seq<Round>, c: Column, start: Time, end: Time) {
    HitsOff(rows, rounds, c, (x: Time) => x <= end) == HitsOff(rows, rounds, c, (x: Time) => x < start)
  }

  /**
   When the hits of a window, ended or not, are those of the rounds closing inside it: exactly when as
   much is misplaced, less what the column has lost, at its end as before its start.
   */
  lemma WindowHitsExactly(t: Tables, start: Time, end: Time, e: Entrant, now: Time)
    requires LedgerSound(t) && HitsSound(t) && start <= end
    ensures var rows, row := Rows(t.histories, e.userId), WindowRowOf(t, Window(Some(start), Some(end)), e, now);
            var inside := InWindow(t.rounds, start, end);
            && (row.doubleHits == SelectedRounds(t.rounds, e.userId, Doubles, inside, |t.rounds|) <==>
                SameHitsOff(rows, t.rounds, Doubles, start, end))
            && (row.superDoubleHits == SelectedRounds(t.rounds, e.userId, Supers, inside, |t.rounds|) <==>
                SameHitsOff(rows, t.rounds, Supers, start, end))
  {
    hide HitsOff, Latest, WindowRowOf, SelectedRounds, Chained, RowsStandForRounds, LedgerSound;
    var rows := Rows(t.histories, e.userId);
    SoundRows(t, e.userId);
    UserChained(t, e.userId);
    HitsExactly(rows, t.rounds, e.userId, Doubles, start, end);
    HitsExactly(rows, t.rounds, e.userId, Supers, start, end);
    SameAcceptance(rows, t.rounds, (x: Time) => x <= end && x < start, (x: Time) => x < start);
    RowHits(t, start, end, e, now);
  }

  /** In closing order nothing is misplaced. */
  lemma NothingMisplaced(rows: seq<History>, rounds: seq<Round>, c: Column, accepts: Time -> bool)
    requires CloseOrder(rows, rounds) && Cumulative(rows, rounds, c) && DownClosed(accepts)
    ensures Misplaced(rows, rounds, c, accepts) == 0
  {
    LatestCarriesSum(rows, rounds, c, accepts);
    LatestCarriesExactly(rows, rounds, c, accepts);
  }
}
