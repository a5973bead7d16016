/**
 The ranking of a period (src/services/ranking/build-period-ranking-from-history.service.ts): round
 scores summed row by row, hits by a baseline, and how both relate to the window scores of
 src/services/ranking/ranking-window-score.service.ts, which subtract running totals.
 */
module PeriodRanking {
  import opened Common
  import opened GameTables
  import opened ScoreLedger
  import opened GameInvariant
  import opened Columns
  import opened HitLedger
  import opened RankingTiebreak
  import opened RankingWindowScore

  datatype PeriodRow = PeriodRow(
    userId: UserId, scoreTotal: int, scoreRound: int, totalDoubles: int, totalSuperDoubles: int, userCreatedAt: Time)

  // ---------- the query ----------

  /** A row of a SCORED round whose closing time is accepted. */
  predicate Fetched(h: History, rounds: seq<Round>, accepts: Time -> bool) {
    h.roundId < |rounds| && rounds[h.roundId].status == Scored && accepts(rounds[h.roundId].closeAt)
  }

  /** Higher rounds come first, newer rows of one round before older ones. */
  function InsertByNumber(sorted: seq<History>, h: History): seq<History> {
    var n := |sorted| - 1;
    if n >= 0 && sorted[n].roundId <= h.roundId then InsertByNumber(sorted[..n], h) + [sorted[n]] else sorted + [h]
  }

  function Query(histories: seq<History>, rounds: seq<Round>, accepts: Time -> bool): seq<History> {
    if |histories| == 0 then []
    else
      var before, last := Query(histories[..|histories| - 1], rounds, accepts), histories[|histories| - 1];
      if Fetched(last, rounds, accepts) then InsertByNumber(before, last) else before
  }

  function FirstRow(history: seq<History>, u: UserId): Option<History> {
    var rows := Rows(history, u);
    if |rows| == 0 then None else Some(rows[0])
  }

  // ---------- the rows of the ranking ----------

  /** Users of the rows in order of first appearance, PRO users only if so asked. */
  function Users(history: seq<History>, proOnly: bool, pro: set<UserId>): (us: seq<UserId>) {
    if |history| == 0 then []
    else
      var before, u := Users(history[..|history| - 1], proOnly, pro), history[|history| - 1].userId;
      if (proOnly && u !in pro) || u in before then before else before + [u]
  }

  function PeriodRowOf(t: Tables, history: seq<History>, baseline: seq<History>, u: UserId): PeriodRow {
    var first := FirstRow(history, u);
    var hits := CalculateWindowHits(HitsOfRow(first), HitsOfRow(FirstRow(baseline, u)));
    PeriodRow(u, RoundSum(Rows(history, u)), if first.Some? then first.value.scoreRound else 0,
              hits.doubleHits, hits.superDoubleHits, if u in t.users then t.users[u].createdAt else 0)
  }

  function PeriodRows(t: Tables, history: seq<History>, baseline: seq<History>,
                      users: seq<UserId>): (rows: seq<PeriodRow>)
    ensures |rows| == |users|
    ensures forall i | 0 <= i < |users| :: rows[i] == PeriodRowOf(t, history, baseline, users[i])
  {
    seq(|users|, i requires 0 <= i < |users| => PeriodRowOf(t, history, baseline, users[i]))
  }

  function PeriodMetrics(row: PeriodRow): Metrics {
    Metrics(row.userId, row.scoreTotal, row.totalSuperDoubles, row.totalDoubles, row.userCreatedAt)
  }

  function InPeriod(start: Time, end: Time): Time -> bool { x => start <= x < end }

  function Before(start: Time): Time -> bool { x => x < start }

  function BuildPeriod(t: Tables, start: Time, end: Time, proOnly: bool, pro: set<UserId>): seq<Ranked<PeriodRow>> {
    var history := Query(t.histories, t.rounds, InPeriod(start, end));
    var baseline := Query(t.histories, t.rounds, Before(start));
    RankRows(PeriodRows(t, history, baseline, Users(history, proOnly, pro)), PeriodMetrics)
  }

  /** The first baseline row of every user. */
  method BaselineByUser(baseline: seq<History>) returns (byUser: map<UserId, History>)
    ensures forall u :: u in byUser <==> FirstRow(baseline, u).Some?
    ensures forall u | u in byUser :: FirstRow(baseline, u) == Some(byUser[u])
  {
    byUser := map[];
    for k := 0 to |baseline|
      invariant forall u :: u in byUser <==> FirstRow(baseline[..k], u).Some?
      invariant forall u | u in byUser :: FirstRow(baseline[..k], u) == Some(byUser[u])
    {
      assert baseline[..k + 1] == baseline[..k] + [baseline[k]];
      forall u {
        RowsAppend(baseline[..k], baseline[k], u);
      }
      if baseline[k].userId !in byUser {
        byUser := byUser[baseline[k].userId := baseline[k]];
      }
    }
    assert baseline[..|baseline|] == baseline;
  }

  lemma OneMoreRow(t: Tables, history: seq<History>, k: nat, baseline: seq<History>, u: UserId)
    requires k < |history|
    ensures var before, after := PeriodRowOf(t, history[..k], baseline, u),
              PeriodRowOf(t, history[..k + 1], baseline, u);
            && (history[k].userId != u ==> after == before)
            && (history[k].userId == u && |Rows(history[..k], u)| > 0
              ==> after == before.(scoreTotal := before.scoreTotal + history[k].scoreRound))
            && (history[k].userId == u && |Rows(history[..k], u)| == 0 ==>
                  var hits := CalculateWindowHits(HitsOfRow(Some(history[k])), HitsOfRow(FirstRow(baseline, u)));
                  after == before.(scoreTotal := history[k].scoreRound, scoreRound := history[k].scoreRound,
                                   totalDoubles := hits.doubleHits, totalSuperDoubles := hits.superDoubleHits))
  {
    assert history[..k + 1] == history[..k] + [history[k]];
    RowsAppend(history[..k], history[k], u);
    assert (Rows(history[..k], u) + [history[k]])[..|Rows(history[..k], u)|] == Rows(history[..k], u);
  }

  /** Every user who counts and has a row is listed, once, and nobody else. */
  lemma {:induction false} UsersListed(history: seq<History>, proOnly: bool, pro: set<UserId>, u: UserId)
    ensures u in Users(history, proOnly, pro) <==> |Rows(history, u)| > 0 && (proOnly ==> u in pro)
    ensures var us := Users(history, proOnly, pro); forall i, j | 0 <= i < j < |us| :: us[i] != us[j]
  {
    if |history| > 0 {
      UsersListed(history[..|history| - 1], proOnly, pro, u);
    }
  }

  /** The rows of the users seen so far, over the items seen so far. */
  ghost predicate Summed(t: Tables, history: seq<History>, baseline: seq<History>, keys: seq<UserId>,
                         byUser: map<UserId, PeriodRow>) {
    && (forall u :: u in byUser <==> u in keys)
    && (forall u | u in byUser :: byUser[u] == PeriodRowOf(t, history, baseline, u))
  }

  lemma UsersNext(history: seq<History>, k: nat, proOnly: bool, pro: set<UserId>)
    requires k < |history|
    ensures var before, u := Users(history[..k], proOnly, pro), history[k].userId;
            Users(history[..k + 1], proOnly, pro) == if (proOnly && u !in pro)
              || u in before then before else before + [u]
  {
    assert history[..k + 1][..k] == history[..k];
  }

  lemma OthersKept(t: Tables, history: seq<History>, k: nat, baseline: seq<History>, keys: seq<UserId>,
                   byUser: map<UserId, PeriodRow>)
    requires k < |history| && Summed(t, history[..k], baseline, keys, byUser)
    ensures forall v | v in byUser && v != history[k].userId ::
              byUser[v] == PeriodRowOf(t, history[..k + 1], baseline, v)
  {
    forall v | v in byUser && v != history[k].userId
      ensures byUser[v] == PeriodRowOf(t, history[..k + 1], baseline, v) {
      OneMoreRow(t, history, k, baseline, v);
    }
  }

  /** An item of a user who is not listed changes no row. */
  lemma SummedSkips(t: Tables, history: seq<History>, k: nat, baseline: seq<History>, keys: seq<UserId>,
                    byUser: map<UserId, PeriodRow>)
    requires k < |history| && Summed(t, history[..k], baseline, keys, byUser) && history[k].userId !in keys
    ensures Summed(t, history[..k + 1], baseline, keys, byUser)
  {
    OthersKept(t, history, k, baseline, keys, byUser);
  }

  lemma SummedNone(t: Tables, baseline: seq<History>)
    ensures Summed(t, [], baseline, [], map[])
  {
  }

  lemma SummedNext(t: Tables, history: seq<History>, k: nat, baseline: seq<History>, keys: seq<UserId>,
                   byUser: map<UserId, PeriodRow>,
                   row: PeriodRow, more: seq<UserId>)
    requires k < |history| && Summed(t, history[..k], baseline, keys, byUser)
    requires row == PeriodRowOf(t, history[..k + 1], baseline, history[k].userId)
    requires more == if history[k].userId in keys then keys else keys + [history[k].userId]
    ensures Summed(t, history[..k + 1], baseline, more, byUser[history[k].userId := row])
  {
    OthersKept(t, history, k, baseline, keys, byUser);
  }

  /** The row a first item of a user creates. */
  method FirstItem(t: Tables, history: seq<History>, ghost k: nat, item: History,
                   baselineByUser: map<UserId, History>, ghost baseline: seq<History>)
    returns (row: PeriodRow)
    requires k < |history| && item == history[k] && |Rows(history[..k], item.userId)| == 0
    requires item.userId in baselineByUser <==> FirstRow(baseline, item.userId).Some?
    requires item.userId in baselineByUser ==> FirstRow(baseline, item.userId) == Some(baselineByUser[item.userId])
    ensures row == PeriodRowOf(t, history[..k + 1], baseline, item.userId)
  {
    var u := item.userId;
    OneMoreRow(t, history, k, baseline, u);
    var hits := CalculateWindowHits(HitsOfRow(Some(item)),
      HitsOfRow(if u in baselineByUser then Some(baselineByUser[u]) else None));
    row := PeriodRow(u, item.scoreRound, item.scoreRound, hits.doubleHits, hits.superDoubleHits,
                     if u in t.users then t.users[u].createdAt else 0);
  }

  /** One turn of the loop, for an item whose user counts. */
  method AddItem(t: Tables, history: seq<History>, ghost k: nat, item: History, baselineByUser: map<UserId, History>,
                 ghost baseline: seq<History>,
                 keys: seq<UserId>, byUser: map<UserId, PeriodRow>)
    returns (keys': seq<UserId>, byUser': map<UserId, PeriodRow>)
    requires k < |history| && item == history[k] && Summed(t, history[..k], baseline, keys, byUser)
    requires item.userId in keys <==> |Rows(history[..k], item.userId)| > 0
    requires item.userId in baselineByUser <==> FirstRow(baseline, item.userId).Some?
    requires item.userId in baselineByUser ==> FirstRow(baseline, item.userId) == Some(baselineByUser[item.userId])
    ensures keys' == if item.userId in keys then keys else keys + [item.userId]
    ensures Summed(t, history[..k + 1], baseline, keys', byUser')
  {
    var u := item.userId;
    keys' := keys;
    var row;
    if u !in byUser {
      row := FirstItem(t, history, k, item, baselineByUser, baseline);
      keys' := keys + [u];
    } else {
      OneMoreRow(t, history, k, baseline, u);
      row := byUser[u].(scoreTotal := byUser[u].scoreTotal + item.scoreRound);
    }
    byUser' := byUser[u := row];
    SummedNext(t, history, k, baseline, keys, byUser, row, keys');
  }

  /** Sums the rows of every user, in the insertion order of a JavaScript Map. */
  method SumByUser(t: Tables, history: seq<History>, baseline: seq<History>, proOnly: bool, pro: set<UserId>)
    returns (keys: seq<UserId>, byUser: map<UserId, PeriodRow>)
    ensures keys == Users(history, proOnly, pro) && Summed(t, history, baseline, keys, byUser)
  {
    hide Summed, Rows;
    var baselineByUser := BaselineByUser(baseline);
    keys, byUser := [], map[];
    SummedNone(t, baseline);
    assert history[..0] == [];
    for k := 0 to |history|
      invariant keys == Users(history[..k], proOnly, pro) && Summed(t, history[..k], baseline, keys, byUser)
    {
      var item := history[k];
      UsersNext(history, k, proOnly, pro);
      UsersListed(history[..k], proOnly, pro, item.userId);
      if proOnly && item.userId !in pro {
        SummedSkips(t, history, k, baseline, keys, byUser);
      } else {
        keys, byUser := AddItem(t, history, k, item, baselineByUser, baseline, keys, byUser);
      }
    }
    assert history[..|history|] == history;
  }

  method Build(t: Tables, start: Time, end: Time, proOnly: bool, pro: set<UserId>)
               returns (ranked: seq<Ranked<PeriodRow>>)
    ensures ranked == BuildPeriod(t, start, end, proOnly, pro)
  {
    var history := Query(t.histories, t.rounds, InPeriod(start, end));
    var baseline := Query(t.histories, t.rounds, Before(start));
    var keys, byUser := SumByUser(t, history, baseline, proOnly, pro);
    var rows := seq(|keys|, i requires 0 <= i < |keys| => byUser[keys[i]]);
    assert rows == PeriodRows(t, history, baseline, keys);
    ranked := Rank(rows, PeriodMetrics);
  }

  // ---------- the sum ----------

  function SumOf(history: seq<History>, u: UserId): int { RoundSum(Rows(history, u)) }

  lemma SumOfAppend(history: seq<History>, h: History, u: UserId)
    ensures SumOf(history + [h], u) == SumOf(history, u) + (if h.userId == u then h.scoreRound else 0)
  {
    RowSumAppend(history, h, u);
  }

  lemma {:induction false} InsertedSum(sorted: seq<History>, h: History, u: UserId)
    ensures SumOf(InsertByNumber(sorted, h), u) == SumOf(sorted, u) + (if h.userId == u then h.scoreRound else 0)
  {
    if |sorted| == 0 || sorted[|sorted| - 1].roundId > h.roundId {
      SumOfAppend(sorted, h, u);
    } else {
      var before, last := sorted[..|sorted| - 1], sorted[|sorted| - 1];
      InsertedSum(before, h, u);
      SumOfAppend(InsertByNumber(before, h), last, u);
      SumOfAppend(before, last, u);
      assert sorted == before + [last];
    }
  }

  /** Every row of the user stands for a SCORED round and stores what that round earned. */
  ghost predicate RowsEarned(rows: seq<History>, rounds: seq<Round>) {
    forall k | 0 <= k < |rows| ::
      rows[k].roundId < |rounds| && rounds[rows[k].roundId].status == Scored
        && rows[k].scoreRound == RowEarned(rows[k], rounds, Score)
  }

  lemma EarnedPrefix(rows: seq<History>, h: History, rounds: seq<Round>, accepts: Time -> bool)
    requires RowsEarned(rows + [h], rounds)
    ensures RowsEarned(rows, rounds)
    ensures SelectedRows(rows + [h], rounds, Score, Accepted(rounds, accepts)) ==
            SelectedRows(rows, rounds, Score, Accepted(rounds, accepts))
              + (if Fetched(h, rounds, accepts) then h.scoreRound else 0)
  {
    var all := rows + [h];
    assert all[..|rows|] == rows && all[|rows|] == h;
    forall k | 0 <= k < |rows|
      ensures rows[k].roundId < |rounds| && rounds[rows[k].roundId].status == Scored
                && rows[k].scoreRound == RowEarned(rows[k], rounds, Score)
    {
      assert all[k] == rows[k];
    }
  }

  lemma QueryNext(histories: seq<History>, rounds: seq<Round>, accepts: Time -> bool, u: UserId)
    requires |histories| > 0
    ensures var n := |histories| - 1;
            && RoundSum(Rows(Query(histories, rounds, accepts), u)) ==
               RoundSum(Rows(Query(histories[..n], rounds, accepts), u))
               + (if histories[n].userId == u
                 && Fetched(histories[n], rounds, accepts) then histories[n].scoreRound else 0)
            && Rows(histories, u) == if histories[n].userId == u then Rows(histories[..n], u) + [histories[n]]
              else Rows(histories[..n], u)
  {
    var n := |histories| - 1;
    InsertedSum(Query(histories[..n], rounds, accepts), histories[n], u);
  }

  lemma {:induction false} QuerySum(histories: seq<History>, rounds: seq<Round>, accepts: Time -> bool, u: UserId)
    requires RowsEarned(Rows(histories, u), rounds)
    ensures RoundSum(Rows(Query(histories, rounds, accepts), u)) ==
            SelectedRows(Rows(histories, u), rounds, Score, Accepted(rounds, accepts))
  {
    if |histories| > 0 {
      var n := |histories| - 1;
      QueryNext(histories, rounds, accepts, u);
      if histories[n].userId == u {
        EarnedPrefix(Rows(histories[..n], u), histories[n], rounds, accepts);
      }
      QuerySum(histories[..n], rounds, accepts, u);
    }
  }

  lemma SoundRowsEarned(t: Tables, u: UserId)
    requires LedgerSound(t)
    ensures RowsEarned(Rows(t.histories, u), t.rounds)
  {
    var rows := Rows(t.histories, u);
    forall k | 0 <= k < |rows|
      ensures rows[k].roundId < |t.rounds| && t.rounds[rows[k].roundId].status == Scored
                && rows[k].scoreRound == RowEarned(rows[k], t.rounds, Score)
    {
      RowEarnsItsRound(t, u, k);
      RowIsBacked(t, u, k);
    }
  }

  /** The period score is the sum of what the rounds closing in the period earned. */
  lemma PeriodScoreIsSum(t: Tables, start: Time, end: Time, u: UserId)
    requires LedgerSound(t)
    ensures RoundSum(Rows(Query(t.histories, t.rounds, InPeriod(start, end)), u)) ==
            SelectedRounds(t.rounds, u, Score, InWindow(t.rounds, start, end - 1), |t.rounds|)
  {
    SoundRowsEarned(t, u);
    SoundRows(t, u);
    QuerySum(t.histories, t.rounds, InPeriod(start, end), u);
    SameSelection(Rows(t.histories, u), t.rounds, Score, Accepted(t.rounds, InPeriod(start, end)),
      InWindow(t.rounds, start, end - 1));
    RowsAddUpRounds(Rows(t.histories, u), t.rounds, u, Score, InWindow(t.rounds, start, end - 1));
  }

  lemma {:induction false} SameSelection(rows: seq<History>, rounds: seq<Round>, c: Column, a: int -> bool,
                                         b: int -> bool)
    requires forall r :: a(r) == b(r)
    ensures SelectedRows(rows, rounds, c, a) == SelectedRows(rows, rounds, c, b)
  {
    if |rows| > 0 {
      SameSelection(rows[..|rows| - 1], rounds, c, a, b);
    }
  }

  /** The window includes its end and the period does not: they differ by the rounds closing at that instant. */
  lemma EndSplits(t: Tables, start: Time, end: Time, u: UserId)
    requires LedgerSound(t) && start <= end
    ensures SelectedRounds(t.rounds, u, Score, InWindow(t.rounds, start, end), |t.rounds|) ==
            SelectedRounds(t.rounds, u, Score, InWindow(t.rounds, start, end - 1), |t.rounds|)
            + SelectedRounds(t.rounds, u, Score, InWindow(t.rounds, end, end), |t.rounds|)
  {
    var rows := Rows(t.histories, u);
    SoundRows(t, u);
    SelectedRowsSplit(rows, t.rounds, Score, InWindow(t.rounds, start, end - 1), InWindow(t.rounds, end, end),
      InWindow(t.rounds, start, end));
    RowsAddUpRounds(rows, t.rounds, u, Score, InWindow(t.rounds, start, end - 1));
    RowsAddUpRounds(rows, t.rounds, u, Score, InWindow(t.rounds, end, end));
    RowsAddUpRounds(rows, t.rounds, u, Score, InWindow(t.rounds, start, end));
  }

  /** What a window reads over what a period with the same bounds sums up. */
  function WindowSurplus(t: Tables, start: Time, end: Time, u: UserId): int {
    SelectedRounds(t.rounds, u, Score, InWindow(t.rounds, end, end), |t.rounds|)
    + Misplaced(Rows(t.histories, u), t.rounds, Score, (x: Time) => x <= end)
    - Misplaced(Rows(t.histories, u), t.rounds, Score, (x: Time) => x < start)
  }

  /**
   Subtracting running totals and summing rounds, in whatever order rounds were scored: the two differ
   by what rounds closing at the very end earned, and by what is misplaced.
   */
  lemma PeriodAgreesWithWindow(t: Tables, start: Time, end: Time, e: Entrant, now: Time)
    requires LedgerSound(t) && start <= end < now && e.scoreInitial == ScoreTotalBefore(t, e.userId, start)
    ensures WindowRowOf(t, Window(Some(start), Some(end)), e, now).score ==
            RoundSum(Rows(Query(t.histories, t.rounds, InPeriod(start, end)), e.userId))
            + WindowSurplus(t, start, end, e.userId)
  {
    hide LedgerSound, WindowRowOf, Misplaced, SelectedRounds, UserRows;
    SoundUserRows(t, e.userId);
    EndedScoreIs(t, Rows(t.histories, e.userId), start, end, e, now);
    PeriodScoreIsSum(t, start, end, e.userId);
    EndSplits(t, start, end, e.userId);
  }

  /** In closing order they agree exactly when rounds closing at the very end earned nothing. */
  lemma InOrderSurplus(t: Tables, start: Time, end: Time, u: UserId)
    requires LedgerSound(t) && CloseOrder(Rows(t.histories, u), t.rounds)
    ensures WindowSurplus(t, start, end, u) ==
            SelectedRounds(t.rounds, u, Score, InWindow(t.rounds, end, end), |t.rounds|)
  {
    hide LedgerSound, Misplaced;
    ScoreColumnCumulative(t, u);
    NothingMisplaced(Rows(t.histories, u), t.rounds, Score, (x: Time) => x <= end);
    NothingMisplaced(Rows(t.histories, u), t.rounds, Score, (x: Time) => x < start);
  }

  // ---------- the hits ----------

  ghost predicate Descending(sorted: seq<History>) {
    forall i, j | 0 <= i < j < |sorted| :: sorted[i].roundId >= sorted[j].roundId
  }

  lemma {:induction false} InsertedMembers(sorted: seq<History>, h: History)
    ensures forall x :: x in InsertByNumber(sorted, h) <==> x == h || x in sorted
  {
    var n := |sorted| - 1;
    if n >= 0 && sorted[n].roundId <= h.roundId {
      InsertedMembers(sorted[..n], h);
      assert sorted == sorted[..n] + [sorted[n]];
    }
  }

  lemma {:induction false} InsertedDescending(sorted: seq<History>, h: History)
    requires Descending(sorted)
    ensures Descending(InsertByNumber(sorted, h))
  {
    var n := |sorted| - 1;
    if n >= 0 && sorted[n].roundId <= h.roundId {
      InsertedDescending(sorted[..n], h);
      InsertedMembers(sorted[..n], h);
      var before := InsertByNumber(sorted[..n], h);
      forall i | 0 <= i < |before| ensures before[i].roundId >= sorted[n].roundId {
        assert before[i] in before;
      }
    }
  }

  lemma {:induction false} QueryDescending(histories: seq<History>, rounds: seq<Round>, accepts: Time -> bool)
    ensures Descending(Query(histories, rounds, accepts))
    ensures forall x | x in Query(histories, rounds, accepts) :: x in histories
  {
    if |histories| > 0 {
      var n := |histories| - 1;
      QueryDescending(histories[..n], rounds, accepts);
      InsertedDescending(Query(histories[..n], rounds, accepts), histories[n]);
      InsertedMembers(Query(histories[..n], rounds, accepts), histories[n]);
      assert histories == histories[..n] + [histories[n]];
    }
  }

  lemma {:induction false} NoRowsOf(sorted: seq<History>, u: UserId)
    requires forall x | x in sorted :: x.userId != u
    ensures Rows(sorted, u) == []
  {
    if |sorted| > 0 {
      assert sorted[|sorted| - 1] in sorted;
      NoRowsOf(sorted[..|sorted| - 1], u);
    }
  }

  /** Below a row that is higher than all others of its user there is none of that user. */
  lemma NoneBelow(sorted: seq<History>, h: History, u: UserId)
    requires Descending(sorted) && (|sorted| > 0 ==> sorted[|sorted| - 1].roundId > h.roundId)
    requires forall x | x in sorted && x.userId == u :: x.roundId < h.roundId
    ensures Rows(sorted, u) == []
  {
    forall k | 0 <= k < |sorted| ensures sorted[k].userId != u {
      assert sorted[k].roundId >= sorted[|sorted| - 1].roundId && sorted[k] in sorted;
    }
    NoRowsOf(sorted, u);
  }

  lemma InsertedStep(inserted: seq<History>, sorted: seq<History>, last: History, h: History, u: UserId)
    requires Rows(inserted, u) == if h.userId == u then [h] + Rows(sorted, u) else Rows(sorted, u)
    ensures Rows(inserted + [last], u) == if h.userId == u then [h] + Rows(sorted + [last], u)
              else Rows(sorted + [last], u)
  {
    RowsAppend(inserted, last, u);
    RowsAppend(sorted, last, u);
  }

  lemma InsertedLast(sorted: seq<History>, h: History, u: UserId)
    requires Descending(sorted) && (|sorted| > 0 ==> sorted[|sorted| - 1].roundId > h.roundId)
    requires h.userId == u ==> forall x | x in sorted && x.userId == u :: x.roundId < h.roundId
    ensures Rows(sorted + [h], u) == if h.userId == u then [h] + Rows(sorted, u) else Rows(sorted, u)
  {
    RowsAppend(sorted, h, u);
    if h.userId == u {
      NoneBelow(sorted, h, u);
    }
  }

  /** A row above all others of its user comes before them; rows of other users stay where they are. */
  lemma {:induction false} InsertedFirst(sorted: seq<History>, h: History, u: UserId)
    requires Descending(sorted)
    requires h.userId == u ==> forall x | x in sorted && x.userId == u :: x.roundId < h.roundId
    ensures Rows(InsertByNumber(sorted, h), u) == if h.userId == u then [h] + Rows(sorted, u) else Rows(sorted, u)
  {
    if |sorted| == 0 || sorted[|sorted| - 1].roundId > h.roundId {
      InsertedLast(sorted, h, u);
    } else {
      var before, last := sorted[..|sorted| - 1], sorted[|sorted| - 1];
      assert before + [last] == sorted;
      InsertedFirst(before, h, u);
      InsertedStep(InsertByNumber(before, h), before, last, h, u);
    }
  }

  /** The last of a user's rows that is accepted. */
  function LastAccepted(rows: seq<History>, rounds: seq<Round>, accepts: Time -> bool): (h: Option<History>)
    ensures h.Some? ==> h.value in rows && accepts(CloseAt(h.value, rounds))
  {
    if |rows| == 0 then None
    else
      var last := rows[|rows| - 1];
      if accepts(CloseAt(last, rounds)) then Some(last) else LastAccepted(rows[..|rows| - 1], rounds, accepts)
  }

  ghost predicate RowsScored(rows: seq<History>, rounds: seq<Round>) {
    forall k | 0 <= k < |rows| :: rows[k].roundId < |rounds| && rounds[rows[k].roundId].status == Scored
  }

  lemma OrderedPrefix(rows: seq<History>, h: History, rounds: seq<Round>)
    requires NumberOrder(rows + [h]) && RowsScored(rows + [h], rounds)
    ensures NumberOrder(rows) && RowsScored(rows, rounds) && Fetched(h, rounds, x => true)
    ensures forall x | x in rows :: x.roundId < h.roundId
  {
    var all := rows + [h];
    assert all[|rows|] == h && forall k | 0 <= k < |rows| :: all[k] == rows[k];
    NumberOrderPrefix(rows, h);
    forall x | x in rows ensures x.roundId < h.roundId {
      var k :| 0 <= k < |rows| && rows[k] == x;
      assert all[k].roundId < all[|rows|].roundId;
    }
  }

  /** For a user scored in number order the first row of the query is the last accepted one. */
  lemma {:induction false} QueryFirst(histories: seq<History>, rounds: seq<Round>, accepts: Time -> bool, u: UserId)
    requires NumberOrder(Rows(histories, u)) && RowsScored(Rows(histories, u), rounds)
    ensures FirstRow(Query(histories, rounds, accepts), u) == LastAccepted(Rows(histories, u), rounds, accepts)
  {
    if |histories| > 0 {
      var n := |histories| - 1;
      var h, before := histories[n], Query(histories[..n], rounds, accepts);
      QueryDescending(histories[..n], rounds, accepts);
      if h.userId == u {
        OrderedPrefix(Rows(histories[..n], u), h, rounds);
        assert Rows(histories, u)[..|Rows(histories[..n], u)|] == Rows(histories[..n], u);
        forall x | x in before && x.userId == u ensures x.roundId < h.roundId {
          RowsContain(histories[..n], x);
        }
      } else {
        assert Rows(histories, u) == Rows(histories[..n], u);
      }
      QueryFirst(histories[..n], rounds, accepts, u);
      if Fetched(h, rounds, accepts) {
        InsertedFirst(before, h, u);
      }
    }
  }

  /** For a user whose rounds were scored in closing order it is the latest row, too. */
  lemma {:induction false} LatestIsLast(rows: seq<History>, rounds: seq<Round>, accepts: Time -> bool)
    requires CloseOrder(rows, rounds)
    ensures Latest(rows, rounds, accepts) == LastAccepted(rows, rounds, accepts)
  {
    if |rows| > 0 {
      var n := |rows| - 1;
      LatestIsLast(rows[..n], rounds, accepts);
      var before := Latest(rows[..n], rounds, accepts);
      if before.Some? {
        var k :| 0 <= k < n && rows[..n][k] == before.value;
        assert rows[k] == before.value;
      }
    }
  }

  /** With a row in the period, the last one in it is the last one before its end. */
  lemma {:induction false} LastInPeriod(rows: seq<History>, rounds: seq<Round>, start: Time, end: Time)
    requires LastAccepted(rows, rounds, InPeriod(start, end)).Some? && CloseOrder(rows, rounds)
    ensures LastAccepted(rows, rounds, InPeriod(start, end)) == LastAccepted(rows, rounds, (x: Time) => x <= end - 1)
  {
    if |rows| > 0 {
      var n := |rows| - 1;
      if !InPeriod(start, end)(CloseAt(rows[n], rounds)) {
        var k :| 0 <= k < n && rows[..n][k] == LastAccepted(rows[..n], rounds, InPeriod(start, end)).value;
        assert CloseAt(rows[k], rounds) <= CloseAt(rows[n], rounds);
        LastInPeriod(rows[..n], rounds, start, end);
      }
    }
  }

  lemma PeriodHits(t: Tables, start: Time, end: Time, u: UserId, rows: seq<History>)
    requires rows == Rows(t.histories, u) && NumberOrder(rows) && RowsScored(rows, t.rounds)
               && CloseOrder(rows, t.rounds)
    requires FirstRow(Query(t.histories, t.rounds, InPeriod(start, end)), u).Some?
    ensures FirstRow(Query(t.histories, t.rounds, InPeriod(start, end)), u) ==
              Latest(rows, t.rounds, (x: Time) => x <= end - 1)
    ensures FirstRow(Query(t.histories, t.rounds, Before(start)), u) == Latest(rows, t.rounds, (x: Time) => x < start)
  {
    QueryFirst(t.histories, t.rounds, InPeriod(start, end), u);
    QueryFirst(t.histories, t.rounds, Before(start), u);
    LastInPeriod(rows, t.rounds, start, end);
    LatestIsLast(rows, t.rounds, (x: Time) => x <= end - 1);
    LatestIsLast(rows, t.rounds, Before(start));
    SameAcceptance(rows, t.rounds, Before(start), (x: Time) => x < start);
  }

  lemma PeriodRowHits(t: Tables, history: seq<History>, baseline: seq<History>, u: UserId)
    ensures var row := PeriodRowOf(t, history, baseline, u);
            && row.totalDoubles == CarriedOr0(FirstRow(history, u), Doubles)
              - CarriedOr0(FirstRow(baseline, u), Doubles)
            && row.totalSuperDoubles ==
              CarriedOr0(FirstRow(history, u), Supers) - CarriedOr0(FirstRow(baseline, u), Supers)
  {
  }

  lemma SoundRowsScored(t: Tables, u: UserId)
    requires LedgerSound(t) && HitsSound(t) && u in t.users && NumberOrder(Rows(t.histories, u))
    ensures RowsStandForRounds(Rows(t.histories, u), t.rounds, u) && RowsScored(Rows(t.histories, u), t.rounds)
    ensures Cumulative(Rows(t.histories, u), t.rounds, Doubles) && Cumulative(Rows(t.histories, u), t.rounds, Supers)
  {
    SoundRows(t, u);
    SoundRowsEarned(t, u);
    assert HitsChained(t.histories, t.rounds, u);
    InOrderCumulative(Rows(t.histories, u), t.rounds, Doubles);
    InOrderCumulative(Rows(t.histories, u), t.rounds, Supers);
  }

  /** A hit column in the period: what its rounds brought. */
  lemma PeriodColumn(t: Tables, start: Time, end: Time, u: UserId, history: seq<History>, baseline: seq<History>,
                     c: Column)
    requires LedgerSound(t) && HitsSound(t) && u in t.users && start < end && IsHit(c)
    requires NumberOrder(Rows(t.histories, u)) && CloseOrder(Rows(t.histories, u), t.rounds)
    requires history == Query(t.histories, t.rounds, InPeriod(start, end)) && FirstRow(history, u).Some?
    requires baseline == Query(t.histories, t.rounds, Before(start))
    ensures CarriedOr0(FirstRow(history, u), c) - CarriedOr0(FirstRow(baseline, u), c) ==
            SelectedRounds(t.rounds, u, c, InWindow(t.rounds, start, end - 1), |t.rounds|)
  {
    var rows := Rows(t.histories, u);
    SoundRowsScored(t, u);
    PeriodHits(t, start, end, u, rows);
    ColumnTelescopes(rows, t.rounds, u, c, start, end - 1);
  }

  /** The tie-break hits of a period are the hits of the rounds closing in it, as those of a window are. */
  lemma PeriodHitsAgree(t: Tables, start: Time, end: Time, u: UserId, history: seq<History>, baseline: seq<History>)
    requires LedgerSound(t) && HitsSound(t) && u in t.users && start < end
    requires NumberOrder(Rows(t.histories, u)) && CloseOrder(Rows(t.histories, u), t.rounds)
    requires history == Query(t.histories, t.rounds, InPeriod(start, end)) && FirstRow(history, u).Some?
    requires baseline == Query(t.histories, t.rounds, Before(start))
    ensures PeriodRowOf(t, history, baseline, u).totalDoubles ==
            SelectedRounds(t.rounds, u, Doubles, InWindow(t.rounds, start, end - 1), |t.rounds|)
    ensures PeriodRowOf(t, history, baseline, u).totalSuperDoubles ==
            SelectedRounds(t.rounds, u, Supers, InWindow(t.rounds, start, end - 1), |t.rounds|)
  {
    hide Rows, LedgerSound, HitsSound, NumberOrder, CloseOrder, SelectedRounds, Query;
    forall c | IsHit(c)
      ensures CarriedOr0(FirstRow(history, u), c) - CarriedOr0(FirstRow(baseline, u), c) ==
              SelectedRounds(t.rounds, u, c, InWindow(t.rounds, start, end - 1), |t.rounds|)
    {
      PeriodColumn(t, start, end, u, history, baseline, c);
    }
    PeriodRowHits(t, history, baseline, u);
  }
}
