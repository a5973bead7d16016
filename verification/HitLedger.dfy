/**
 The running hit columns (src/services/score/score-round.service.ts:63-85). Each new row continues
 the row of the highest round, and not the newest one. `CarriedLoses` says what every row is short of
 the running sum in consequence, and `CumulativeExactly` when no row is.
 */
module HitLedger {
  import opened Common
  import opened GameTables
  import opened ScoreRound
  import opened ScoreLedger
  import opened GameInvariant
  import opened Columns

  ghost predicate IsHit(c: Column) { c == Doubles || c == Supers }

  /** The rounds of a user were scored in number order. */
  ghost predicate NumberOrder(rows: seq<History>) {
    forall i, j | 0 <= i < j < |rows| :: rows[i].roundId < rows[j].roundId
  }

  /** The last row of the highest round among the rows of a user. */
  function HighestRow(rows: seq<History>): (m: nat)
    requires |rows| > 0
    ensures m < |rows| && LastHistory(rows, ByRoundNumber) == Some(rows[m])
  {
    var n := |rows| - 1;
    if n > 0 && LastHistory(rows[..n], ByRoundNumber).value.roundId > rows[n].roundId
    then HighestRow(rows[..n]) else n
  }

  /** The running sum of a column over rows. */
  function Sum(rows: seq<History>, rounds: seq<Round>, c: Column): int {
    SelectedRows(rows, rounds, c, x => true)
  }

  /** What a row continues: the row of the highest round among those written before it. */
  function Continued(rows: seq<History>, c: Column): int {
    if |rows| == 0 then 0 else Carried(rows[HighestRow(rows)], c)
  }

  /** Every row adds what its round earned to the row it continues. */
  ghost predicate Chained(rows: seq<History>, rounds: seq<Round>, c: Column) {
    if |rows| == 0 then true
    else
      var n := |rows| - 1;
      && Chained(rows[..n], rounds, c)
      && Carried(rows[n], c) == Continued(rows[..n], c) + RowEarned(rows[n], rounds, c)
  }

  ghost predicate HitsChained(histories: seq<History>, rounds: seq<Round>, u: UserId) {
    Chained(Rows(histories, u), rounds, Doubles) && Chained(Rows(histories, u), rounds, Supers)
  }

  /** The hit columns of all users are chained. */
  ghost predicate HitsSound(t: Tables) {
    forall u | u in t.users :: HitsChained(t.histories, t.rounds, u)
  }

  lemma ChainedNext(rows: seq<History>, h: History, rounds: seq<Round>, c: Column)
    requires Chained(rows, rounds, c) && Carried(h, c) == Continued(rows, c) + RowEarned(h, rounds, c)
    ensures Chained(rows + [h], rounds, c)
  {
    assert (rows + [h])[..|rows|] == rows;
  }

  lemma {:induction false} ChainedAt(rows: seq<History>, rounds: seq<Round>, c: Column, k: nat)
    requires Chained(rows, rounds, c) && k < |rows|
    ensures Carried(rows[k], c) == Continued(rows[..k], c) + RowEarned(rows[k], rounds, c)
    decreases |rows|
  {
    hide Continued, Carried, RowEarned;
    var n := |rows| - 1;
    if k < n {
      ChainedAt(rows[..n], rounds, c, k);
      assert rows[..n][..k] == rows[..k] && rows[..n][k] == rows[k];
    }
  }

  // ---------- what a column loses ----------

  /** What was hit in the rows written after the highest round before row `k`, which row `k` does not see. */
  function Skipped(rows: seq<History>, rounds: seq<Round>, c: Column, k: nat): int
    requires 0 < k < |rows|
  {
    Sum(rows[HighestRow(rows[..k]) + 1..k], rounds, c)
  }

  /** What row `k` is short of the running sum: what it skips, and what the row it continues is short of. */
  function MissingHits(rows: seq<History>, rounds: seq<Round>, c: Column, k: nat): int
    requires k < |rows|
    decreases k
  {
    if k == 0 then 0 else MissingHits(rows, rounds, c, HighestRow(rows[..k])) + Skipped(rows, rounds, c, k)
  }

  lemma SumSplits(rows: seq<History>, rounds: seq<Round>, c: Column, m: nat, k: nat)
    requires m < k < |rows|
    ensures Sum(rows[..k + 1], rounds, c) ==
              Sum(rows[..m + 1], rounds, c) + Sum(rows[m + 1..k], rounds, c) + RowEarned(rows[k], rounds, c)
  {
    hide SelectedRows, RowEarned;
    var all := (r: int) => true;
    assert rows[..k] == rows[..m + 1] + rows[m + 1..k];
    assert rows[..k + 1] == rows[..k] + [rows[k]];
    SelectedRowsAppend(rows[..m + 1], rows[m + 1..k], rounds, c, all);
    OneMoreSelected(rows[..k], rows[k], rounds, c, all);
  }

  lemma FirstSum(h: History, rounds: seq<Round>, c: Column)
    ensures Sum([h], rounds, c) == RowEarned(h, rounds, c)
  {
    var all := (r: int) => true;
    assert [] + [h] == [h];
    OneMoreSelected([], h, rounds, c, all);
  }

  /** In whatever order a user's rounds were scored, every row is short of the running sum by what was lost. */
  lemma {:induction false} CarriedLoses(rows: seq<History>, rounds: seq<Round>, c: Column, k: nat)
    requires Chained(rows, rounds, c) && k < |rows|
    ensures Carried(rows[k], c) == Sum(rows[..k + 1], rounds, c) - MissingHits(rows, rounds, c, k)
    decreases k
  {
    hide Chained, Carried, RowEarned, Sum, SelectedRows, HighestRow;
    ChainedAt(rows, rounds, c, k);
    if k == 0 {
      assert rows[..1] == [rows[0]];
      FirstSum(rows[0], rounds, c);
    } else {
      var m := HighestRow(rows[..k]);
      CarriedLoses(rows, rounds, c, m);
      SumSplits(rows, rounds, c, m, k);
    }
  }

  ghost predicate NothingSkipped(rows: seq<History>, rounds: seq<Round>, c: Column) {
    forall k | 0 < k < |rows| :: Skipped(rows, rounds, c, k) == 0
  }

  lemma {:induction false} NothingLost(rows: seq<History>, rounds: seq<Round>, c: Column, k: nat)
    requires NothingSkipped(rows, rounds, c) && k < |rows|
    ensures MissingHits(rows, rounds, c, k) == 0
    decreases k
  {
    if k > 0 {
      assert Skipped(rows, rounds, c, k) == 0;
      NothingLost(rows, rounds, c, HighestRow(rows[..k]));
    }
  }

  /**
   A hit column is a running sum exactly when, at each row, nothing was hit in the rows written after
   the highest round so far.
   */
  lemma CumulativeExactly(rows: seq<History>, rounds: seq<Round>, c: Column)
    requires Chained(rows, rounds, c)
    ensures Cumulative(rows, rounds, c) <==> NothingSkipped(rows, rounds, c)
  {
    hide Chained, Carried, SelectedRows, Skipped, HighestRow;
    forall k | 0 <= k < |rows|
      ensures Carried(rows[k], c) ==
              SelectedRows(rows[..k + 1], rounds, c, x => true) - MissingHits(rows, rounds, c, k) {
      CarriedLoses(rows, rounds, c, k);
    }
    if NothingSkipped(rows, rounds, c) {
      forall k | 0 <= k < |rows| ensures MissingHits(rows, rounds, c, k) == 0 {
        NothingLost(rows, rounds, c, k);
      }
    }
    if Cumulative(rows, rounds, c) {
      forall k | 0 < k < |rows| ensures Skipped(rows, rounds, c, k) == 0 {
        LostAt(rows, rounds, c, k);
      }
    }
  }

  lemma LostAt(rows: seq<History>, rounds: seq<Round>, c: Column, k: nat)
    requires 0 < k < |rows| && forall i | 0 <= i < |rows| :: MissingHits(rows, rounds, c, i) == 0
    ensures Skipped(rows, rounds, c, k) == 0
  {
    assert MissingHits(rows, rounds, c, k) == 0 && MissingHits(rows, rounds, c, HighestRow(rows[..k])) == 0;
  }

  /** In number order every row continues the one before it. */
  lemma HighestIsLast(rows: seq<History>)
    requires NumberOrder(rows) && |rows| > 0
    ensures HighestRow(rows) == |rows| - 1
  {
    if |rows| > 1 {
      var n := |rows| - 1;
      assert LastHistory(rows[..n], ByRoundNumber) == Some(rows[..n][HighestRow(rows[..n])]);
    }
  }

  lemma InOrderNothingSkipped(rows: seq<History>, rounds: seq<Round>, c: Column)
    requires NumberOrder(rows)
    ensures NothingSkipped(rows, rounds, c)
  {
    forall k | 0 < k < |rows| ensures Skipped(rows, rounds, c, k) == 0 {
      HighestIsLast(rows[..k]);
      assert rows[k..k] == [];
    }
  }

  /** Scored in number order, a user's hit columns are running sums. */
  lemma InOrderCumulative(rows: seq<History>, rounds: seq<Round>, c: Column)
    requires NumberOrder(rows) && Chained(rows, rounds, c)
    ensures Cumulative(rows, rounds, c)
  {
    InOrderNothingSkipped(rows, rounds, c);
    CumulativeExactly(rows, rounds, c);
  }

  // ---------- scoring keeps the columns chained ----------

  /** A round of the final tables, holding what the tickets of a pass earn. */
  ghost predicate RoundEarns(rounds: seq<Round>, roundId: nat, ticket: Ticket, result: seq<string>) {
    roundId < |rounds| && forall c: Column ::
      Earned(rounds[roundId], ticket.userId, c) == TicketEarns(ticket, result, c)
  }

  lemma NumberOrderPrefix(rows: seq<History>, h: History)
    requires NumberOrder(rows + [h])
    ensures NumberOrder(rows)
  {
    forall i, j | 0 <= i < j < |rows| ensures rows[i].roundId < rows[j].roundId {
      assert (rows + [h])[i].roundId < (rows + [h])[j].roundId;
    }
  }

  lemma RowKeepsHits(user: User, rows: seq<History>, roundId: nat, result: seq<string>, ticket: Ticket,
                     rounds: seq<Round>, c: Column)
    requires Chained(rows, rounds, c) && IsHit(c) && RoundEarns(rounds, roundId, ticket, result)
    ensures Chained(rows + [NextRow(user, rows, roundId, result, ticket, ByRoundNumber)], rounds, c)
  {
    hide Chained, HighestRow;
    var row := NextRow(user, rows, roundId, result, ticket, ByRoundNumber);
    if |rows| > 0 {
      NextCarries(user, rows, rounds, roundId, result, ticket, c);
    }
    ChainedNext(rows, row, rounds, c);
  }

  lemma TicketKeepsHits(p: Pass, roundId: nat, result: seq<string>, ticket: Ticket, rounds: seq<Round>, u: UserId)
    requires ticket.userId in p.users && HitsChained(p.histories, rounds, u)
    requires RoundEarns(rounds, roundId, ticket, result)
    ensures HitsChained(ScoreTicket(p, roundId, result, ticket, ByRoundNumber).histories, rounds, u)
  {
    hide Chained, RoundEarns, NextRow;
    var user, rows := p.users[ticket.userId], Rows(p.histories, ticket.userId);
    RowsAppend(p.histories, NextRow(user, rows, roundId, result, ticket, ByRoundNumber), u);
    NextRowUser(user, rows, roundId, result, ticket);
    if ticket.userId == u {
      RowKeepsHits(user, rows, roundId, result, ticket, rounds, Doubles);
      RowKeepsHits(user, rows, roundId, result, ticket, rounds, Supers);
    }
  }

  lemma NextRowUser(user: User, rows: seq<History>, roundId: nat, result: seq<string>, ticket: Ticket)
    ensures NextRow(user, rows, roundId, result, ticket, ByRoundNumber).userId == ticket.userId
  {
  }

  lemma {:induction false} PassKeepsHits(p: Pass, roundId: nat, result: seq<string>, tickets: seq<Ticket>,
                                         rounds: seq<Round>, u: UserId)
    requires ScoreTickets(p, roundId, result, tickets, ByRoundNumber).Some? && HitsChained(p.histories, rounds, u)
    requires forall i | 0 <= i < |tickets| :: RoundEarns(rounds, roundId, tickets[i], result)
    ensures HitsChained(ScoreTickets(p, roundId, result, tickets, ByRoundNumber).value.histories, rounds, u)
  {
    hide HitsChained, RoundEarns;
    if |tickets| > 0 {
      var n := |tickets| - 1;
      PassKeepsHits(p, roundId, result, tickets[..n], rounds, u);
      TicketKeepsHits(ScoreTickets(p, roundId, result, tickets[..n], ByRoundNumber).value, roundId, result, tickets[n],
        rounds, u);
    }
  }

  lemma {:induction false} ScoredEarns(tickets: seq<Ticket>, result: seq<string>, u: UserId, c: Column)
    ensures TicketsEarn(ScoredTickets(tickets, result), result, u, c) == TicketsEarn(tickets, result, u, c)
  {
    if |tickets| > 0 {
      var n := |tickets| - 1;
      ScoredEarns(tickets[..n], result, u, c);
      assert ScoredTickets(tickets, result)[..n] == ScoredTickets(tickets[..n], result);
    }
  }

  lemma {:induction false} EarnedByTicket(tickets: seq<Ticket>, result: seq<string>, i: nat, c: Column)
    requires UsersDistinct(tickets) && i < |tickets|
    ensures TicketsEarn(tickets, result, tickets[i].userId, c) == TicketEarns(tickets[i], result, c)
  {
    var n := |tickets| - 1;
    if i < n {
      EarnedByTicket(tickets[..n], result, i, c);
    } else {
      EarnsNothing(tickets[..n], result, tickets[i].userId, c);
    }
  }

  /** Columns read only the SCORED rounds their rows stand for. */
  lemma {:induction false} ChainedFrame(rows: seq<History>, a: seq<Round>, b: seq<Round>, c: Column)
    requires Chained(rows, a, c) && forall k | 0 <= k < |rows| :: RowEarned(rows[k], a, c) == RowEarned(rows[k], b, c)
    ensures Chained(rows, b, c)
  {
    if |rows| > 0 {
      ChainedFrame(rows[..|rows| - 1], a, b, c);
    }
  }

  /** A step that leaves SCORED rounds and histories as they are keeps the hit columns. */
  lemma HitsFrame(t: Tables, s: Tables)
    requires LedgerSound(t) && HitsSound(t) && s.histories == t.histories && t.users.Keys <= s.users.Keys
    requires |t.rounds| <= |s.rounds|
    requires forall r | 0 <= r < |t.rounds| && t.rounds[r].status == Scored :: s.rounds[r] == t.rounds[r]
    ensures HitsSound(s)
  {
    forall u | u in s.users ensures HitsChained(s.histories, s.rounds, u) {
      HitsFrameUser(t, s, u);
    }
  }

  lemma HitsFrameUser(t: Tables, s: Tables, u: UserId)
    requires LedgerSound(t) && HitsSound(t) && s.histories == t.histories && |t.rounds| <= |s.rounds|
    requires forall r | 0 <= r < |t.rounds| && t.rounds[r].status == Scored :: s.rounds[r] == t.rounds[r]
    ensures HitsChained(s.histories, s.rounds, u)
  {
    hide Chained;
    var rows := Rows(t.histories, u);
    forall k, c: Column | 0 <= k < |rows| ensures RowEarned(rows[k], t.rounds, c) == RowEarned(rows[k], s.rounds, c) {
      RowIsBacked(t, u, k);
    }
    if |rows| == 0 {
      NoRowsChained(s.rounds);
    } else {
      RowIsBacked(t, u, 0);
      assert HitsChained(t.histories, t.rounds, u);
      ChainedFrame(rows, t.rounds, s.rounds, Doubles);
      ChainedFrame(rows, t.rounds, s.rounds, Supers);
    }
  }

  lemma NoRowsChained(rounds: seq<Round>)
    ensures forall c: Column :: Chained([], rounds, c)
  {
  }

  lemma ScoredRoundEarns(rounds: seq<Round>, roundId: nat, tickets: seq<Ticket>, result: seq<string>)
    requires roundId < |rounds| && rounds[roundId].status == Scored && rounds[roundId].result == Some(result)
    requires rounds[roundId].tickets == ScoredTickets(tickets, result) && UsersDistinct(tickets)
    ensures forall i | 0 <= i < |tickets| :: RoundEarns(rounds, roundId, tickets[i], result)
  {
    forall i | 0 <= i < |tickets| ensures RoundEarns(rounds, roundId, tickets[i], result) {
      forall c: Column ensures Earned(rounds[roundId], tickets[i].userId, c) == TicketEarns(tickets[i], result, c) {
        ScoredEarns(tickets, result, tickets[i].userId, c);
        EarnedByTicket(tickets, result, i, c);
      }
    }
  }

  lemma FinishKeepsHits(t: Tables, roundId: nat, p: Pass, u: UserId)
    requires Sound(t) && HitsSound(t) && roundId < |t.rounds|
    requires t.rounds[roundId].status != Scored && t.rounds[roundId].result.Some?
    requires ScoreTickets(Pass(t.users, t.histories, []), roundId, t.rounds[roundId].result.value,
                          t.rounds[roundId].tickets, ByRoundNumber) == Some(p)
    ensures HitsChained(p.histories, Finish(t, roundId, p).rounds, u)
  {
    var round, result := t.rounds[roundId], t.rounds[roundId].result.value;
    var start := Pass(t.users, t.histories, []);
    var s := Finish(t, roundId, p);
    var rows := PassRows(start, roundId, result, round.tickets, ByRoundNumber);
    assert p.tickets == ScoredTickets(round.tickets, result);
    assert RoundSound(round, t.users.Keys);
    ScoredRoundEarns(s.rounds, roundId, round.tickets, result);
    HitsFrameUser(t, t.(rounds := s.rounds), u);
    PassKeepsHits(start, roundId, result, round.tickets, s.rounds, u);
  }

  /** Scoring a round keeps the hit columns chained. */
  lemma ScoreKeepsHits(t: Tables, roundId: nat)
    requires Sound(t) && HitsSound(t) && ScoreRound.Step(t, roundId).Ok?
    ensures HitsSound(ScoreRound.Step(t, roundId).value.0)
  {
    if t.rounds[roundId].status != Scored {
      var p := ScoreTickets(Pass(t.users, t.histories, []), roundId, t.rounds[roundId].result.value,
                            t.rounds[roundId].tickets, ByRoundNumber).value;
      forall u | u in p.users ensures HitsChained(p.histories, Finish(t, roundId, p).rounds, u) {
        FinishKeepsHits(t, roundId, p, u);
      }
    }
  }

  // ---------- out of order ----------

  /**
   When a new row carries the true running sum of hits: exactly when nothing was hit in the rows
   written after the highest-numbered round. Scoring a lower round late, with a hit in it, loses
   that hit from every later row.
   */
  lemma HitsCarryExactly(user: User, rows: seq<History>, rounds: seq<Round>, roundId: nat, result: seq<string>,
                         ticket: Ticket)
    requires |rows| > 0 && Cumulative(rows, rounds, Doubles) && Cumulative(rows, rounds, Supers)
    requires RoundEarns(rounds, roundId, ticket, result)
    ensures var row := NextRow(user, rows, roundId, result, ticket, ByRoundNumber);
            forall c | IsHit(c) ::
              Carried(row, c) == SelectedRows(rows + [row], rounds, c, x => true) <==>
              SelectedRows(rows[HighestRow(rows) + 1..], rounds, c, x => true) == 0
  {
    hide Cumulative, SelectedRows, HighestRow, LastHistory, RoundEarns;
    var row := NextRow(user, rows, roundId, result, ticket, ByRoundNumber);
    forall c | IsHit(c)
      ensures Carried(row, c) == SelectedRows(rows + [row], rounds, c, x => true) <==>
              SelectedRows(rows[HighestRow(rows) + 1..], rounds, c, x => true) == 0
    {
      NextCarries(user, rows, rounds, roundId, result, ticket, c);
      HitCarriesExactly(rows, rounds, HighestRow(rows), row, c);
    }
  }

  /** The new row continues the row of the highest round. */
  lemma NextCarries(user: User, rows: seq<History>, rounds: seq<Round>, roundId: nat, result: seq<string>,
                    ticket: Ticket, c: Column)
    requires |rows| > 0 && RoundEarns(rounds, roundId, ticket, result) && IsHit(c)
    ensures var row := NextRow(user, rows, roundId, result, ticket, ByRoundNumber);
            Carried(row, c) == Carried(rows[HighestRow(rows)], c) + RowEarned(row, rounds, c)
  {
  }

  lemma HitCarriesExactly(rows: seq<History>, rounds: seq<Round>, m: nat, row: History, c: Column)
    requires m < |rows| && Cumulative(rows, rounds, c)
    requires Carried(row, c) == Carried(rows[m], c) + RowEarned(row, rounds, c)
    ensures Carried(row, c) == SelectedRows(rows + [row], rounds, c, x => true) <==>
            SelectedRows(rows[m + 1..], rounds, c, x => true) == 0
  {
    hide SelectedRows, Carried, RowEarned;
    var all := (r: int) => true;
    assert rows == rows[..m + 1] + rows[m + 1..];
    SelectedRowsAppend(rows[..m + 1], rows[m + 1..], rounds, c, all);
    OneMoreSelected(rows, row, rounds, c, all);
    assert Carried(rows[m], c) == SelectedRows(rows[..m + 1], rounds, c, x => true);
  }

  lemma OneMoreSelected(rows: seq<History>, row: History, rounds: seq<Round>, c: Column, selected: int -> bool)
    ensures SelectedRows(rows + [row], rounds, c, selected) ==
              SelectedRows(rows, rounds, c, selected) + (if selected(row.roundId) then RowEarned(row, rounds, c) else 0)
  {
    assert (rows + [row])[..|rows|] == rows;
  }
}
