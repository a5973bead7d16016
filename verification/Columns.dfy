/**
 The running columns of the score histories (score, doubles hit, super doubles hit), what each
 round adds to them, and sums of them over any selection of rounds.
 */
module Columns {
  import opened Common
  import opened GameTables
  import opened ScoreLedger
  import opened GameInvariant
  import Benefits

  datatype Column = Score | Doubles | Supers

  /** The running value a row stores. */
  function Carried(h: History, c: Column): int {
    match c
    case Score => h.scoreTotal
    case Doubles => h.totalDoubles
    case Supers => h.totalSuperDoubles
  }

  function TicketEarns(ticket: Ticket, result: seq<string>, c: Column): int {
    match c
    case Score => ScoreOf(ticket, result)
    case Doubles => HitsOf(ticket, result, 2)
    case Supers => HitsOf(ticket, result, 4)
  }

  function TicketsEarn(tickets: seq<Ticket>, result: seq<string>, u: UserId, c: Column): int {
    if |tickets| == 0 then 0
    else TicketsEarn(tickets[..|tickets| - 1], result, u, c)
         + (if tickets[|tickets| - 1].userId == u then TicketEarns(tickets[|tickets| - 1], result, c) else 0)
  }

  /** What a user earned in a round, once it is SCORED. */
  function Earned(round: Round, u: UserId, c: Column): int {
    if round.status == Scored && round.result.Some? then TicketsEarn(round.tickets, round.result.value, u, c) else 0
  }

  function RowEarned(h: History, rounds: seq<Round>, c: Column): int {
    if h.roundId < |rounds| then Earned(rounds[h.roundId], h.userId, c) else 0
  }

  /** Sum over the rows whose round is selected. */
  function SelectedRows(rows: seq<History>, rounds: seq<Round>, c: Column, selected: int -> bool): int {
    if |rows| == 0 then 0
    else
      var h := rows[|rows| - 1];
      SelectedRows(rows[..|rows| - 1], rounds, c, selected)
        + (if selected(h.roundId) then RowEarned(h, rounds, c) else 0)
  }

  /** Sum over the selected rounds below `n`. */
  function SelectedRounds(rounds: seq<Round>, u: UserId, c: Column, selected: int -> bool, n: nat): int
    requires n <= |rounds|
  {
    if n == 0 then 0
    else SelectedRounds(rounds, u, c, selected, n - 1) + (if selected(n - 1) then Earned(rounds[n - 1], u, c) else 0)
  }

  lemma {:induction false} EarnsNothing(tickets: seq<Ticket>, result: seq<string>, u: UserId, c: Column)
    requires !Benefits.HasTicket(tickets, u)
    ensures TicketsEarn(tickets, result, u, c) == 0
  {
    if |tickets| > 0 {
      var n := |tickets| - 1;
      assert tickets[n].userId != u;
      assert !Benefits.HasTicket(tickets[..n], u) by {
        forall k | 0 <= k < n ensures tickets[..n][k].userId != u {
          assert tickets[k].userId != u;
        }
      }
      EarnsNothing(tickets[..n], result, u, c);
    }
  }

  lemma {:induction false} ScoreEarned(tickets: seq<Ticket>, result: seq<string>, u: UserId)
    ensures TicketsEarn(tickets, result, u, Score) == PointsOf(tickets, result, u)
  {
    if |tickets| > 0 {
      ScoreEarned(tickets[..|tickets| - 1], result, u);
    }
  }

  // ---------- a user's rows and the rounds they stand for ----------

  /** The rows of one user: one for each SCORED round with a ticket of the user. */
  ghost predicate RowsStandForRounds(rows: seq<History>, rounds: seq<Round>, u: UserId) {
    && (forall k | 0 <= k < |rows| :: rows[k].userId == u && rows[k].roundId < |rounds|)
    && (forall i, j | 0 <= i < j < |rows| :: rows[i].roundId != rows[j].roundId)
    && (forall r | 0 <= r < |rounds| && rounds[r].status == Scored && Benefits.HasTicket(rounds[r].tickets, u) ::
          exists k :: 0 <= k < |rows| && rows[k].roundId == r)
  }

  lemma {:induction false} RowsIndex(histories: seq<History>, u: UserId)
    requires RowsDistinct(histories)
    ensures forall i, j | 0 <= i < j < |Rows(histories, u)| ::
              Rows(histories, u)[i].roundId != Rows(histories, u)[j].roundId
  {
    if |histories| > 0 {
      var n := |histories| - 1;
      RowsIndex(histories[..n], u);
      var rows := Rows(histories[..n], u);
      forall i | 0 <= i < |rows| && histories[n].userId == u ensures rows[i].roundId != histories[n].roundId {
        var k := RowIndex(histories[..n], u, i);
      }
    }
  }

  lemma RowIsBacked(t: Tables, u: UserId, k: nat)
    requires LedgerSound(t) && k < |Rows(t.histories, u)|
    ensures Rows(t.histories, u)[k].userId == u && RowBacked(Rows(t.histories, u)[k], t.rounds, t.users.Keys)
  {
    var i := RowIndex(t.histories, u, k);
  }

  lemma RoundHasRow(t: Tables, u: UserId, r: nat)
    requires RowsComplete(t.histories, t.rounds)
    requires r < |t.rounds| && t.rounds[r].status == Scored && Benefits.HasTicket(t.rounds[r].tickets, u)
    ensures exists k :: 0 <= k < |Rows(t.histories, u)| && Rows(t.histories, u)[k].roundId == r
  {
    var i :| 0 <= i < |t.rounds[r].tickets| && t.rounds[r].tickets[i].userId == u;
    assert HasRow(t.histories, t.rounds[r].tickets[i].userId, r);
    var j :| 0 <= j < |t.histories| && t.histories[j].userId == u && t.histories[j].roundId == r;
    RowsContain(t.histories, t.histories[j]);
  }

  lemma SoundRows(t: Tables, u: UserId)
    requires LedgerSound(t)
    ensures RowsStandForRounds(Rows(t.histories, u), t.rounds, u)
  {
    var rows := Rows(t.histories, u);
    RowsIndex(t.histories, u);
    forall k | 0 <= k < |rows| ensures rows[k].roundId < |t.rounds| && rows[k].userId == u {
      RowIsBacked(t, u, k);
    }
    forall r | 0 <= r < |t.rounds| && t.rounds[r].status == Scored && Benefits.HasTicket(t.rounds[r].tickets, u)
      ensures exists k :: 0 <= k < |rows| && rows[k].roundId == r
    {
      RoundHasRow(t, u, r);
    }
  }

  /** The rows of one round: at most one of them. */
  lemma {:induction false} OneRowSum(rows: seq<History>, rounds: seq<Round>, c: Column, r: nat)
    requires forall i, j | 0 <= i < j < |rows| :: rows[i].roundId != rows[j].roundId
    ensures (forall k | 0 <= k < |rows| :: rows[k].roundId != r) ==> SelectedRows(rows, rounds, c, x => x == r) == 0
    ensures forall k | 0 <= k < |rows| && rows[k].roundId == r ::
              SelectedRows(rows, rounds, c, x => x == r) == RowEarned(rows[k], rounds, c)
  {
    if |rows| > 0 {
      OneRowSum(rows[..|rows| - 1], rounds, c, r);
    }
  }

  lemma {:induction false} SelectedRowsSplit(rows: seq<History>, rounds: seq<Round>, c: Column, a: int -> bool,
                                             b: int -> bool, both: int -> bool)
    requires forall k | 0 <= k < |rows| :: !(a(rows[k].roundId) && b(rows[k].roundId))
    requires forall k | 0 <= k < |rows| :: both(rows[k].roundId) == (a(rows[k].roundId) || b(rows[k].roundId))
    ensures SelectedRows(rows, rounds, c, both) == SelectedRows(rows, rounds, c, a) + SelectedRows(rows, rounds, c, b)
  {
    if |rows| > 0 {
      SelectedRowsSplit(rows[..|rows| - 1], rounds, c, a, b, both);
    }
  }

  lemma {:induction false} SelectedRowsAppend(a: seq<History>, b: seq<History>, rounds: seq<Round>, c: Column,
                                              selected: int -> bool)
    ensures SelectedRows(a + b, rounds, c, selected) ==
              SelectedRows(a, rounds, c, selected) + SelectedRows(b, rounds, c, selected)
  {
    if |b| == 0 {
      assert a + b == a;
    } else {
      var n := |b| - 1;
      assert (a + b)[..|a + b| - 1] == a + b[..n];
      SelectedRowsAppend(a, b[..n], rounds, c, selected);
    }
  }

  lemma {:induction false} SelectedRowsNone(rows: seq<History>, rounds: seq<Round>, c: Column, selected: int -> bool)
    requires forall k | 0 <= k < |rows| :: !selected(rows[k].roundId)
    ensures SelectedRows(rows, rounds, c, selected) == 0
  {
    if |rows| > 0 {
      SelectedRowsNone(rows[..|rows| - 1], rounds, c, selected);
    }
  }

  lemma RoundRowSum(rows: seq<History>, rounds: seq<Round>, u: UserId, c: Column, r: nat)
    requires RowsStandForRounds(rows, rounds, u) && r < |rounds|
    ensures SelectedRows(rows, rounds, c, x => x == r) == Earned(rounds[r], u, c)
  {
    OneRowSum(rows, rounds, c, r);
    if rounds[r].status == Scored && Benefits.HasTicket(rounds[r].tickets, u) {
      var k :| 0 <= k < |rows| && rows[k].roundId == r;
    } else if rounds[r].status == Scored && rounds[r].result.Some? {
      EarnsNothing(rounds[r].tickets, rounds[r].result.value, u, c);
    }
  }

  lemma {:induction false} SelectedBelow(rows: seq<History>, rounds: seq<Round>, u: UserId, c: Column,
                                         selected: int -> bool, n: nat)
    requires RowsStandForRounds(rows, rounds, u) && n <= |rounds|
    ensures SelectedRows(rows, rounds, c, x => x < n && selected(x)) == SelectedRounds(rounds, u, c, selected, n)
  {
    if n == 0 {
      SelectedRowsNone(rows, rounds, c, x => x < 0 && selected(x));
    } else {
      SelectedBelow(rows, rounds, u, c, selected, n - 1);
      SelectedRowsSplit(rows, rounds, c, x => x < n - 1 && selected(x), x => x == n - 1 && selected(x),
        x => x < n && selected(x));
      if selected(n - 1) {
        RoundRowSum(rows, rounds, u, c, n - 1);
        SelectedRowsSplit(rows, rounds, c, x => x == n - 1, x => false, x => x == n - 1 && selected(x));
        SelectedRowsNone(rows, rounds, c, x => false);
      } else {
        SelectedRowsNone(rows, rounds, c, x => x == n - 1 && selected(x));
      }
    }
  }

  /** Over any selection of rounds, a user's rows and the SCORED rounds add up alike. */
  lemma RowsAddUpRounds(rows: seq<History>, rounds: seq<Round>, u: UserId, c: Column, selected: int -> bool)
    requires RowsStandForRounds(rows, rounds, u)
    ensures SelectedRows(rows, rounds, c, selected) == SelectedRounds(rounds, u, c, selected, |rounds|)
  {
    SelectedBelow(rows, rounds, u, c, selected, |rounds|);
    SelectedRowsSplit(rows, rounds, c, x => x < |rounds| && selected(x), x => false, selected);
    SelectedRowsNone(rows, rounds, c, x => false);
  }

  // ---------- cumulative columns ----------

  /** Every row carries the sum of the column over the user's rows so far. */
  ghost predicate Cumulative(rows: seq<History>, rounds: seq<Round>, c: Column) {
    forall k | 0 <= k < |rows| :: Carried(rows[k], c) == SelectedRows(rows[..k + 1], rounds, c, x => true)
  }

  lemma {:induction false} ScoreColumnSum(rows: seq<History>, rounds: seq<Round>)
    requires forall k | 0 <= k < |rows| :: rows[k].scoreRound == RowEarned(rows[k], rounds, Score)
    ensures SelectedRows(rows, rounds, Score, x => true) == RoundSum(rows)
  {
    if |rows| > 0 {
      ScoreColumnSum(rows[..|rows| - 1], rounds);
    }
  }

  lemma {:induction false} UserRowsCumulative(histories: seq<History>, u: UserId, k: nat)
    requires CumulativeTotals(histories) && k < |Rows(histories, u)|
    ensures Rows(histories, u)[k].scoreTotal == RoundSum(Rows(histories, u)[..k + 1])
    decreases |histories|
  {
    var n := |histories| - 1;
    var before := Rows(histories[..n], u);
    if k < |before| {
      UserRowsCumulative(histories[..n], u, k);
      assert Rows(histories, u)[..k + 1] == before[..k + 1];
    } else {
      assert Rows(histories, u)[..k + 1] == Rows(histories, u);
    }
  }

  lemma RowEarnsItsRound(t: Tables, u: UserId, k: nat)
    requires LedgerSound(t) && k < |Rows(t.histories, u)|
    ensures Rows(t.histories, u)[k].scoreRound == RowEarned(Rows(t.histories, u)[k], t.rounds, Score)
  {
    var h := Rows(t.histories, u)[k];
    RowIsBacked(t, u, k);
    ScoreEarned(t.rounds[h.roundId].tickets, t.rounds[h.roundId].result.value, u);
  }

  lemma ScoreColumnAt(t: Tables, u: UserId, k: nat)
    requires LedgerSound(t) && k < |Rows(t.histories, u)|
    ensures Rows(t.histories, u)[k].scoreTotal ==
              SelectedRows(Rows(t.histories, u)[..k + 1], t.rounds, Score, x => true)
  {
    var rows := Rows(t.histories, u);
    var prefix := rows[..k + 1];
    UserRowsCumulative(t.histories, u, k);
    forall i | 0 <= i < |prefix| ensures prefix[i].scoreRound == RowEarned(prefix[i], t.rounds, Score) {
      RowEarnsItsRound(t, u, i);
    }
    ScoreColumnSum(prefix, t.rounds);
  }

  /** In a sound state the score column of every user is cumulative, in whatever order rounds were scored. */
  lemma ScoreColumnCumulative(t: Tables, u: UserId)
    requires LedgerSound(t)
    ensures Cumulative(Rows(t.histories, u), t.rounds, Score)
  {
    var rows := Rows(t.histories, u);
    forall k | 0 <= k < |rows| ensures Carried(rows[k], Score) ==
      SelectedRows(rows[..k + 1], t.rounds, Score, x => true) {
      ScoreColumnAt(t, u, k);
    }
  }
}
