/**
 What a scoring pass does to the ledger of scores (src/services/score/score-round.service.ts:41-87):
 totals, history rows and ticket scores move together.
 */
module ScoreLedger {
  import opened Common
  import opened GameTables
  import opened ScoreRound

  /** Every history row carries the sum of its user's rows so far. */
  ghost predicate CumulativeTotals(histories: seq<History>) {
    if |histories| == 0 then true
    else
      var n := |histories| - 1;
      CumulativeTotals(histories[..n]) && histories[n].scoreTotal == RoundSum(Rows(histories, histories[n].userId))
  }

  /** Every user's total is the sum of the user's history rows. */
  ghost predicate TotalsExact(users: map<UserId, User>, histories: seq<History>) {
    forall u | u in users :: users[u].scoreTotal == RoundSum(Rows(histories, u))
  }

  /** One row a user and round. */
  ghost predicate RowsDistinct(histories: seq<History>) {
    forall i, j | 0 <= i < j < |histories| ::
      histories[i].userId != histories[j].userId || histories[i].roundId != histories[j].roundId
  }

  ghost predicate UsersDistinct(tickets: seq<Ticket>) {
    forall i, j | 0 <= i < j < |tickets| :: tickets[i].userId != tickets[j].userId
  }

  lemma RowSumAppend(histories: seq<History>, h: History, u: UserId)
    ensures RoundSum(Rows(histories + [h], u)) ==
            RoundSum(Rows(histories, u)) + (if h.userId == u then h.scoreRound else 0)
  {
    RowsAppend(histories, h, u);
    var rows := Rows(histories, u);
    assert (rows + [h])[..|rows|] == rows;
  }

  /** Appending a row that carries its user's new total keeps the columns cumulative. */
  lemma CumulativeAppend(histories: seq<History>, h: History)
    requires CumulativeTotals(histories)
    requires h.scoreTotal == RoundSum(Rows(histories, h.userId)) + h.scoreRound
    ensures CumulativeTotals(histories + [h])
  {
    RowSumAppend(histories, h, h.userId);
    assert (histories + [h])[..|histories|] == histories;
  }

  /** A user whose total grew by the row's score, and nobody else's. */
  lemma TotalsAppend(users: map<UserId, User>, histories: seq<History>, h: History, user: User)
    requires h.userId in users && TotalsExact(users, histories)
    requires user.scoreTotal == users[h.userId].scoreTotal + h.scoreRound
    ensures TotalsExact(users[h.userId := user], histories + [h])
  {
    forall v | v in users
      ensures users[h.userId := user][v].scoreTotal == RoundSum(Rows(histories + [h], v)) {
      RowSumAppend(histories, h, v);
    }
  }

  /** One ticket scored: totals stay exact and rows cumulative. */
  lemma TicketKeepsLedger(p: Pass, roundId: nat, result: seq<string>, ticket: Ticket, lookup: Lookup)
    requires ticket.userId in p.users
    requires TotalsExact(p.users, p.histories) && CumulativeTotals(p.histories)
    ensures var q := ScoreTicket(p, roundId, result, ticket, lookup);
            TotalsExact(q.users, q.histories) && CumulativeTotals(q.histories)
  {
    var u := ticket.userId;
    var row := NextRow(p.users[u], Rows(p.histories, u), roundId, result, ticket, lookup);
    var q := ScoreTicket(p, roundId, result, ticket, lookup);
    CumulativeAppend(p.histories, row);
    TotalsAppend(p.users, p.histories, row, q.users[u]);
  }

  lemma {:induction false} PassKeepsLedger(p: Pass, roundId: nat, result: seq<string>, tickets: seq<Ticket>,
                                           lookup: Lookup)
    requires ScoreTickets(p, roundId, result, tickets, lookup).Some?
    requires TotalsExact(p.users, p.histories) && CumulativeTotals(p.histories)
    ensures var q := ScoreTickets(p, roundId, result, tickets, lookup).value;
            TotalsExact(q.users, q.histories) && CumulativeTotals(q.histories)
  {
    if |tickets| > 0 {
      var n := |tickets| - 1;
      PassKeepsLedger(p, roundId, result, tickets[..n], lookup);
      TicketKeepsLedger(ScoreTickets(p, roundId, result, tickets[..n], lookup).value, roundId, result, tickets[n],
        lookup);
    }
  }

  /** A pass adds to each user's total exactly what the user's tickets earn. */
  lemma {:induction false} PassPoints(p: Pass, roundId: nat, result: seq<string>, tickets: seq<Ticket>,
                                      lookup: Lookup, u: UserId)
    requires ScoreTickets(p, roundId, result, tickets, lookup).Some? && u in p.users
    ensures ScoreTickets(p, roundId, result, tickets, lookup).value.users[u] ==
            p.users[u].(scoreTotal := p.users[u].scoreTotal + PointsOf(tickets, result, u))
  {
    if |tickets| > 0 {
      PassPoints(p, roundId, result, tickets[..|tickets| - 1], lookup, u);
    }
  }

  function ScoredTickets(tickets: seq<Ticket>, result: seq<string>): (s: seq<Ticket>)
    ensures |s| == |tickets|
  {
    seq(|tickets|, i requires 0 <= i < |tickets| => ScoredTicket(tickets[i], result))
  }

  ghost predicate RowFor(h: History, roundId: nat, result: seq<string>, ticket: Ticket) {
    h.userId == ticket.userId && h.roundId == roundId && h.scoreRound == ScoreOf(ticket, result)
  }

  ghost predicate RowsFor(rows: seq<History>, roundId: nat, result: seq<string>, tickets: seq<Ticket>) {
    |rows| == |tickets| && forall i | 0 <= i < |tickets| :: RowFor(rows[i], roundId, result, tickets[i])
  }

  lemma RowsForAppend(rows: seq<History>, h: History, roundId: nat, result: seq<string>, tickets: seq<Ticket>)
    requires |tickets| > 0 && RowsFor(rows, roundId, result, tickets[..|tickets| - 1])
    requires RowFor(h, roundId, result, tickets[|tickets| - 1])
    ensures RowsFor(rows + [h], roundId, result, tickets)
  {
    var n := |tickets| - 1;
    forall i | 0 <= i < n ensures RowFor(rows[i], roundId, result, tickets[i]) {
      assert RowFor(rows[i], roundId, result, tickets[..n][i]);
    }
  }

  lemma TicketRow(p: Pass, roundId: nat, result: seq<string>, ticket: Ticket, lookup: Lookup) returns (h: History)
    requires ticket.userId in p.users
    ensures var q := ScoreTicket(p, roundId, result, ticket, lookup);
            q.histories == p.histories + [h] && q.tickets == p.tickets + [ScoredTicket(ticket, result)]
    ensures RowFor(h, roundId, result, ticket)
  {
    h := NextRow(p.users[ticket.userId], Rows(p.histories, ticket.userId), roundId, result, ticket, lookup);
  }

  lemma ScoredTicketsLast(tickets: seq<Ticket>, result: seq<string>)
    requires |tickets| > 0
    ensures ScoredTickets(tickets, result) ==
            ScoredTickets(tickets[..|tickets| - 1], result) + [ScoredTicket(tickets[|tickets| - 1], result)]
  {
  }

  /** A pass appends one row and one scored ticket for each ticket, in order. */
  lemma {:induction false} PassRows(p: Pass, roundId: nat, result: seq<string>, tickets: seq<Ticket>, lookup: Lookup)
    returns (rows: seq<History>)
    requires ScoreTickets(p, roundId, result, tickets, lookup).Some?
    ensures var q := ScoreTickets(p, roundId, result, tickets, lookup).value;
            q.tickets == p.tickets + ScoredTickets(tickets, result) && q.histories == p.histories + rows
    ensures RowsFor(rows, roundId, result, tickets)
  {
    rows := [];
    if |tickets| > 0 {
      var n := |tickets| - 1;
      var before := ScoreTickets(p, roundId, result, tickets[..n], lookup).value;
      rows := PassRows(p, roundId, result, tickets[..n], lookup);
      var h := TicketRow(before, roundId, result, tickets[n], lookup);
      RowsForAppend(rows, h, roundId, result, tickets);
      ScoredTicketsLast(tickets, result);
      assert p.histories + (rows + [h]) == before.histories + [h];
      rows := rows + [h];
    }
  }

  /** Tickets whose users exist, that score, and that are new to the histories, are all accepted. */
  lemma {:induction false} PassSucceeds(p: Pass, roundId: nat, result: seq<string>, tickets: seq<Ticket>,
                                        lookup: Lookup)
    requires forall i | 0 <= i < |tickets| :: Accepts(p.users, p.histories, roundId, result, tickets[i])
    requires UsersDistinct(tickets)
    ensures ScoreTickets(p, roundId, result, tickets, lookup).Some?
  {
    if |tickets| > 0 {
      var n := |tickets| - 1;
      PassSucceeds(p, roundId, result, tickets[..n], lookup);
      var rows := PassRows(p, roundId, result, tickets[..n], lookup);
      var q := ScoreTickets(p, roundId, result, tickets[..n], lookup).value;
      assert Accepts(p.users, p.histories, roundId, result, tickets[n]);
      forall k | 0 <= k < |q.histories|
        ensures q.histories[k].userId == tickets[n].userId ==> q.histories[k].roundId != roundId
      {
        if k >= |p.histories| {
          assert RowFor(rows[k - |p.histories|], roundId, result, tickets[..n][k - |p.histories|]);
        } else {
          assert q.histories[k] == p.histories[k];
        }
      }
    }
  }

  /** Scoring leaves what tickets earn unchanged. */
  lemma {:induction false} ScoredPoints(tickets: seq<Ticket>, result: seq<string>, u: UserId)
    ensures PointsOf(ScoredTickets(tickets, result), result, u) == PointsOf(tickets, result, u)
  {
    if |tickets| > 0 {
      var n := |tickets| - 1;
      ScoredPoints(tickets[..n], result, u);
      assert ScoredTickets(tickets, result)[..n] == ScoredTickets(tickets[..n], result);
    }
  }

  /** With one ticket a user, a user's points are the points of that ticket. */
  lemma {:induction false} PointsOfTicket(tickets: seq<Ticket>, result: seq<string>, i: nat)
    requires UsersDistinct(tickets) && i < |tickets|
    ensures PointsOf(tickets, result, tickets[i].userId) == ScoreOf(tickets[i], result)
  {
    var n := |tickets| - 1;
    if i < n {
      PointsOfTicket(tickets[..n], result, i);
    } else {
      NoPoints(tickets[..n], result, tickets[i].userId);
    }
  }

  lemma {:induction false} NoPoints(tickets: seq<Ticket>, result: seq<string>, u: UserId)
    requires forall i | 0 <= i < |tickets| :: tickets[i].userId != u
    ensures PointsOf(tickets, result, u) == 0
  {
    if |tickets| > 0 {
      NoPoints(tickets[..|tickets| - 1], result, u);
    }
  }
}
