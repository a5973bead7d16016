/**
 Scoring a CLOSED round (src/services/score/score-round.service.ts): tickets are scored one by
 one into the users' running totals and a history row each, and the round becomes SCORED.
 */
module ScoreRound {
  import opened Common
  import opened TicketScore
  import opened GameTables

  datatype Failure = RoundNotFound | NotClosed | NoResult | TicketRefused

  /** How the previous history row of a user is looked up. */
  datatype Lookup = ByRoundNumber | ByCreation

  /** The previous row: of the highest round (then the newest), or simply the newest. */
  function LastHistory(rows: seq<History>, lookup: Lookup): (h: Option<History>)
    ensures h.None? <==> |rows| == 0
    ensures h.Some? ==> h.value in rows
  {
    if |rows| == 0 then None
    else
      var last := rows[|rows| - 1];
      var before := LastHistory(rows[..|rows| - 1], lookup);
      if lookup == ByRoundNumber && before.Some? && before.value.roundId > last.roundId then before else Some(last)
  }

  /** The running part of a scoring pass. */
  datatype Pass = Pass(users: map<UserId, User>, histories: seq<History>, tickets: seq<Ticket>)

  /** The ticket's user exists, the calculator takes it, and its history row is new. */
  predicate Accepts(users: map<UserId, User>, histories: seq<History>, roundId: nat, result: seq<string>,
                    ticket: Ticket) {
    && ticket.userId in users
    && Scorable(ticket.prediction, result, ticket.multipliers)
    && forall k | 0 <= k < |histories| :: histories[k].userId == ticket.userId ==> histories[k].roundId != roundId
  }

  /** The history row a ticket adds, after `rows` of its user. */
  function NextRow(user: User, rows: seq<History>, roundId: nat, result: seq<string>, ticket: Ticket,
                   lookup: Lookup): History {
    var points := ScoreOf(ticket, result);
    var last := LastHistory(rows, lookup);
    History(ticket.userId, roundId, points, user.scoreTotal + points,
            (if last.Some? then last.value.totalDoubles else 0) + HitsOf(ticket, result, 2),
            (if last.Some? then last.value.totalSuperDoubles else 0) + HitsOf(ticket, result, 4))
  }

  /** One turn of the loop over tickets. */
  function ScoreTicket(p: Pass, roundId: nat, result: seq<string>, ticket: Ticket, lookup: Lookup): (q: Pass)
    requires ticket.userId in p.users
    ensures q.users.Keys == p.users.Keys
  {
    var u := ticket.userId;
    var row := NextRow(p.users[u], Rows(p.histories, u), roundId, result, ticket, lookup);
    Pass(p.users[u := p.users[u].(scoreTotal := row.scoreTotal)], p.histories + [row],
         p.tickets + [ScoredTicket(ticket, result)])
  }

  /** The whole loop, or `None` where the transaction fails. */
  function ScoreTickets(p: Pass, roundId: nat, result: seq<string>, tickets: seq<Ticket>,
                        lookup: Lookup): (q: Option<Pass>)
    ensures q.Some? ==> q.value.users.Keys == p.users.Keys
  {
    if |tickets| == 0 then Some(p)
    else
      var n := |tickets| - 1;
      var before := ScoreTickets(p, roundId, result, tickets[..n], lookup);
      if before.None? || !Accepts(before.value.users, before.value.histories, roundId, result, tickets[n]) then None
      else Some(ScoreTicket(before.value, roundId, result, tickets[n], lookup))
  }

  function Step(t: Tables, roundId: nat): Result<(Tables, bool), Failure> {
    if roundId >= |t.rounds| then Err(RoundNotFound)
    else
      var round := t.rounds[roundId];
      if round.status == Scored then Ok((t, false))
      else if round.status != Closed then Err(NotClosed)
      else if round.result.None? then Err(NoResult)
      else
        var p := ScoreTickets(Pass(t.users, t.histories, []), roundId, round.result.value, round.tickets,
          ByRoundNumber);
        if p.None? then Err(TicketRefused)
        else Ok((Finish(t, roundId, p.value), true))
  }

  /** The tables once a pass over a round has been written. */
  function Finish(t: Tables, roundId: nat, p: Pass): Tables
    requires roundId < |t.rounds|
  {
    t.(users := p.users, histories := p.histories,
       rounds := t.rounds[roundId := t.rounds[roundId].(tickets := p.tickets, status := Scored)])
  }

  method ScoreRow(user: User, rows: seq<History>, roundId: nat, result: seq<string>, ticket: Ticket, lookup: Lookup)
    returns (row: History, scored: Ticket)
    requires Scorable(ticket.prediction, result, ticket.multipliers)
    ensures row == NextRow(user, rows, roundId, result, ticket, lookup)
    ensures scored == ScoredTicket(ticket, result)
  {
    var breakdown := Detail(ticket.prediction, result, ticket.multipliers);
    var points := breakdown.value.total;
    scored := ticket.(scoreRound := points, status := if points > 0 then Won else Lost);
    var last := LastHistory(rows, lookup);
    row := History(ticket.userId, roundId, points, user.scoreTotal + points,
                   (if last.Some? then last.value.totalDoubles else 0) + breakdown.value.doubleHits,
                   (if last.Some? then last.value.totalSuperDoubles else 0) + breakdown.value.superDoubleHits);
  }

  /** Scores one ticket into its user's total and a new history row. */
  method ScoreOne(db: GameDb, roundId: nat, result: seq<string>, ticket: Ticket, lookup: Lookup,
                  ghost before: seq<Ticket>) returns (scored: Ticket)
    requires Accepts(db.users, db.histories, roundId, result, ticket)
    modifies db`users, db`histories
    ensures Pass(db.users, db.histories, before + [scored]) ==
            ScoreTicket(Pass(old(db.users), old(db.histories), before), roundId, result, ticket, lookup)
  {
    var u := ticket.userId;
    var row;
    row, scored := ScoreRow(db.users[u], Rows(db.histories, u), roundId, result, ticket, lookup);
    db.users := db.users[u := db.users[u].(scoreTotal := row.scoreTotal)];
    db.histories := db.histories + [row];
  }

  /** The loop over the tickets of a round; `ok` is false where the transaction fails. */
  method ScoreAll(db: GameDb, roundId: nat, result: seq<string>, all: seq<Ticket>, lookup: Lookup)
                  returns (ok: bool, tickets: seq<Ticket>)
    modifies db`users, db`histories
    ensures var p := ScoreTickets(Pass(old(db.users), old(db.histories), []), roundId, result, all, lookup);
            ok == p.Some? && (ok ==> p.value == Pass(db.users, db.histories, tickets))
  {
    ghost var start := Pass(db.users, db.histories, []);
    tickets := [];
    for k := 0 to |all|
      invariant ScoreTickets(start, roundId, result, all[..k], lookup) == Some(Pass(db.users, db.histories, tickets))
    {
      NextTicket(start, roundId, result, all, k, lookup);
      if !Accepts(db.users, db.histories, roundId, result, all[k]) {
        return false, [];
      }
      var scored := ScoreOne(db, roundId, result, all[k], lookup, tickets);
      tickets := tickets + [scored];
    }
    assert all[..|all|] == all;
    ok := true;
  }

  method Execute(db: GameDb, roundId: nat) returns (r: Result<bool, Failure>)
    modifies db`users, db`rounds, db`histories
    ensures match Step(old(db.View()), roundId)
            case Ok(next) => r == Ok(next.1) && db.View() == next.0
            case Err(e) => r == Err(e) && db.View() == old(db.View())
  {
    if roundId >= |db.rounds| {
      return Err(RoundNotFound);
    }
    var round := db.rounds[roundId];
    if round.status == Scored {
      return Ok(false);
    }
    if round.status != Closed {
      return Err(NotClosed);
    }
    if round.result.None? {
      return Err(NoResult);
    }
    var users, histories := db.users, db.histories;
    var ok, tickets := ScoreAll(db, roundId, round.result.value, round.tickets, ByRoundNumber);
    if !ok {
      db.users, db.histories := users, histories;
      return Err(TicketRefused);
    }
    db.rounds := db.rounds[roundId := round.(tickets := tickets, status := Scored)];
    r := Ok(true);
  }

  /** How the pass goes on after `k` tickets. */
  lemma NextTicket(p: Pass, roundId: nat, result: seq<string>, tickets: seq<Ticket>, k: nat, lookup: Lookup)
    requires k < |tickets| && ScoreTickets(p, roundId, result, tickets[..k], lookup).Some?
    ensures var q := ScoreTickets(p, roundId, result, tickets[..k], lookup).value;
            if Accepts(q.users, q.histories, roundId, result, tickets[k])
            then ScoreTickets(p, roundId, result, tickets[..k + 1], lookup) ==
                 Some(ScoreTicket(q, roundId, result, tickets[k], lookup))
            else ScoreTickets(p, roundId, result, tickets, lookup).None?
  {
    assert tickets[..k + 1][..k] == tickets[..k];
    var q := ScoreTickets(p, roundId, result, tickets[..k], lookup).value;
    if !Accepts(q.users, q.histories, roundId, result, tickets[k]) {
      RefusedEarly(p, roundId, result, tickets, k + 1, lookup);
    }
  }

  /** A refused ticket fails the whole pass. */
  lemma {:induction false} RefusedEarly(p: Pass, roundId: nat, result: seq<string>, tickets: seq<Ticket>, k: nat,
                                        lookup: Lookup)
    requires k <= |tickets| && ScoreTickets(p, roundId, result, tickets[..k], lookup).None?
    ensures ScoreTickets(p, roundId, result, tickets, lookup).None?
    decreases |tickets| - k
  {
    if k < |tickets| {
      assert tickets[..k + 1][..k] == tickets[..k];
      RefusedEarly(p, roundId, result, tickets, k + 1, lookup);
    } else {
      assert tickets[..k] == tickets;
    }
  }
}
