/**
 The tables of the game: users, rounds with their tickets, score histories and benefits
 (prisma/schema.prisma). A round is named by its index; its number is the index plus one.
 Rows of a table are kept in creation order.
 */
module GameTables {
  import opened Common
  import opened TicketScore

  datatype RoundStatus = Draft | Pending | Open | Closed | Scored | Cancelled

  datatype TicketStatus = Awaiting | Won | Lost

  datatype BenefitType = Double | SuperDouble

  datatype User = User(createdAt: Time, scoreTotal: int)

  datatype Ticket = Ticket(
    userId: UserId, prediction: seq<string>, multipliers: seq<int>, scoreRound: int, status: TicketStatus)

  datatype Round = Round(
    status: RoundStatus, openAt: Time, closeAt: Time, result: Option<seq<string>>, tickets: seq<Ticket>)

  datatype History = History(
    userId: UserId, roundId: nat, scoreRound: int, scoreTotal: int, totalDoubles: int, totalSuperDoubles: int)

  datatype FreeBenefit = FreeBenefit(freeDoubles: int, freeSuperDoubles: int)

  datatype Tables = Tables(
    users: map<UserId, User>,
    rounds: seq<Round>,
    histories: seq<History>,
    freeBenefits: map<(UserId, nat), FreeBenefit>,
    inventory: map<(UserId, BenefitType), int>)

  /** The database the services write to. */
  class GameDb {
    var users: map<UserId, User>
    var rounds: seq<Round>
    var histories: seq<History>
    var freeBenefits: map<(UserId, nat), FreeBenefit>
    var inventory: map<(UserId, BenefitType), int>

    function View(): Tables
      reads this
    {
      Tables(users, rounds, histories, freeBenefits, inventory)
    }

    constructor ()
      ensures View() == EMPTY
    {
      users, rounds, histories, freeBenefits, inventory := map[], [], [], map[], map[];
    }
  }

  const EMPTY := Tables(map[], [], [], map[], map[])

  // ---------- tokens ----------

  predicate IsPick(token: string) { token == "1" || token == "X" || token == "2" }

  predicate ValidPrediction(p: seq<string>) {
    |p| == MATCH_COUNT && forall i | 0 <= i < |p| :: IsPick(p[i])
  }

  predicate ValidResult(r: seq<string>) {
    |r| == MATCH_COUNT && forall i | 0 <= i < |r| :: IsPick(r[i]) || r[i] == "C"
  }

  predicate ValidMultipliers(m: seq<int>) {
    |m| == MATCH_COUNT && forall i | 0 <= i < |m| :: ValidMultiplier(m[i])
  }

  // ---------- scores of tickets ----------

  /** What a ticket earns under a result, 0 if the calculator would refuse it. */
  function ScoreOf(ticket: Ticket, result: seq<string>): int {
    if Scorable(ticket.prediction, result, ticket.multipliers)
    then TicketTotal(ticket.prediction, result, ticket.multipliers) else 0
  }

  function HitsOf(ticket: Ticket, result: seq<string>, multiplier: int): int {
    if Scorable(ticket.prediction, result, ticket.multipliers)
    then TicketHits(ticket.prediction, result, ticket.multipliers, multiplier) else 0
  }

  function ScoredTicket(ticket: Ticket, result: seq<string>): Ticket {
    var points := ScoreOf(ticket, result);
    ticket.(scoreRound := points, status := if points > 0 then Won else Lost)
  }

  /** What the tickets of one user earn together (a user has at most one a round). */
  function PointsOf(tickets: seq<Ticket>, result: seq<string>, u: UserId): int {
    if |tickets| == 0 then 0
    else PointsOf(tickets[..|tickets| - 1], result, u)
         + (if tickets[|tickets| - 1].userId == u then ScoreOf(tickets[|tickets| - 1], result) else 0)
  }

  /** What one user earned in a round, once it is SCORED. */
  function RoundPoints(round: Round, u: UserId): int {
    if round.status == Scored && round.result.Some? then PointsOf(round.tickets, round.result.value, u) else 0
  }

  /** What one user earned in all SCORED rounds. */
  function RoundsPoints(rounds: seq<Round>, u: UserId): int {
    if |rounds| == 0 then 0
    else RoundsPoints(rounds[..|rounds| - 1], u) + RoundPoints(rounds[|rounds| - 1], u)
  }

  lemma {:induction false} RoundsPointsUpdate(rounds: seq<Round>, r: nat, round: Round, u: UserId)
    requires r < |rounds|
    ensures RoundsPoints(rounds[r := round], u) ==
            RoundsPoints(rounds, u) - RoundPoints(rounds[r], u) + RoundPoints(round, u)
  {
    var n := |rounds| - 1;
    if r == n {
      assert rounds[r := round][..n] == rounds[..n];
    } else {
      assert rounds[r := round][..n] == rounds[..n][r := round];
      RoundsPointsUpdate(rounds[..n], r, round, u);
    }
  }

  // ---------- histories ----------

  /** The rows of one user, in creation order. */
  function Rows(histories: seq<History>, u: UserId): (rows: seq<History>) {
    if |histories| == 0 then []
    else
      var last := histories[|histories| - 1];
      Rows(histories[..|histories| - 1], u) + (if last.userId == u then [last] else [])
  }

  function RoundSum(rows: seq<History>): int {
    if |rows| == 0 then 0 else RoundSum(rows[..|rows| - 1]) + rows[|rows| - 1].scoreRound
  }

  /** A row of a user is one of the history rows. */
  lemma {:induction false} RowIndex(histories: seq<History>, u: UserId, k: nat) returns (i: nat)
    requires k < |Rows(histories, u)|
    ensures i < |histories| && histories[i] == Rows(histories, u)[k] && histories[i].userId == u
    decreases |histories|
  {
    var n := |histories| - 1;
    if k < |Rows(histories[..n], u)| {
      i := RowIndex(histories[..n], u, k);
    } else {
      i := n;
    }
  }

  lemma RowsAppend(histories: seq<History>, h: History, u: UserId)
    ensures Rows(histories + [h], u) == if h.userId == u then Rows(histories, u) + [h] else Rows(histories, u)
  {
    assert (histories + [h])[..|histories|] == histories;
  }

  lemma {:induction false} RowsContain(histories: seq<History>, h: History)
    requires h in histories
    ensures h in Rows(histories, h.userId)
  {
    var n := |histories| - 1;
    if histories[n] != h {
      assert histories == histories[..n] + [histories[n]];
      RowsContain(histories[..n], h);
    }
  }
}
