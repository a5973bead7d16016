/**
 What holds in every state of the game, and that every service keeps it.
 */
module GameInvariant {
  import opened Common
  import opened GameTables
  import opened ScoreLedger
  import ScoreRound
  import Rounds
  import Benefits

  // ---------- rounds ----------

  /** A ticket as the submission service writes it. */
  ghost predicate TicketSound(ticket: Ticket, users: set<UserId>) {
    ticket.userId in users && ValidPrediction(ticket.prediction) && ValidMultipliers(ticket.multipliers)
  }

  ghost predicate RoundSound(round: Round, users: set<UserId>) {
    && (round.result.Some? ==> ValidResult(round.result.value))
    && (round.status == Scored ==> round.result.Some?)
    && (round.status == Draft || round.status == Pending || round.status == Cancelled ==> round.tickets == [])
    && (forall i | 0 <= i < |round.tickets| :: TicketSound(round.tickets[i], users))
    && UsersDistinct(round.tickets)
    && (round.status == Scored ==> round.tickets == ScoredTickets(round.tickets, round.result.value))
  }

  ghost predicate AtMostOneOpen(rounds: seq<Round>) {
    forall i, j | 0 <= i < j < |rounds| :: rounds[i].status != Open || rounds[j].status != Open
  }

  // ---------- histories ----------

  /** A history row stands for the ticket of its user in a SCORED round. */
  ghost predicate RowBacked(h: History, rounds: seq<Round>, users: set<UserId>) {
    && h.userId in users
    && h.roundId < |rounds|
    && rounds[h.roundId].status == Scored
    && rounds[h.roundId].result.Some?
    && Benefits.HasTicket(rounds[h.roundId].tickets, h.userId)
    && h.scoreRound == PointsOf(rounds[h.roundId].tickets, rounds[h.roundId].result.value, h.userId)
  }

  ghost predicate HasRow(histories: seq<History>, u: UserId, roundId: nat) {
    exists k :: 0 <= k < |histories| && histories[k].userId == u && histories[k].roundId == roundId
  }

  /** Every scored ticket has its row. */
  ghost predicate RowsComplete(histories: seq<History>, rounds: seq<Round>) {
    forall r, i | 0 <= r < |rounds| && rounds[r].status == Scored && 0 <= i < |rounds[r].tickets| ::
      HasRow(histories, rounds[r].tickets[i].userId, r)
  }

  ghost predicate LedgerSound(t: Tables) {
    && AllBacked(t.histories, t.rounds, t.users.Keys)
    && RowsDistinct(t.histories)
    && RowsComplete(t.histories, t.rounds)
    && CumulativeTotals(t.histories)
    && TotalsExact(t.users, t.histories)
    && (forall u | u in t.users :: t.users[u].scoreTotal == RoundsPoints(t.rounds, u))
  }

  ghost predicate CountersNonNegative(t: Tables) {
    && (forall k | k in t.freeBenefits :: t.freeBenefits[k].freeDoubles >= 0 && t.freeBenefits[k].freeSuperDoubles >= 0)
    && (forall k | k in t.inventory :: t.inventory[k] >= 0)
  }

  ghost predicate Sound(t: Tables) {
    && (forall r | 0 <= r < |t.rounds| :: RoundSound(t.rounds[r], t.users.Keys))
    && AtMostOneOpen(t.rounds)
    && LedgerSound(t)
    && CountersNonNegative(t)
  }

  lemma EmptySound()
    ensures Sound(EMPTY)
  {
  }

  // ---------- steps that leave the SCORED rounds alone ----------

  /** A row is backed by a SCORED round, so replacing another round leaves it backed. */
  lemma StillBacked(h: History, rounds: seq<Round>, users: set<UserId>, roundId: nat, round: Round)
    requires RowBacked(h, rounds, users) && roundId < |rounds| && rounds[roundId].status != Scored
    ensures RowBacked(h, rounds[roundId := round], users)
  {
  }

  /** Replacing a round that is not SCORED by one that is not keeps the ledger. */
  lemma RoundReplaced(t: Tables, roundId: nat, round: Round)
    requires LedgerSound(t) && roundId < |t.rounds|
    requires t.rounds[roundId].status != Scored && round.status != Scored
    ensures LedgerSound(t.(rounds := t.rounds[roundId := round]))
  {
    forall u | u in t.users ensures RoundsPoints(t.rounds[roundId := round], u) == RoundsPoints(t.rounds, u) {
      RoundsPointsUpdate(t.rounds, roundId, round, u);
    }
    forall k | 0 <= k < |t.histories| ensures RowBacked(t.histories[k], t.rounds[roundId := round], t.users.Keys) {
      StillBacked(t.histories[k], t.rounds, t.users.Keys, roundId, round);
    }
  }

  /** Benefit counters do not enter the ledger. */
  lemma LedgerIgnoresBenefits(t: Tables, s: Tables)
    requires LedgerSound(t) && s.users == t.users && s.rounds == t.rounds && s.histories == t.histories
    ensures LedgerSound(s)
  {
  }

  lemma RoundSwapSound(t: Tables, roundId: nat, round: Round)
    requires Sound(t) && roundId < |t.rounds|
    requires t.rounds[roundId].status != Scored && round.status != Scored
    requires RoundSound(round, t.users.Keys)
    requires round.status == Open ==> t.rounds[roundId].status == Open || !Rounds.SomeOtherOpen(t.rounds, roundId)
    ensures Sound(t.(rounds := t.rounds[roundId := round]))
  {
    RoundReplaced(t, roundId, round);
    var rounds := t.rounds[roundId := round];
    forall i, j | 0 <= i < j < |rounds| ensures rounds[i].status != Open || rounds[j].status != Open {
      assert t.rounds[i].status != Open || t.rounds[j].status != Open;
    }
  }

  lemma BenefitsSwapSound(t: Tables, s: Tables)
    requires Sound(t) && s.users == t.users && s.rounds == t.rounds && s.histories == t.histories
    requires CountersNonNegative(s)
    ensures Sound(s)
  {
    LedgerIgnoresBenefits(t, s);
  }

  lemma SoundCounters(t: Tables)
    requires Sound(t)
    ensures CountersNonNegative(t)
  {
  }

  lemma GrantKeepsCounters(t: Tables, s: Tables, roundId: nat, pro: set<UserId>)
    requires CountersNonNegative(t)
    requires s == t.(freeBenefits := Rounds.Granted(t.freeBenefits, t.users.Keys, roundId, pro))
    ensures CountersNonNegative(s)
  {
  }

  lemma GrantSound(t: Tables, roundId: nat, pro: set<UserId>)
    requires Sound(t)
    ensures Sound(t.(freeBenefits := Rounds.Granted(t.freeBenefits, t.users.Keys, roundId, pro)))
  {
    hide Sound, CountersNonNegative;
    var s := t.(freeBenefits := Rounds.Granted(t.freeBenefits, t.users.Keys, roundId, pro));
    SoundCounters(t);
    GrantKeepsCounters(t, s, roundId, pro);
    BenefitsSwapSound(t, s);
  }

  lemma OpenSound(t: Tables, roundId: nat, pro: set<UserId>)
    requires Sound(t) && Rounds.OpenStep(t, roundId, pro).Ok?
    ensures Sound(Rounds.OpenStep(t, roundId, pro).value)
  {
    if t.rounds[roundId].status == Open {
      GrantSound(t, roundId, pro);
    } else {
      var round := t.rounds[roundId].(status := Open);
      assert RoundSound(t.rounds[roundId], t.users.Keys);
      RoundSwapSound(t, roundId, round);
      GrantSound(t.(rounds := t.rounds[roundId := round]), roundId, pro);
    }
  }

  lemma MarkOpenSound(t: Tables, roundId: nat, s: Tables)
    requires Sound(t) && Rounds.MarkOpenStep(t, roundId) == Ok(s)
    ensures Sound(s)
  {
    var round := t.rounds[roundId].(status := Open);
    assert RoundSound(t.rounds[roundId], t.users.Keys);
    RoundSwapSound(t, roundId, round);
  }

  lemma MarkClosedSound(t: Tables, roundId: nat, s: Tables)
    requires Sound(t) && Rounds.MarkClosedStep(t, roundId) == Ok(s)
    ensures Sound(s)
  {
    var round := t.rounds[roundId].(status := Closed);
    assert RoundSound(t.rounds[roundId], t.users.Keys);
    RoundSwapSound(t, roundId, round);
  }

  lemma ExpireSound(t: Tables, roundId: nat, s: Tables)
    requires Sound(t) && Rounds.ExpireStep(t, roundId) == Ok(s)
    ensures Sound(s)
  {
    BenefitsSwapSound(t, s);
  }

  lemma CloseSound(t: Tables, roundId: nat)
    requires Sound(t) && Rounds.CloseStep(t, roundId).Ok?
    ensures Sound(Rounds.CloseStep(t, roundId).value)
  {
    var round := t.rounds[roundId].(status := Closed);
    assert RoundSound(t.rounds[roundId], t.users.Keys);
    RoundSwapSound(t, roundId, round);
    BenefitsSwapSound(t.(rounds := t.rounds[roundId := round]), Rounds.CloseStep(t, roundId).value);
  }

  lemma SetResultSound(t: Tables, roundId: nat, result: seq<string>)
    requires Sound(t) && Rounds.SetResultStep(t, roundId, result).Ok?
    ensures Sound(Rounds.SetResultStep(t, roundId, result).value)
  {
    assert RoundSound(t.rounds[roundId], t.users.Keys);
    RoundSwapSound(t, roundId, t.rounds[roundId].(result := Some(result)));
  }

  lemma CancelSound(t: Tables, roundId: nat, now: Time)
    requires Sound(t) && Rounds.CancelStep(t, roundId, now).Ok?
    ensures Sound(Rounds.CancelStep(t, roundId, now).value)
  {
    var next := Rounds.CancelStep(t, roundId, now).value;
    assert RoundSound(t.rounds[roundId], t.users.Keys);
    RoundSwapSound(t, roundId, next.rounds[roundId]);
  }

  lemma CreateSound(t: Tables, openAt: Time, closeAt: Time)
    requires Sound(t)
    ensures Sound(Rounds.CreateStep(t, openAt, closeAt))
  {
    hide LedgerSound;
    DraftKeepsLedger(t, Round(Draft, openAt, closeAt, None, []));
  }

  lemma DraftKeepsLedger(t: Tables, round: Round)
    requires LedgerSound(t) && round.status == Draft
    ensures LedgerSound(t.(rounds := t.rounds + [round]))
  {
    hide RowBacked, RoundsPoints, CumulativeTotals, RowsDistinct, TotalsExact, HasRow;
    var rounds := t.rounds + [round];
    forall k | 0 <= k < |t.histories| ensures RowBacked(t.histories[k], rounds, t.users.Keys) {
      assert RowBacked(t.histories[k], t.rounds, t.users.Keys);
      BackedBesideDraft(t.histories[k], t.rounds, round, t.users.Keys);
    }
    forall u | u in t.users ensures RoundsPoints(rounds, u) == RoundsPoints(t.rounds, u) {
      DraftEarnsNothing(t.rounds, round, u);
    }
  }

  lemma BackedBesideDraft(h: History, rounds: seq<Round>, round: Round, users: set<UserId>)
    requires RowBacked(h, rounds, users)
    ensures RowBacked(h, rounds + [round], users)
  {
  }

  lemma DraftEarnsNothing(rounds: seq<Round>, round: Round, u: UserId)
    requires round.status == Draft
    ensures RoundsPoints(rounds + [round], u) == RoundsPoints(rounds, u)
  {
    assert (rounds + [round])[..|rounds|] == rounds;
  }

  // ---------- tickets and benefits ----------

  /** Spending touches only the counters, and keeps them from going below zero. */
  lemma ConsumeKeepsCounters(t: Tables, u: UserId, roundId: nat, benefit: BenefitType, quantity: nat, s: Tables)
    requires CountersNonNegative(t) && Benefits.ConsumeIfAny(t, u, roundId, benefit, quantity) == Ok(s)
    ensures CountersNonNegative(s) && s.rounds == t.rounds && s.users == t.users && s.histories == t.histories
  {
  }

  lemma ConsumeSound(t: Tables, u: UserId, roundId: nat, benefit: BenefitType, quantity: nat)
    requires Sound(t) && Benefits.ConsumeIfAny(t, u, roundId, benefit, quantity).Ok?
    ensures var s := Benefits.ConsumeIfAny(t, u, roundId, benefit, quantity).value;
            Sound(s) && s.rounds == t.rounds && s.users == t.users && s.histories == t.histories
  {
    var s := Benefits.ConsumeIfAny(t, u, roundId, benefit, quantity).value;
    ConsumeKeepsCounters(t, u, roundId, benefit, quantity, s);
    BenefitsSwapSound(t, s);
  }

  lemma AddTicketSound(t: Tables, roundId: nat, ticket: Ticket)
    requires Sound(t) && roundId < |t.rounds| && t.rounds[roundId].status == Open
    requires TicketSound(ticket, t.users.Keys) && !Benefits.HasTicket(t.rounds[roundId].tickets, ticket.userId)
    ensures Sound(Benefits.WithTicket(t, roundId, ticket))
  {
    var round := t.rounds[roundId];
    assert RoundSound(round, t.users.Keys);
    TicketAddedSound(round, ticket, t.users.Keys);
    RoundSwapSound(t, roundId, round.(tickets := round.tickets + [ticket]));
  }

  lemma TicketAddedSound(round: Round, ticket: Ticket, users: set<UserId>)
    requires RoundSound(round, users) && round.status == Open && TicketSound(ticket, users)
               && !Benefits.HasTicket(round.tickets, ticket.userId)
    ensures RoundSound(round.(tickets := round.tickets + [ticket]), users)
  {
    var next := round.(tickets := round.tickets + [ticket]);
    forall i | 0 <= i < |next.tickets| ensures TicketSound(next.tickets[i], users) {
      if i < |round.tickets| {
        assert TicketSound(round.tickets[i], users);
      }
    }
  }

  lemma SubmitSound(t: Tables, u: UserId, roundId: nat, prediction: seq<string>, multipliers: seq<int>, now: Time)
    requires Sound(t) && Benefits.SubmitStep(t, u, roundId, prediction, multipliers, now).Ok?
    ensures Sound(Benefits.SubmitStep(t, u, roundId, prediction, multipliers, now).value)
  {
    var doubles := Benefits.Count(multipliers, 2);
    ConsumeSound(t, u, roundId, Double, doubles);
    var t1 := Benefits.ConsumeIfAny(t, u, roundId, Double, doubles).value;
    ConsumeSound(t1, u, roundId, SuperDouble, Benefits.Count(multipliers, 4));
    var t2 := Benefits.ConsumeIfAny(t1, u, roundId, SuperDouble, Benefits.Count(multipliers, 4)).value;
    AddTicketSound(t2, roundId, Ticket(u, prediction, multipliers, 0, Awaiting));
  }

  lemma StockSound(t: Tables, u: UserId, p: Benefits.Package)
    requires Sound(t)
    ensures Sound(Benefits.StockStep(t, u, p))
  {
    BenefitsSwapSound(t, Benefits.StockStep(t, u, p));
  }

  lemma CreditFreeKeepsCounters(t: Tables, u: UserId, roundId: nat, b: BenefitType, amount: int, s: Tables)
    requires CountersNonNegative(t) && Benefits.CreditFreeStep(t, u, roundId, b, amount) == Ok(s)
    ensures CountersNonNegative(s) && s.rounds == t.rounds && s.users == t.users && s.histories == t.histories
  {
  }

  lemma CreditFreeSound(t: Tables, u: UserId, roundId: nat, b: BenefitType, amount: int, s: Tables)
    requires Sound(t) && Benefits.CreditFreeStep(t, u, roundId, b, amount) == Ok(s)
    ensures Sound(s)
  {
    CreditFreeKeepsCounters(t, u, roundId, b, amount, s);
    BenefitsSwapSound(t, s);
  }

  lemma InventoryRowSound(t: Tables, u: UserId, b: BenefitType, quantity: int, s: Tables)
    requires Sound(t) && quantity >= 0 && s == t.(inventory := t.inventory[(u, b) := quantity])
    ensures Sound(s)
  {
    BenefitsSwapSound(t, s);
  }

  lemma HeldUnits(t: Tables, u: UserId, b: BenefitType)
    requires CountersNonNegative(t)
    ensures Benefits.InventoryOf(t, u, b) >= 0
  {
  }

  lemma InventorySound(t: Tables, u: UserId, b: BenefitType, amount: int, s: Tables)
    requires Sound(t)
    requires Benefits.CreditPaidStep(t, u, b, amount) == Ok(s) || Benefits.DebitPaidStep(t, u, b, amount) == Ok(s)
    ensures Sound(s)
  {
    HeldUnits(t, u, b);
    InventoryRowSound(t, u, b, s.inventory[(u, b)], s);
  }

  /** A new account starts with nothing scored. */
  function RegisterStep(t: Tables, u: UserId, createdAt: Time): Tables {
    if u in t.users then t else t.(users := t.users[u := User(createdAt, 0)])
  }

  lemma {:induction false} NoRows(histories: seq<History>, u: UserId)
    requires forall k | 0 <= k < |histories| :: histories[k].userId != u
    ensures Rows(histories, u) == []
  {
    if |histories| > 0 {
      NoRows(histories[..|histories| - 1], u);
    }
  }

  lemma {:induction false} NoRoundsPoints(rounds: seq<Round>, users: set<UserId>, u: UserId)
    requires forall r | 0 <= r < |rounds| :: RoundSound(rounds[r], users)
    requires u !in users
    ensures RoundsPoints(rounds, u) == 0
  {
    if |rounds| > 0 {
      var n := |rounds| - 1;
      NoRoundsPoints(rounds[..n], users, u);
      assert RoundSound(rounds[n], users);
      if rounds[n].result.Some? {
        forall i | 0 <= i < |rounds[n].tickets| ensures rounds[n].tickets[i].userId != u {
          assert TicketSound(rounds[n].tickets[i], users);
        }
        NoPoints(rounds[n].tickets, rounds[n].result.value, u);
      }
    }
  }

  lemma RoundsSoundForMore(rounds: seq<Round>, users: set<UserId>, more: set<UserId>)
    requires forall r | 0 <= r < |rounds| :: RoundSound(rounds[r], users)
    requires users <= more
    ensures forall r | 0 <= r < |rounds| :: RoundSound(rounds[r], more)
  {
    forall r | 0 <= r < |rounds| ensures RoundSound(rounds[r], more) {
      assert RoundSound(rounds[r], users);
      forall i | 0 <= i < |rounds[r].tickets| ensures TicketSound(rounds[r].tickets[i], more) {
        assert TicketSound(rounds[r].tickets[i], users);
      }
    }
  }

  lemma RegisterSound(t: Tables, u: UserId, createdAt: Time)
    requires Sound(t)
    ensures Sound(RegisterStep(t, u, createdAt))
  {
    if u !in t.users {
      RoundsSoundForMore(t.rounds, t.users.Keys, RegisterStep(t, u, createdAt).users.Keys);
      NewUserLedger(t, u, User(createdAt, 0));
    }
  }

  lemma BackedForMore(histories: seq<History>, rounds: seq<Round>, users: set<UserId>, u: UserId)
    requires AllBacked(histories, rounds, users) && u !in users
    ensures AllBacked(histories, rounds, users + {u}) && Rows(histories, u) == []
  {
    forall k | 0 <= k < |histories| ensures RowBacked(histories[k], rounds, users + {u}) && histories[k].userId != u {
      assert RowBacked(histories[k], rounds, users);
    }
    NoRows(histories, u);
  }

  lemma TotalsForMore(users: map<UserId, User>, histories: seq<History>, u: UserId, user: User)
    requires TotalsExact(users, histories) && user.scoreTotal == 0 && Rows(histories, u) == []
    ensures TotalsExact(users[u := user], histories)
  {
  }

  lemma NewUserLedger(t: Tables, u: UserId, user: User)
    requires LedgerSound(t) && u !in t.users && user.scoreTotal == 0
    requires forall r | 0 <= r < |t.rounds| :: RoundSound(t.rounds[r], t.users.Keys)
    ensures LedgerSound(t.(users := t.users[u := user]))
  {
    BackedForMore(t.histories, t.rounds, t.users.Keys, u);
    assert t.users[u := user].Keys == t.users.Keys + {u};
    TotalsForMore(t.users, t.histories, u, user);
    NoRoundsPoints(t.rounds, t.users.Keys, u);
  }

  // ---------- scoring ----------

  /** In a sound state the calculator takes every ticket of a CLOSED round with a result. */
  lemma TicketsAccepted(t: Tables, roundId: nat)
    requires Sound(t) && roundId < |t.rounds|
    requires t.rounds[roundId].status != Scored && t.rounds[roundId].result.Some?
    ensures forall i | 0 <= i < |t.rounds[roundId].tickets| ::
              ScoreRound.Accepts(t.users, t.histories, roundId, t.rounds[roundId].result.value,
                t.rounds[roundId].tickets[i])
  {
    var round := t.rounds[roundId];
    assert RoundSound(round, t.users.Keys);
    forall i | 0 <= i < |round.tickets|
      ensures ScoreRound.Accepts(t.users, t.histories, roundId, round.result.value, round.tickets[i])
    {
      assert TicketSound(round.tickets[i], t.users.Keys);
      forall k | 0 <= k < |t.histories| ensures t.histories[k].roundId != roundId {
        assert RowBacked(t.histories[k], t.rounds, t.users.Keys);
      }
    }
  }

  /** Scoring a CLOSED round that has its result never fails. */
  lemma ScoringSucceeds(t: Tables, roundId: nat)
    requires Sound(t) && roundId < |t.rounds|
    requires t.rounds[roundId].status == Closed && t.rounds[roundId].result.Some?
    ensures ScoreRound.Step(t, roundId).Ok?
  {
    TicketsAccepted(t, roundId);
    assert RoundSound(t.rounds[roundId], t.users.Keys);
    PassSucceeds(ScoreRound.Pass(t.users, t.histories, []), roundId, t.rounds[roundId].result.value,
                 t.rounds[roundId].tickets, ScoreRound.ByRoundNumber);
  }

  /** What has to hold of a state whose round `roundId` has just been scored into it. */
  ghost predicate JustScored(t: Tables, s: Tables, roundId: nat, rows: seq<History>)
  {
    && roundId < |t.rounds| && t.rounds[roundId].status != Scored && t.rounds[roundId].result.Some?
    && s.histories == t.histories + rows
    && RowsFor(rows, roundId, t.rounds[roundId].result.value, t.rounds[roundId].tickets)
    && s.rounds == t.rounds[roundId := t.rounds[roundId].(status := Scored,
                     tickets := ScoredTickets(t.rounds[roundId].tickets, t.rounds[roundId].result.value))]
    && s.users.Keys == t.users.Keys
    && (forall u | u in t.users ::
          s.users[u].scoreTotal == t.users[u].scoreTotal
            + PointsOf(t.rounds[roundId].tickets, t.rounds[roundId].result.value, u))
    && s.freeBenefits == t.freeBenefits && s.inventory == t.inventory
  }

  lemma ScoredUsersDistinct(tickets: seq<Ticket>, result: seq<string>)
    requires UsersDistinct(tickets)
    ensures UsersDistinct(ScoredTickets(tickets, result))
    ensures ScoredTickets(ScoredTickets(tickets, result), result) == ScoredTickets(tickets, result)
  {
    var s := ScoredTickets(tickets, result);
    forall i | 0 <= i < |s| ensures ScoredTicket(s[i], result) == s[i] {
    }
  }

  lemma JustScoredRounds(t: Tables, s: Tables, roundId: nat, rows: seq<History>)
    requires Sound(t) && JustScored(t, s, roundId, rows)
    ensures forall r | 0 <= r < |s.rounds| :: RoundSound(s.rounds[r], s.users.Keys)
    ensures AtMostOneOpen(s.rounds)
  {
    var round, result := t.rounds[roundId], t.rounds[roundId].result.value;
    assert RoundSound(round, t.users.Keys);
    ScoredUsersDistinct(round.tickets, result);
    forall i | 0 <= i < |round.tickets| ensures TicketSound(ScoredTickets(round.tickets, result)[i], t.users.Keys) {
      assert TicketSound(round.tickets[i], t.users.Keys);
    }
    assert ScoredTickets([], result) == [];
    assert forall i, j | 0 <= i < j < |t.rounds| :: t.rounds[i].status != Open || t.rounds[j].status != Open;
  }

  lemma HasScoredTicket(tickets: seq<Ticket>, result: seq<string>, u: UserId)
    requires Benefits.HasTicket(tickets, u)
    ensures Benefits.HasTicket(ScoredTickets(tickets, result), u)
  {
    var k :| 0 <= k < |tickets| && tickets[k].userId == u;
    assert ScoredTickets(tickets, result)[k].userId == u;
  }

  lemma OldRowBacked(t: Tables, s: Tables, roundId: nat, rows: seq<History>, h: History)
    requires JustScored(t, s, roundId, rows) && RowBacked(h, t.rounds, t.users.Keys)
    ensures RowBacked(h, s.rounds, s.users.Keys)
  {
  }

  lemma NewRowBacked(t: Tables, s: Tables, roundId: nat, rows: seq<History>, i: nat)
    requires JustScored(t, s, roundId, rows) && RoundSound(t.rounds[roundId], t.users.Keys) && i < |rows|
    ensures RowBacked(rows[i], s.rounds, s.users.Keys)
  {
    var tickets, result := t.rounds[roundId].tickets, t.rounds[roundId].result.value;
    assert RowFor(rows[i], roundId, result, tickets[i]);
    assert TicketSound(tickets[i], t.users.Keys);
    HasScoredTicket(tickets, result, rows[i].userId);
    ScoredPoints(tickets, result, rows[i].userId);
    PointsOfTicket(tickets, result, i);
  }

  ghost predicate AllBacked(histories: seq<History>, rounds: seq<Round>, users: set<UserId>) {
    forall k | 0 <= k < |histories| :: RowBacked(histories[k], rounds, users)
  }

  lemma BackedAppend(histories: seq<History>, rows: seq<History>, rounds: seq<Round>, users: set<UserId>)
    requires AllBacked(histories, rounds, users) && AllBacked(rows, rounds, users)
    ensures AllBacked(histories + rows, rounds, users)
  {
    var all := histories + rows;
    forall k | 0 <= k < |all| ensures RowBacked(all[k], rounds, users) {
      assert all[k] == if k < |histories| then histories[k] else rows[k - |histories|];
    }
  }

  lemma JustScoredRowsBacked(t: Tables, s: Tables, roundId: nat, rows: seq<History>)
    requires Sound(t) && JustScored(t, s, roundId, rows)
    ensures AllBacked(s.histories, s.rounds, s.users.Keys)
  {
    assert RoundSound(t.rounds[roundId], t.users.Keys);
    forall k | 0 <= k < |t.histories| ensures RowBacked(t.histories[k], s.rounds, s.users.Keys) {
      assert RowBacked(t.histories[k], t.rounds, t.users.Keys);
      OldRowBacked(t, s, roundId, rows, t.histories[k]);
    }
    forall i | 0 <= i < |rows| ensures RowBacked(rows[i], s.rounds, s.users.Keys) {
      NewRowBacked(t, s, roundId, rows, i);
    }
    BackedAppend(t.histories, rows, s.rounds, s.users.Keys);
  }

  lemma JustScoredRowsDistinct(t: Tables, s: Tables, roundId: nat, rows: seq<History>)
    requires Sound(t) && JustScored(t, s, roundId, rows)
    ensures RowsDistinct(s.histories)
  {
    var round, result := t.rounds[roundId], t.rounds[roundId].result.value;
    assert RoundSound(round, t.users.Keys);
    var n := |t.histories|;
    forall i, j | 0 <= i < j < |s.histories|
      ensures s.histories[i].userId != s.histories[j].userId || s.histories[i].roundId != s.histories[j].roundId
    {
      if j >= n {
        assert RowFor(rows[j - n], roundId, result, round.tickets[j - n]);
        if i < n {
          assert RowBacked(t.histories[i], t.rounds, t.users.Keys);
        } else {
          assert RowFor(rows[i - n], roundId, result, round.tickets[i - n]);
        }
      }
    }
  }

  lemma RowKept(histories: seq<History>, rows: seq<History>, u: UserId, roundId: nat)
    requires HasRow(histories, u, roundId) || HasRow(rows, u, roundId)
    ensures HasRow(histories + rows, u, roundId)
  {
    var all := histories + rows;
    if HasRow(histories, u, roundId) {
      var k :| 0 <= k < |histories| && histories[k].userId == u && histories[k].roundId == roundId;
      assert all[k] == histories[k];
    } else {
      var k :| 0 <= k < |rows| && rows[k].userId == u && rows[k].roundId == roundId;
      assert all[|histories| + k] == rows[k];
    }
  }

  lemma JustScoredRowsComplete(t: Tables, s: Tables, roundId: nat, rows: seq<History>)
    requires RowsComplete(t.histories, t.rounds) && JustScored(t, s, roundId, rows)
    ensures RowsComplete(s.histories, s.rounds)
  {
    forall r, i | 0 <= r < |s.rounds| && s.rounds[r].status == Scored && 0 <= i < |s.rounds[r].tickets|
      ensures HasRow(s.histories, s.rounds[r].tickets[i].userId, r)
    {
      if r == roundId {
        assert RowFor(rows[i], roundId, t.rounds[roundId].result.value, t.rounds[roundId].tickets[i]);
        assert HasRow(rows, s.rounds[r].tickets[i].userId, r);
      } else {
        assert HasRow(t.histories, t.rounds[r].tickets[i].userId, r);
      }
      RowKept(t.histories, rows, s.rounds[r].tickets[i].userId, r);
    }
  }

  lemma JustScoredTotals(t: Tables, s: Tables, roundId: nat, rows: seq<History>)
    requires Sound(t) && JustScored(t, s, roundId, rows)
    ensures forall u | u in s.users :: s.users[u].scoreTotal == RoundsPoints(s.rounds, u)
  {
    var round, result := t.rounds[roundId], t.rounds[roundId].result.value;
    forall u | u in s.users ensures s.users[u].scoreTotal == RoundsPoints(s.rounds, u) {
      assert u in t.users;
      RoundsPointsUpdate(t.rounds, roundId, s.rounds[roundId], u);
      ScoredPoints(round.tickets, result, u);
    }
  }

  lemma PassTotals(p: ScoreRound.Pass, roundId: nat, result: seq<string>, tickets: seq<Ticket>,
                   lookup: ScoreRound.Lookup)
    requires ScoreRound.ScoreTickets(p, roundId, result, tickets, lookup).Some?
    ensures var q := ScoreRound.ScoreTickets(p, roundId, result, tickets, lookup).value;
            forall u | u in p.users :: q.users[u].scoreTotal == p.users[u].scoreTotal + PointsOf(tickets, result, u)
  {
    forall u | u in p.users {
      PassPoints(p, roundId, result, tickets, lookup, u);
    }
  }

  lemma PassJustScored(t: Tables, roundId: nat, lookup: ScoreRound.Lookup) returns (rows: seq<History>)
    requires Sound(t) && roundId < |t.rounds|
    requires t.rounds[roundId].status != Scored && t.rounds[roundId].result.Some?
    ensures var p := ScoreRound.ScoreTickets(ScoreRound.Pass(t.users, t.histories, []), roundId,
                       t.rounds[roundId].result.value, t.rounds[roundId].tickets, lookup);
            p.Some? && JustScored(t, ScoreRound.Finish(t, roundId, p.value), roundId, rows)
  {
    var start := ScoreRound.Pass(t.users, t.histories, []);
    var round, result := t.rounds[roundId], t.rounds[roundId].result.value;
    TicketsAccepted(t, roundId);
    assert RoundSound(round, t.users.Keys);
    PassSucceeds(start, roundId, result, round.tickets, lookup);
    rows := PassRows(start, roundId, result, round.tickets, lookup);
    PassTotals(start, roundId, result, round.tickets, lookup);
    assert [] + ScoredTickets(round.tickets, result) == ScoredTickets(round.tickets, result);
  }

  /** A pass over an unscored round, with either lookup, leads to a sound state. */
  lemma PassSound(t: Tables, roundId: nat, lookup: ScoreRound.Lookup)
    requires Sound(t) && roundId < |t.rounds|
    requires t.rounds[roundId].status != Scored && t.rounds[roundId].result.Some?
    ensures var p := ScoreRound.ScoreTickets(ScoreRound.Pass(t.users, t.histories, []), roundId,
                       t.rounds[roundId].result.value, t.rounds[roundId].tickets, lookup);
            p.Some? && Sound(ScoreRound.Finish(t, roundId, p.value))
  {
    var rows := PassJustScored(t, roundId, lookup);
    var p := ScoreRound.ScoreTickets(ScoreRound.Pass(t.users, t.histories, []), roundId,
               t.rounds[roundId].result.value, t.rounds[roundId].tickets, lookup).value;
    var s := ScoreRound.Finish(t, roundId, p);
    PassKeepsLedger(ScoreRound.Pass(t.users, t.histories, []), roundId, t.rounds[roundId].result.value,
                    t.rounds[roundId].tickets, lookup);
    JustScoredRounds(t, s, roundId, rows);
    JustScoredRowsBacked(t, s, roundId, rows);
    JustScoredRowsDistinct(t, s, roundId, rows);
    JustScoredRowsComplete(t, s, roundId, rows);
    JustScoredTotals(t, s, roundId, rows);
  }

  lemma ScoreSound(t: Tables, roundId: nat)
    requires Sound(t) && ScoreRound.Step(t, roundId).Ok?
    ensures Sound(ScoreRound.Step(t, roundId).value.0)
  {
    if t.rounds[roundId].status != Scored {
      PassSound(t, roundId, ScoreRound.ByRoundNumber);
    }
  }

  lemma AdminCloseSound(t: Tables, roundId: nat)
    requires Sound(t)
    ensures Sound(Rounds.AdminCloseStep(t, roundId).0)
    ensures Rounds.AdminCloseStep(t, roundId).1 != Err(Rounds.ScoringFailed)
  {
    if roundId < |t.rounds| && t.rounds[roundId].result.Some? {
      if t.rounds[roundId].status == Open {
        CloseSound(t, roundId);
        var closed := Rounds.CloseStep(t, roundId).value;
        ScoringSucceeds(closed, roundId);
        ScoreSound(closed, roundId);
      } else if t.rounds[roundId].status == Closed {
        ScoringSucceeds(t, roundId);
        ScoreSound(t, roundId);
      }
    }
  }
}
