/**
 Multipliers over whole runs (src/services/benefits/consume-benefits.service.ts,
 grant-round-benefits.service.ts, src/services/round/close-round.service.ts): every unit granted or
 bought is left, on a ticket, or expired when its round closed.
 */
module BenefitRuns {
  import opened Common
  import opened GameTables
  import opened GameInvariant
  import opened GameRuns
  import ScoreRound
  import ScoreLedger
  import Rounds
  import opened Benefits
  import Recompute

  function MultiplierOf(b: BenefitType): int { if b == Double then 2 else 4 }

  // ---------- what a user holds ----------

  /** Free units of the rounds below `n`. */
  function FreeUnits(free: map<(UserId, nat), FreeBenefit>, u: UserId, b: BenefitType, n: nat): int {
    if n == 0 then 0
    else FreeUnits(free, u, b, n - 1) + FreeOf(free, u, n - 1, b)
  }

  function TicketUnits(tickets: seq<Ticket>, u: UserId, b: BenefitType): nat {
    if |tickets| == 0 then 0
    else
      var last := tickets[|tickets| - 1];
      TicketUnits(tickets[..|tickets| - 1], u, b)
        + (if last.userId == u then Count(last.multipliers, MultiplierOf(b)) else 0)
  }

  /** Units on the tickets of all rounds. */
  function UsedUnits(rounds: seq<Round>, u: UserId, b: BenefitType): nat {
    if |rounds| == 0 then 0
    else UsedUnits(rounds[..|rounds| - 1], u, b) + TicketUnits(rounds[|rounds| - 1].tickets, u, b)
  }

  /** Left free, left in the inventory, and on tickets. */
  function Units(t: Tables, u: UserId, b: BenefitType): int {
    FreeUnits(t.freeBenefits, u, b, |t.rounds|) + InventoryOf(t, u, b) + UsedUnits(t.rounds, u, b)
  }

  // ---------- what a transaction adds and takes ----------

  function GrantUnits(isPro: bool, b: BenefitType): int {
    if b == Double then Rounds.RoundGrant(isPro).freeDoubles else Rounds.RoundGrant(isPro).freeSuperDoubles
  }

  /** Opening a round grants to every user that has no row for it; an admin may grant more. */
  function GrantedBy(t: Tables, a: Action, u: UserId, b: BenefitType): int {
    match a
    case OpenRound(r, pro) =>
      if Rounds.OpenStep(t, r, pro).Ok? && u in t.users && (u, r) !in t.freeBenefits then GrantUnits(u in pro, b) else 0
    case GrantFree(r, pro) => if r < |t.rounds| && u in t.users
      && (u, r) !in t.freeBenefits then GrantUnits(u in pro, b) else 0
    case CreditFree(v, r, c, amount) => if v == u && c == b && CreditFreeStep(t, v, r, c, amount).Ok? then amount else 0
    case CreditPaid(v, c, amount) => if v == u && c == b && CreditPaidStep(t, v, c, amount).Ok? then amount else 0
    case _ => 0
  }

  function BoughtBy(a: Action, u: UserId, b: BenefitType): nat {
    match a
    case StockUp(v, p) => if v == u && PackageBenefit(p) == b then PackageQuantity(p) else 0
    case _ => 0
  }

  /** What an admin takes out of an inventory. */
  function DebitedBy(t: Tables, a: Action, u: UserId, b: BenefitType): int {
    match a
    case DebitPaid(v, c, amount) => if v == u && c == b && DebitPaidStep(t, v, c, amount).Ok? then amount else 0
    case _ => 0
  }

  /** Closing a round zeroes what is left of its free units. */
  function ExpiredBy(t: Tables, a: Action, u: UserId, b: BenefitType): int {
    match a
    case CloseRound(r) => if Rounds.CloseStep(t, r).Ok? then FreeOf(t.freeBenefits, u, r, b) else 0
    case ExpireFree(r) => if r < |t.rounds| then FreeOf(t.freeBenefits, u, r, b) else 0
    case CloseAndScore(r) =>
      if r < |t.rounds| && t.rounds[r].status == Open
        && t.rounds[r].result.Some? then FreeOf(t.freeBenefits, u, r, b) else 0
    case _ => 0
  }

  // ---------- sums under updates ----------

  /** Only the free units of round `r` change. */
  lemma {:induction false} FreeUnitsChanged(f: map<(UserId, nat), FreeBenefit>, g: map<(UserId, nat), FreeBenefit>,
                                            u: UserId, b: BenefitType, n: nat, r: nat)
    requires forall s | 0 <= s < n && s != r :: FreeOf(f, u, s, b) == FreeOf(g, u, s, b)
    ensures FreeUnits(g, u, b, n) ==
              FreeUnits(f, u, b, n) + (if r < n then FreeOf(g, u, r, b) - FreeOf(f, u, r, b) else 0)
  {
    if n > 0 {
      FreeUnitsChanged(f, g, u, b, n - 1, r);
    }
  }

  lemma {:induction false} UsedUnitsUpdate(rounds: seq<Round>, r: nat, round: Round, u: UserId, b: BenefitType)
    requires r < |rounds|
    ensures UsedUnits(rounds[r := round], u, b) ==
              UsedUnits(rounds, u, b) - TicketUnits(rounds[r].tickets, u, b) + TicketUnits(round.tickets, u, b)
  {
    var n := |rounds| - 1;
    if r == n {
      assert rounds[r := round][..n] == rounds[..n];
    } else {
      assert rounds[r := round][..n] == rounds[..n][r := round];
      UsedUnitsUpdate(rounds[..n], r, round, u, b);
    }
  }

  lemma {:induction false} ScoredUnits(tickets: seq<Ticket>, result: seq<string>, u: UserId, b: BenefitType)
    ensures TicketUnits(ScoreLedger.ScoredTickets(tickets, result), u, b) == TicketUnits(tickets, u, b)
  {
    if |tickets| > 0 {
      var n := |tickets| - 1;
      ScoredUnits(tickets[..n], result, u, b);
      var scored := ScoreLedger.ScoredTickets(tickets, result);
      assert scored[..n] == ScoreLedger.ScoredTickets(tickets[..n], result);
    }
  }

  // ---------- spending ----------

  lemma ConsumeTakes(t: Tables, u: UserId, r: nat, b: BenefitType, quantity: nat, v: UserId, c: BenefitType,
                     s: Tables, used: Consumption)
    requires ConsumeStep(t, u, r, b, quantity) == Ok((s, used))
    ensures FreeOf(s.freeBenefits, v, r, c) ==
              FreeOf(t.freeBenefits, v, r, c) - (if v == u && c == b then used.freeUsed else 0)
    ensures InventoryOf(s, v, c) == InventoryOf(t, v, c) - (if v == u && c == b then used.inventoryUsed else 0)
  {
  }

  lemma ConsumeElsewhere(t: Tables, u: UserId, r: nat, b: BenefitType, quantity: nat, v: UserId, c: BenefitType,
                         s: Tables, used: Consumption)
    requires ConsumeStep(t, u, r, b, quantity) == Ok((s, used))
    ensures forall q: nat | q != r :: FreeOf(s.freeBenefits, v, q, c) == FreeOf(t.freeBenefits, v, q, c)
  {
  }

  /** Free units first and then all of the rest from the inventory; a spend that fails changes nothing. */
  lemma ConsumeMovesUnits(t: Tables, u: UserId, r: nat, b: BenefitType, quantity: nat, v: UserId, c: BenefitType,
                          s: Tables, used: Consumption)
    requires ConsumeStep(t, u, r, b, quantity) == Ok((s, used)) && r < |t.rounds|
    ensures used.freeUsed + used.inventoryUsed == quantity && used.freeUsed >= 0 && used.inventoryUsed >= 0
    ensures used.inventoryUsed > 0 ==> FreeOf(s.freeBenefits, u, r, b) <= 0
    ensures Units(s, v, c) == Units(t, v, c) - (if v == u && c == b then quantity else 0)
    ensures s.rounds == t.rounds && s.users == t.users && s.histories == t.histories
  {
    ConsumeTakes(t, u, r, b, quantity, v, c, s, used);
    ConsumeElsewhere(t, u, r, b, quantity, v, c, s, used);
    FreeUnitsChanged(t.freeBenefits, s.freeBenefits, v, c, |t.rounds|, r);
  }

  lemma SpendUnits(t: Tables, u: UserId, r: nat, b: BenefitType, quantity: nat, v: UserId, c: BenefitType, s: Tables)
    requires ConsumeIfAny(t, u, r, b, quantity) == Ok(s) && r < |t.rounds|
    ensures Units(s, v, c) == Units(t, v, c) - (if v == u && c == b then quantity else 0)
    ensures s.rounds == t.rounds
  {
    if quantity > 0 {
      ConsumeMovesUnits(t, u, r, b, quantity, v, c, s, ConsumeStep(t, u, r, b, quantity).value.1);
    }
  }

  lemma TicketTakesUnits(t: Tables, r: nat, ticket: Ticket, v: UserId, c: BenefitType)
    requires r < |t.rounds|
    ensures Units(WithTicket(t, r, ticket), v, c) ==
            Units(t, v, c) + (if v == ticket.userId then Count(ticket.multipliers, MultiplierOf(c)) else 0)
  {
    var round := t.rounds[r];
    var next := round.(tickets := round.tickets + [ticket]);
    UsedUnitsUpdate(t.rounds, r, next, v, c);
    assert next.tickets[..|round.tickets|] == round.tickets;
  }

  /** A ticket takes exactly the units its multipliers cost: the user's units stay the same. */
  lemma SubmitKeepsUnits(t: Tables, u: UserId, r: nat, prediction: seq<string>, multipliers: seq<int>, now: Time,
                         s: Tables, v: UserId, c: BenefitType)
    requires SubmitStep(t, u, r, prediction, multipliers, now) == Ok(s)
    ensures Units(s, v, c) == Units(t, v, c)
  {
    var t1 := ConsumeIfAny(t, u, r, Double, Count(multipliers, 2)).value;
    SpendUnits(t, u, r, Double, Count(multipliers, 2), v, c, t1);
    var t2 := ConsumeIfAny(t1, u, r, SuperDouble, Count(multipliers, 4)).value;
    SpendUnits(t1, u, r, SuperDouble, Count(multipliers, 4), v, c, t2);
    TicketTakesUnits(t2, r, Ticket(u, prediction, multipliers, 0, Awaiting), v, c);
  }

  // ---------- the other transactions ----------

  /** Free rows are for rounds that exist. */
  ghost predicate RowsForRounds(t: Tables) {
    forall k | k in t.freeBenefits :: k.1 < |t.rounds|
  }

  lemma SameTicketsSameUnits(t: Tables, r: nat, round: Round, v: UserId, c: BenefitType)
    requires r < |t.rounds| && round.tickets == t.rounds[r].tickets
    ensures UsedUnits(t.rounds[r := round], v, c) == UsedUnits(t.rounds, v, c)
  {
    UsedUnitsUpdate(t.rounds, r, round, v, c);
  }

  lemma OpenUnits(t: Tables, r: nat, pro: set<UserId>, s: Tables, v: UserId, c: BenefitType)
    requires Rounds.OpenStep(t, r, pro) == Ok(s)
    ensures Units(s, v, c) == Units(t, v, c) + GrantedBy(t, OpenRound(r, pro), v, c)
    ensures RowsForRounds(t) ==> RowsForRounds(s)
  {
    GrantAdds(t, r, pro, s, v, c);
    FreeUnitsChanged(t.freeBenefits, s.freeBenefits, v, c, |t.rounds|, r);
    assert s.rounds == t.rounds[r := s.rounds[r]];
    SameTicketsSameUnits(t, r, s.rounds[r], v, c);
  }

  lemma GrantAdds(t: Tables, r: nat, pro: set<UserId>, s: Tables, v: UserId, c: BenefitType)
    requires Rounds.OpenStep(t, r, pro) == Ok(s)
    ensures FreeOf(s.freeBenefits, v, r, c) == FreeOf(t.freeBenefits, v, r, c) + GrantedBy(t, OpenRound(r, pro), v, c)
    ensures forall q: nat | q != r :: FreeOf(s.freeBenefits, v, q, c) == FreeOf(t.freeBenefits, v, q, c)
  {
  }

  lemma CloseUnits(t: Tables, r: nat, s: Tables, v: UserId, c: BenefitType)
    requires Rounds.CloseStep(t, r) == Ok(s)
    ensures Units(s, v, c) == Units(t, v, c) - FreeOf(t.freeBenefits, v, r, c)
    ensures RowsForRounds(t) ==> RowsForRounds(s)
  {
    FreeUnitsChanged(t.freeBenefits, s.freeBenefits, v, c, |t.rounds|, r);
    SameTicketsSameUnits(t, r, s.rounds[r], v, c);
  }

  lemma ScoreUnits(t: Tables, r: nat, s: Tables, v: UserId, c: BenefitType)
    requires s == AfterScoring(t, ScoreRound.Step(t, r))
    ensures Units(s, v, c) == Units(t, v, c) && s.freeBenefits == t.freeBenefits && |s.rounds| == |t.rounds|
  {
    if s != t {
      var round, start := t.rounds[r], ScoreRound.Pass(t.users, t.histories, []);
      var rows := ScoreLedger.PassRows(start, r, round.result.value, round.tickets, ScoreRound.ByRoundNumber);
      assert s.rounds[r].tickets == ScoreLedger.ScoredTickets(round.tickets, round.result.value);
      ScoredUnits(round.tickets, round.result.value, v, c);
      UsedUnitsUpdate(t.rounds, r, s.rounds[r], v, c);
    }
  }

  lemma AdminCloseUnits(t: Tables, r: nat, s: Tables, v: UserId, c: BenefitType)
    requires s == Rounds.AdminCloseStep(t, r).0
    ensures Units(s, v, c) == Units(t, v, c) - ExpiredBy(t, CloseAndScore(r), v, c)
    ensures RowsForRounds(t) ==> RowsForRounds(s)
  {
    if s != t {
      var closed := if t.rounds[r].status == Open then Rounds.CloseStep(t, r).value else t;
      if t.rounds[r].status == Open {
        CloseUnits(t, r, closed, v, c);
      }
      ScoreUnits(closed, r, s, v, c);
    }
  }

  lemma RecomputeUnits(t: Tables, v: UserId, c: BenefitType)
    requires Sound(t)
    ensures var s := Recompute.Step(t).0; Units(s, v, c) == Units(t, v, c) && (RowsForRounds(t) ==> RowsForRounds(s))
  {
    Recompute.StepKeepsRounds(t);
    Recompute.StepKeepsBenefits(t);
  }

  lemma SubmitRows(t: Tables, u: UserId, r: nat, prediction: seq<string>, multipliers: seq<int>, now: Time, s: Tables)
    requires SubmitStep(t, u, r, prediction, multipliers, now) == Ok(s) && RowsForRounds(t)
    ensures RowsForRounds(s)
  {
    hide SubmissionError, ConsumeIfAny;
    var first := ConsumeIfAny(t, u, r, Double, Count(multipliers, 2));
    ConsumeKeepsRows(t, u, r, Double, Count(multipliers, 2));
    ConsumeKeepsRows(first.value, u, r, SuperDouble, Count(multipliers, 4));
  }

  lemma ConsumeKeepsRows(t: Tables, u: UserId, r: nat, b: BenefitType, quantity: nat)
    ensures var next := ConsumeIfAny(t, u, r, b, quantity);
            next.Ok? ==> next.value.freeBenefits.Keys == t.freeBenefits.Keys && next.value.rounds == t.rounds
  {
  }

  // ---------- conservation ----------

  /** What one transaction does to the units of a user. */
  ghost predicate Accounted(t: Tables, a: Action, u: UserId, b: BenefitType, s: Tables) {
    Units(s, u, b) == Units(t, u, b) + GrantedBy(t, a, u, b) + BoughtBy(a, u, b) - ExpiredBy(t, a, u, b)
      - DebitedBy(t, a, u, b)
  }

  predicate RoundAction(a: Action) { a.OpenRound? || a.CloseRound? || a.CloseAndScore? || a.ScoreClosed? }

  lemma RoundActionAccounted(t: Tables, a: Action, u: UserId, b: BenefitType, s: Tables)
    requires Sound(t) && RowsForRounds(t) && s == Apply(t, a)
    requires RoundAction(a)
    ensures Accounted(t, a, u, b, s) && RowsForRounds(s)
  {
    match a
    case OpenRound(r, pro) => if Rounds.OpenStep(t, r, pro).Ok? { OpenUnits(t, r, pro, s, u, b); }
    case CloseRound(r) => if Rounds.CloseStep(t, r).Ok? { CloseUnits(t, r, s, u, b); }
    case CloseAndScore(r) => AdminCloseUnits(t, r, s, u, b);
    case ScoreClosed(r) => ScoreUnits(t, r, s, u, b);
  }

  lemma ResultUnits(t: Tables, r: nat, result: seq<string>, s: Tables, u: UserId, b: BenefitType)
    requires s == Committed(t, Rounds.SetResultStep(t, r, result))
    ensures Units(s, u, b) == Units(t, u, b) && s.freeBenefits == t.freeBenefits && |s.rounds| == |t.rounds|
  {
    if s != t {
      SameTicketsSameUnits(t, r, s.rounds[r], u, b);
    }
  }

  lemma CancelUnits(t: Tables, r: nat, now: Time, s: Tables, u: UserId, b: BenefitType)
    requires s == Committed(t, Rounds.CancelStep(t, r, now))
    ensures Units(s, u, b) == Units(t, u, b) && s.freeBenefits == t.freeBenefits && |s.rounds| == |t.rounds|
  {
    if s != t {
      SameTicketsSameUnits(t, r, s.rounds[r], u, b);
    }
  }

  lemma SubmitUnits(t: Tables, v: UserId, r: nat, prediction: seq<string>, multipliers: seq<int>, now: Time,
                    s: Tables, u: UserId, b: BenefitType)
    requires RowsForRounds(t) && s == Committed(t, SubmitStep(t, v, r, prediction, multipliers, now))
    ensures Units(s, u, b) == Units(t, u, b) && RowsForRounds(s)
  {
    if SubmitStep(t, v, r, prediction, multipliers, now).Ok? {
      SubmitKeepsUnits(t, v, r, prediction, multipliers, now, s, u, b);
      SubmitRows(t, v, r, prediction, multipliers, now, s);
    }
  }

  lemma CreateUnits(t: Tables, openAt: Time, closeAt: Time, s: Tables, u: UserId, b: BenefitType)
    requires RowsForRounds(t) && s == Rounds.CreateStep(t, openAt, closeAt)
    ensures Units(s, u, b) == Units(t, u, b) && RowsForRounds(s)
  {
    assert s.rounds[..|t.rounds|] == t.rounds;
  }

  lemma MarkUnits(t: Tables, r: nat, s: Tables, u: UserId, b: BenefitType)
    requires s == Committed(t, Rounds.MarkOpenStep(t, r)) || s == Committed(t, Rounds.MarkClosedStep(t, r))
    ensures Units(s, u, b) == Units(t, u, b) && s.freeBenefits == t.freeBenefits && |s.rounds| == |t.rounds|
  {
    if s != t {
      SameTicketsSameUnits(t, r, s.rounds[r], u, b);
    }
  }

  lemma GrantFreeUnits(t: Tables, r: nat, pro: set<UserId>, s: Tables, u: UserId, b: BenefitType)
    requires RowsForRounds(t) && s == Committed(t, Rounds.GrantStep(t, r, pro))
    ensures Units(s, u, b) == Units(t, u, b) + GrantedBy(t, GrantFree(r, pro), u, b) && RowsForRounds(s)
  {
    if r < |t.rounds| {
      FreeUnitsChanged(t.freeBenefits, s.freeBenefits, u, b, |t.rounds|, r);
    }
  }

  lemma ExpireFreeUnits(t: Tables, r: nat, s: Tables, u: UserId, b: BenefitType)
    requires RowsForRounds(t) && s == Committed(t, Rounds.ExpireStep(t, r))
    ensures Units(s, u, b) == Units(t, u, b) - ExpiredBy(t, ExpireFree(r), u, b) && RowsForRounds(s)
  {
    if r < |t.rounds| {
      FreeUnitsChanged(t.freeBenefits, s.freeBenefits, u, b, |t.rounds|, r);
    }
  }

  lemma CreditFreeUnits(t: Tables, v: UserId, r: nat, c: BenefitType, amount: int, s: Tables, u: UserId, b: BenefitType)
    requires RowsForRounds(t) && s == Committed(t, CreditFreeStep(t, v, r, c, amount))
    ensures Units(s, u, b) == Units(t, u, b) + GrantedBy(t, CreditFree(v, r, c, amount), u, b) && RowsForRounds(s)
  {
    if CreditFreeStep(t, v, r, c, amount).Ok? {
      CreditFreeAdds(t, v, r, c, amount, s, u, b);
      FreeUnitsChanged(t.freeBenefits, s.freeBenefits, u, b, |t.rounds|, r);
    }
  }

  lemma CreditFreeAdds(t: Tables, v: UserId, r: nat, c: BenefitType, amount: int, s: Tables, u: UserId, b: BenefitType)
    requires CreditFreeStep(t, v, r, c, amount) == Ok(s)
    ensures FreeOf(s.freeBenefits, u, r, b) ==
              FreeOf(t.freeBenefits, u, r, b) + (if v == u && c == b then amount else 0)
    ensures forall q: nat | q != r :: FreeOf(s.freeBenefits, u, q, b) == FreeOf(t.freeBenefits, u, q, b)
  {
  }

  lemma OtherActionAccounted(t: Tables, a: Action, u: UserId, b: BenefitType, s: Tables)
    requires Sound(t) && RowsForRounds(t) && s == Apply(t, a)
    requires !RoundAction(a) && !PartAction(a)
    ensures Accounted(t, a, u, b, s) && RowsForRounds(s)
  {
    match a
    case Register(_, _) =>
    case CreateRound(openAt, closeAt) => CreateUnits(t, openAt, closeAt, s, u, b);
    case SetResult(r, result) => ResultUnits(t, r, result, s, u, b);
    case CancelRound(r, now) => CancelUnits(t, r, now, s, u, b);
    case SubmitTicket(v, r, prediction, multipliers, now) =>
      SubmitUnits(t, v, r, prediction, multipliers, now, s, u, b);
    case RecomputeScores => RecomputeUnits(t, u, b);
  }

  lemma InventoryAccounted(t: Tables, a: Action, u: UserId, b: BenefitType, s: Tables)
    requires RowsForRounds(t) && s == Apply(t, a) && (a.StockUp? || a.CreditPaid? || a.DebitPaid?)
    ensures Accounted(t, a, u, b, s) && RowsForRounds(s)
  {
    assert s == t.(inventory := s.inventory);
  }

  lemma PartAccounted(t: Tables, a: Action, u: UserId, b: BenefitType, s: Tables)
    requires RowsForRounds(t) && s == Apply(t, a) && PartAction(a)
    ensures Accounted(t, a, u, b, s) && RowsForRounds(s)
  {
    match a
    case MarkOpen(r) => MarkUnits(t, r, s, u, b);
    case GrantFree(r, pro) => GrantFreeUnits(t, r, pro, s, u, b);
    case MarkClosed(r) => MarkUnits(t, r, s, u, b);
    case ExpireFree(r) => ExpireFreeUnits(t, r, s, u, b);
    case CreditFree(v, r, c, amount) => CreditFreeUnits(t, v, r, c, amount, s, u, b);
    case _ => InventoryAccounted(t, a, u, b, s);
  }

  /** What the transactions of a run granted, less what admins debited. */
  function Given(t: Tables, actions: seq<Action>, u: UserId, b: BenefitType): int {
    if |actions| == 0 then 0
    else
      var before, a := Run(t, actions[..|actions| - 1]), actions[|actions| - 1];
      Given(t, actions[..|actions| - 1], u, b) + GrantedBy(before, a, u, b) - DebitedBy(before, a, u, b)
  }

  function Bought(actions: seq<Action>, u: UserId, b: BenefitType): nat {
    if |actions| == 0 then 0 else Bought(actions[..|actions| - 1], u, b) + BoughtBy(actions[|actions| - 1], u, b)
  }

  function ExpiredOver(t: Tables, actions: seq<Action>, u: UserId, b: BenefitType): int {
    if |actions| == 0 then 0
    else
      ExpiredOver(t, actions[..|actions| - 1], u, b)
        + ExpiredBy(Run(t, actions[..|actions| - 1]), actions[|actions| - 1], u, b)
  }

  lemma {:induction false} RunAccounted(t: Tables, actions: seq<Action>, u: UserId, b: BenefitType)
    requires Sound(t) && RowsForRounds(t)
    ensures Units(Run(t, actions), u, b) + ExpiredOver(t, actions, u, b) ==
            Units(t, u, b) + Given(t, actions, u, b) + Bought(actions, u, b)
    ensures RowsForRounds(Run(t, actions))
  {
    if |actions| > 0 {
      var n := |actions| - 1;
      var before, a := Run(t, actions[..n]), actions[n];
      RunAccounted(t, actions[..n], u, b);
      RunSound(t, actions[..n]);
      if RoundAction(a) {
        RoundActionAccounted(before, a, u, b, Run(t, actions));
      } else if PartAction(a) {
        PartAccounted(before, a, u, b, Run(t, actions));
      } else {
        OtherActionAccounted(before, a, u, b, Run(t, actions));
      }
    }
  }

  /** Over every run: units left, on tickets and expired are together what was granted and bought, less admin debits. */
  lemma UnitsAreConserved(actions: seq<Action>, u: UserId, b: BenefitType)
    ensures Units(Run(EMPTY, actions), u, b) + ExpiredOver(EMPTY, actions, u, b) ==
            Given(EMPTY, actions, u, b) + Bought(actions, u, b)
  {
    EmptySound();
    RunAccounted(EMPTY, actions, u, b);
  }

  /** Opening a round again restores nothing that was spent: a row that exists stays as it is. */
  lemma RegrantRestoresNothing(t: Tables, r: nat, pro: set<UserId>, u: UserId, b: BenefitType)
    requires Rounds.OpenStep(t, r, pro).Ok? && (u, r) in t.freeBenefits
    ensures FreeOf(Rounds.OpenStep(t, r, pro).value.freeBenefits, u, r, b) == FreeOf(t.freeBenefits, u, r, b)
    ensures GrantedBy(t, OpenRound(r, pro), u, b) == 0
  {
    assert (u, r) in Rounds.OpenStep(t, r, pro).value.freeBenefits;
  }
}
