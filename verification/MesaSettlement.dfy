/**
 What closing a Mesa promises (src/services/ranking/close-ranking.service.ts,
 src/services/bolao/settle-bolao.service.ts): it keeps every invariant, pays each winner once,
 pays out the whole pool of a paid Mesa, and commits exactly when no eligible prize is zero.
 */
module MesaSettlement {
  import opened Common
  import opened BolaoPrize
  import opened PrizeFairness
  import opened RankingTiebreak
  import opened RankingWindowScore
  import opened TieGroups
  import opened MoneyTables
  import opened MesaIntegrity
  import opened MesaEntry
  import opened MesaClose
  import opened MesaInvariant
  import GameTables

  // ---------- freezing keeps entries ----------

  ghost predicate SameEntry(p: Participant, q: Participant) {
    && p.userId == q.userId && p.status == q.status && p.scoreInitial == q.scoreInitial
    && p.entryFeePaid == q.entryFeePaid && p.entryPaidAt == q.entryPaidAt
  }

  ghost predicate SameEntries(ps: seq<Participant>, qs: seq<Participant>) {
    |ps| == |qs| && forall k | 0 <= k < |ps| :: SameEntry(ps[k], qs[k])
  }

  lemma {:induction false} FreezeKeepsEntries(ps: seq<Participant>, rows: seq<Ranked<WindowRow>>)
    ensures SameEntries(ps, Freeze(ps, rows))
  {
    if |rows| > 0 {
      FreezeKeepsEntries(ps, rows[..|rows| - 1]);
    }
  }

  lemma {:induction false} SameEntriesSameCounts(ps: seq<Participant>, qs: seq<Participant>)
    requires SameEntries(ps, qs)
    ensures CountApproved(ps) == CountApproved(qs)
    ensures forall u :: IndexOf(ps, u) == IndexOf(qs, u)
  {
    if |ps| > 0 {
      var n := |ps| - 1;
      assert SameEntry(ps[n], qs[n]);
      SameEntriesSameCounts(ps[..n], qs[..n]);
    }
  }

  lemma SameEntriesSound(ps: seq<Participant>, qs: seq<Participant>, category: Category, cost: int)
    requires SameEntries(ps, qs) && EntriesSound(ps, category, cost)
    ensures EntriesSound(qs, category, cost)
  {
    forall k | 0 <= k < |qs| ensures EntrySound(qs[k], category, cost) {
      assert EntrySound(ps[k], category, cost) && SameEntry(ps[k], qs[k]);
    }
    forall i, j | 0 <= i < j < |qs| ensures qs[i].userId != qs[j].userId {
      assert SameEntry(ps[i], qs[i]) && SameEntry(ps[j], qs[j]);
    }
  }

  /** Refreshed or frozen scores leave entries, counts and approvals as they were. */
  lemma FreezeSound(m: Mesa, rows: seq<Ranked<WindowRow>>)
    requires EntriesSound(m.participants, m.category, m.entryFee)
    ensures var n := m.(participants := Freeze(m.participants, rows));
            && EntriesSound(n.participants, m.category, m.entryFee)
            && CountApproved(n.participants) == CountApproved(m.participants)
            && forall v :: IsApproved(n, v) <==> IsApproved(m, v)
  {
    var qs := Freeze(m.participants, rows);
    FreezeKeepsEntries(m.participants, rows);
    SameEntriesSameCounts(m.participants, qs);
    SameEntriesSound(m.participants, qs, m.category, m.entryFee);
    forall v ensures IsApproved(m.(participants := qs), v) <==> IsApproved(m, v) {
      assert IndexOf(qs, v) == IndexOf(m.participants, v);
    }
  }

  lemma RecalculateSound(money: Money, g: GameTables.Tables, id: MesaId, now: Time, next: Money)
    requires Sound(money) && next == RecalculateStep(money, g, id, now)
    ensures Sound(next)
  {
    if next != money {
      var m := money.mesas[id];
      assert MesaSound(m);
      FreezeSound(m, RowsOf(m, g, now));
      SameApprovals(money, id, m, Freeze(m.participants, RowsOf(m, g, now)), next);
    }
  }

  // ---------- who is ranked ----------

  ghost predicate HasApproved(ps: seq<Participant>, u: UserId) {
    exists k :: 0 <= k < |ps| && ps[k].userId == u && ps[k].status == Approved
  }

  lemma StillApproved(ps: seq<Participant>, n: nat, u: UserId)
    requires n <= |ps| && HasApproved(ps[..n], u)
    ensures HasApproved(ps, u)
  {
    var k :| 0 <= k < n && ps[..n][k].userId == u && ps[..n][k].status == Approved;
    assert ps[k] == ps[..n][k];
  }

  lemma {:induction false} EntrantsApproved(ps: seq<Participant>)
    requires OneRowEach(ps)
    ensures |Entrants(ps)| == CountApproved(ps)
    ensures forall i | 0 <= i < |Entrants(ps)| :: HasApproved(ps, Entrants(ps)[i].userId)
    ensures forall i, j | 0 <= i < j < |Entrants(ps)| :: Entrants(ps)[i].userId != Entrants(ps)[j].userId
  {
    if |ps| > 0 {
      var n := |ps| - 1;
      var before, all := Entrants(ps[..n]), Entrants(ps);
      EntrantsApproved(ps[..n]);
      forall i | 0 <= i < |all| ensures HasApproved(ps, all[i].userId) {
        if i < |before| {
          StillApproved(ps, n, before[i].userId);
        }
      }
      forall i | 0 <= i < |before| ensures before[i].userId != ps[n].userId {
        assert HasApproved(ps[..n], before[i].userId);
      }
    }
  }

  /** Ranked rows are of approved users, each once. */
  ghost predicate RankedUsers(m: Mesa, rows: seq<Ranked<WindowRow>>) {
    && (forall i | 0 <= i < |rows| :: IsApproved(m, rows[i].row.userId))
    && (forall i, j | 0 <= i < j < |rows| :: rows[i].row.userId != rows[j].row.userId)
  }

  lemma ApprovedByRow(m: Mesa, u: UserId)
    requires OneRowEach(m.participants) && HasApproved(m.participants, u)
    ensures IsApproved(m, u)
  {
    var ps := m.participants;
    var k :| 0 <= k < |ps| && ps[k].userId == u && ps[k].status == Approved;
    IndexOfRow(ps, k);
  }

  /** Ranking keeps the users of the rows: all of them, each once. */
  lemma RankKeepsUsers(raw: seq<WindowRow>)
    requires DistinctUsers(raw, RowMetrics)
    ensures forall i | 0 <= i < |raw| :: exists j :: 0 <= j < |raw| && raw[j] == RankRows(raw, RowMetrics)[i].row
    ensures forall i, j | 0 <= i < j < |raw| ::
              RankRows(raw, RowMetrics)[i].row.userId != RankRows(raw, RowMetrics)[j].row.userId
  {
    var sorted, rows := SortRows(raw, RowMetrics), RankRows(raw, RowMetrics);
    SortRowsSorts(raw, RowMetrics);
    DistinctUsersPermuted(raw, sorted, RowMetrics);
    forall i | 0 <= i < |raw| ensures exists j :: 0 <= j < |raw| && raw[j] == rows[i].row {
      assert rows[i].row == sorted[i] && sorted[i] in multiset(raw);
    }
    forall i, j | 0 <= i < j < |raw| ensures rows[i].row.userId != rows[j].row.userId {
      assert RowMetrics(sorted[i]).userId != RowMetrics(sorted[j]).userId;
    }
  }

  lemma RowApproved(m: Mesa, g: GameTables.Tables, now: Time, entrants: seq<Entrant>, raw: seq<WindowRow>,
                    row: WindowRow)
    requires OneRowEach(m.participants)
               && forall i | 0 <= i < |entrants| :: HasApproved(m.participants, entrants[i].userId)
    requires raw == WindowRows(g, Window(m.startDate, m.endDate), entrants, now)
    requires exists j :: 0 <= j < |raw| && raw[j] == row
    ensures IsApproved(m, row.userId)
  {
    var j :| 0 <= j < |raw| && raw[j] == row;
    ApprovedByRow(m, entrants[j].userId);
  }

  lemma RowsAreRanked(m: Mesa, g: GameTables.Tables, now: Time)
    requires OneRowEach(m.participants)
    ensures RankedUsers(m, RowsOf(m, g, now))
    ensures |RowsOf(m, g, now)| == CountApproved(m.participants)
    ensures Standings(PrizeRows(RowsOf(m, g, now), RowUser))
  {
    var entrants, rows := Entrants(m.participants), RowsOf(m, g, now);
    var raw := WindowRows(g, Window(m.startDate, m.endDate), entrants, now);
    EntrantsApproved(m.participants);
    RankKeepsUsers(raw);
    RankGivesStandings(raw, RowMetrics, RowUser);
    forall i | 0 <= i < |rows| ensures IsApproved(m, rows[i].row.userId) {
      RowApproved(m, g, now, entrants, raw, rows[i].row);
    }
  }

  // ---------- the payouts ----------

  /** Payouts are to distinct approved users, never negative. */
  ghost predicate PayoutsSound(m: Mesa, payouts: seq<Payout>) {
    && (forall i | 0 <= i < |payouts| :: IsApproved(m, payouts[i].userId) && payouts[i].amount >= 0)
    && (forall i, j | 0 <= i < j < |payouts| :: payouts[i].userId != payouts[j].userId)
  }

  lemma SharesNonNegative(pool: int, w: seq<real>, i: nat)
    requires pool > 0 && SumReal(w) > 0.0 && i < |w| && w[i] > 0.0
    ensures ExactShares(pool, w)[i] >= 0.0
  {
    assert pool as real * w[i] >= 0.0;
    DivideMonotone(pool as real * w[i], 0.0, SumReal(w));
  }

  lemma AmountsNonNegative(pool: int, items: seq<PrizeDistributionItem>, rows: seq<PrizeRow>, payouts: seq<Payout>)
    requires ValidDistribution(items) && IsPayout(pool, items, rows, payouts)
    ensures forall i | 0 <= i < |payouts| :: payouts[i].amount >= 0
  {
    var w := Weights(WeightedRows(items, rows));
    if pool > 0 && |w| > 0 {
      WeightsPositive(items, rows);
      forall i | 0 <= i < |payouts| ensures payouts[i].amount >= 0 {
        SharesNonNegative(pool, w, i);
        assert Amounts(payouts)[i] == payouts[i].amount;
      }
    }
  }

  /** The payout in a place goes to the row ranked there. */
  lemma PayoutUser(m: Mesa, rows: seq<Ranked<WindowRow>>, i: nat)
    requires ValidDistribution(m.prizeDistribution) && Standings(PrizeRows(rows, RowUser))
    requires i < |SettlementPayouts(m, rows)|
    ensures i < |rows| && SettlementPayouts(m, rows)[i].userId == rows[i].row.userId
  {
    hide Standings, ValidDistribution, RankedUsers, IsPayout, Payouts;
    var payouts := SettlementPayouts(m, rows);
    PayoutRow(ExpectedTotals(m).prizePool, m.prizeDistribution, PrizeRows(rows, RowUser), payouts, i);
  }

  lemma SettlementPayoutsSound(m: Mesa, rows: seq<Ranked<WindowRow>>)
    requires ValidDistribution(m.prizeDistribution) && RankedUsers(m, rows) && Standings(PrizeRows(rows, RowUser))
    ensures PayoutsSound(m, SettlementPayouts(m, rows))
  {
    hide IsPayout, Standings, ValidDistribution, IsApproved;
    var payouts := SettlementPayouts(m, rows);
    AmountsNonNegative(ExpectedTotals(m).prizePool, m.prizeDistribution, PrizeRows(rows, RowUser), payouts);
    forall i | 0 <= i < |payouts| ensures i < |rows| && payouts[i].userId == rows[i].row.userId {
      PayoutUser(m, rows, i);
    }
  }

  /** The payouts add up to the pool, as soon as anyone is ranked. */
  lemma PayoutsAddUp(m: Mesa, rows: seq<Ranked<WindowRow>>)
    requires ValidDistribution(m.prizeDistribution) && Standings(PrizeRows(rows, RowUser))
    requires ExpectedTotals(m).prizePool >= 0
    ensures SumInt(Amounts(SettlementPayouts(m, rows))) == if |rows| > 0 then ExpectedTotals(m).prizePool else 0
  {
    PaidFromTheTop(m.prizeDistribution, PrizeRows(rows, RowUser));
  }

  function WithheldPayouts(m: Mesa, subscriptions: map<UserId, Subscription>, payouts: seq<Payout>,
                           at: Time): seq<Payout> {
    if |payouts| == 0 then []
    else
      var last := payouts[|payouts| - 1];
      WithheldPayouts(m, subscriptions, payouts[..|payouts| - 1], at)
      + (if EligibleWinner(m, subscriptions, last.userId, at) then [] else [last])
  }

  lemma AmountsAppend(a: seq<Payout>, b: seq<Payout>)
    ensures SumInt(Amounts(a + b)) == SumInt(Amounts(a)) + SumInt(Amounts(b))
  {
    assert Amounts(a + b) == Amounts(a) + Amounts(b);
    SumIntAppend(Amounts(a), Amounts(b));
  }

  lemma OnePayout(p: Payout)
    ensures SumInt(Amounts([p])) == p.amount && SumInt(Amounts([])) == 0
  {
    assert Amounts([p])[..0] == [];
  }

  /** What is credited and what is withheld are together all that is paid out. */
  lemma {:induction false} EligiblePlusWithheld(m: Mesa, subscriptions: map<UserId, Subscription>,
                                                payouts: seq<Payout>, at: Time)
    ensures SumInt(Amounts(EligiblePayouts(m, subscriptions, payouts, at)))
              + SumInt(Amounts(WithheldPayouts(m, subscriptions, payouts, at)))
            == SumInt(Amounts(payouts))
  {
    if |payouts| > 0 {
      var n := |payouts| - 1;
      var before, last := payouts[..n], payouts[n];
      EligiblePlusWithheld(m, subscriptions, before, at);
      assert payouts == before + [last];
      AmountsAppend(before, [last]);
      OnePayout(last);
      var x := if EligibleWinner(m, subscriptions, last.userId, at) then [last] else [];
      var y := if EligibleWinner(m, subscriptions, last.userId, at) then [] else [last];
      AmountsAppend(EligiblePayouts(m, subscriptions, before, at), x);
      AmountsAppend(WithheldPayouts(m, subscriptions, before, at), y);
    }
  }

  lemma {:induction false} EligibleSublist(m: Mesa, subscriptions: map<UserId, Subscription>, payouts: seq<Payout>,
                                           at: Time)
    ensures forall p :: p in EligiblePayouts(m, subscriptions, payouts, at)
              <==> p in payouts && EligibleWinner(m, subscriptions, p.userId, at)
    ensures forall p :: p in WithheldPayouts(m, subscriptions, payouts, at)
              <==> p in payouts && !EligibleWinner(m, subscriptions, p.userId, at)
  {
    if |payouts| > 0 {
      var n := |payouts| - 1;
      EligibleSublist(m, subscriptions, payouts[..n], at);
      assert payouts == payouts[..n] + [payouts[n]];
    }
  }

  lemma {:induction false} EligibleSound(m: Mesa, subscriptions: map<UserId, Subscription>, payouts: seq<Payout>,
                                         at: Time)
    requires PayoutsSound(m, payouts)
    ensures PayoutsSound(m, EligiblePayouts(m, subscriptions, payouts, at))
  {
    hide PayoutsSound, EligibleWinner;
    if |payouts| == 0 {
      NoPayoutSound(m);
    } else {
      var n := |payouts| - 1;
      var before := EligiblePayouts(m, subscriptions, payouts[..n], at);
      LastPayoutSound(m, payouts);
      EligibleSound(m, subscriptions, payouts[..n], at);
      EligibleSublist(m, subscriptions, payouts[..n], at);
      forall i | 0 <= i < |before| ensures before[i].userId != payouts[n].userId {
        assert before[i] in payouts[..n];
      }
      OneMorePayoutSound(m, before, payouts[n]);
      assert before + [] == before;
    }
  }

  lemma NoPayoutSound(m: Mesa)
    ensures PayoutsSound(m, [])
  {
  }

  lemma LastPayoutSound(m: Mesa, payouts: seq<Payout>)
    requires |payouts| > 0 && PayoutsSound(m, payouts)
    ensures PayoutsSound(m, payouts[..|payouts| - 1]) && PayoutsSound(m, [payouts[|payouts| - 1]])
    ensures forall p | p in payouts[..|payouts| - 1] :: p.userId != payouts[|payouts| - 1].userId
  {
  }

  lemma OneMorePayoutSound(m: Mesa, before: seq<Payout>, p: Payout)
    requires PayoutsSound(m, before) && PayoutsSound(m, [p])
    requires forall i | 0 <= i < |before| :: before[i].userId != p.userId
    ensures PayoutsSound(m, before + [p])
  {
    assert [p][0] == p;
  }

  /** Everyone is eligible on a paid Mesa. */
  lemma {:induction false} PaidAllEligible(m: Mesa, subscriptions: map<UserId, Subscription>, payouts: seq<Payout>,
                                           at: Time)
    requires m.category == Paid
    ensures EligiblePayouts(m, subscriptions, payouts, at) == payouts
    ensures WithheldPayouts(m, subscriptions, payouts, at) == []
  {
    if |payouts| > 0 {
      PaidAllEligible(m, subscriptions, payouts[..|payouts| - 1], at);
    }
  }

  // ---------- paying them ----------

  function PrizeEntries(id: MesaId, payouts: seq<Payout>): (rows: seq<LedgerEntry>)
    ensures |rows| == |payouts|
    ensures forall k | 0 <= k < |payouts| ::
              rows[k] == LedgerEntry(payouts[k].userId, Credit, payouts[k].amount, Prize(id))
  {
    seq(|payouts|, k requires 0 <= k < |payouts| =>
      LedgerEntry(payouts[k].userId, Credit, payouts[k].amount, Prize(id)))
  }

  /** Nobody on the list holds a prize of this Mesa yet, and nobody is on it twice. */
  ghost predicate Unpaid(ledger: seq<LedgerEntry>, id: MesaId, payouts: seq<Payout>) {
    && (forall i | 0 <= i < |payouts| :: !KeyTaken(ledger, payouts[i].userId, Prize(id)))
    && (forall i, j | 0 <= i < j < |payouts| :: payouts[i].userId != payouts[j].userId)
  }

  /** The next credit has a free key. */
  lemma NextKeyFree(ledger: seq<LedgerEntry>, id: MesaId, payouts: seq<Payout>)
    requires |payouts| > 0 && Unpaid(ledger, id, payouts)
    ensures !KeyTaken(ledger + PrizeEntries(id, payouts[..|payouts| - 1]), payouts[|payouts| - 1].userId, Prize(id))
  {
    var n, u := |payouts| - 1, payouts[|payouts| - 1].userId;
    var rows := PrizeEntries(id, payouts[..n]);
    var all := ledger + rows;
    assert !KeyTaken(ledger, u, Prize(id));
    forall k | 0 <= k < |all| ensures all[k].userId != u || all[k].origin != Prize(id) {
      if k < |ledger| {
        assert all[k] == ledger[k];
      } else {
        assert all[k] == rows[k - |ledger|];
      }
    }
  }

  /** All credits commit exactly when every amount is positive, and then they are in the ledger. */
  lemma {:induction false} PayAllExactly(b: Bank, id: MesaId, payouts: seq<Payout>)
    requires BankSound(b) && Unpaid(b.ledger, id, payouts)
    ensures PayAll(b, id, payouts).Ok? <==> forall i | 0 <= i < |payouts| :: payouts[i].amount > 0
    ensures PayAll(b, id, payouts).Ok? ==>
              BankSound(PayAll(b, id, payouts).value)
              && PayAll(b, id, payouts).value.ledger == b.ledger + PrizeEntries(id, payouts)
  {
    if |payouts| > 0 {
      var n := |payouts| - 1;
      PayAllExactly(b, id, payouts[..n]);
      assert forall i | 0 <= i < n :: payouts[..n][i] == payouts[i];
      if PayAll(b, id, payouts[..n]).Ok? {
        NextCredit(b, PayAll(b, id, payouts[..n]).value, id, payouts);
      }
    } else {
      assert b.ledger + PrizeEntries(id, payouts) == b.ledger;
    }
  }

  /** A list of credits fails in one way only. */
  lemma {:induction false} PayAllRefused(b: Bank, id: MesaId, payouts: seq<Payout>)
    ensures PayAll(b, id, payouts).Err? ==> PayAll(b, id, payouts) == Err(LedgerRefused)
  {
    if |payouts| > 0 {
      PayAllRefused(b, id, payouts[..|payouts| - 1]);
    }
  }

  lemma NextCredit(b: Bank, paid: Bank, id: MesaId, payouts: seq<Payout>)
    requires |payouts| > 0 && Unpaid(b.ledger, id, payouts)
    requires BankSound(paid) && paid.ledger == b.ledger + PrizeEntries(id, payouts[..|payouts| - 1])
    ensures var last := payouts[|payouts| - 1];
            var next := CreditStep(paid, last.userId, last.amount, Prize(id));
            && (next.Ok? <==> last.amount > 0)
            && (next.Ok? ==> BankSound(next.value) && next.value.ledger == b.ledger + PrizeEntries(id, payouts))
  {
    var n, last := |payouts| - 1, payouts[|payouts| - 1];
    NextKeyFree(b.ledger, id, payouts);
    WalletStepsSound(paid, last.userId, last.amount, Prize(id));
    assert PrizeEntries(id, payouts) ==
             PrizeEntries(id, payouts[..n]) + [LedgerEntry(last.userId, Credit, last.amount, Prize(id))];
    assert b.ledger + PrizeEntries(id, payouts) ==
             b.ledger + PrizeEntries(id, payouts[..n]) + [LedgerEntry(last.userId, Credit, last.amount, Prize(id))];
  }

  lemma {:induction false} PrizesBooked(ledger: seq<LedgerEntry>, id: MesaId, payouts: seq<Payout>)
    ensures OriginNet(ledger + PrizeEntries(id, payouts), Prize(id)) ==
              OriginNet(ledger, Prize(id)) + SumInt(Amounts(payouts))
    ensures OriginNet(ledger + PrizeEntries(id, payouts), Entry(id)) == OriginNet(ledger, Entry(id))
  {
    if |payouts| == 0 {
      assert ledger + PrizeEntries(id, payouts) == ledger;
    } else {
      var n := |payouts| - 1;
      var e := PrizeEntries(id, payouts)[n];
      PrizesBooked(ledger, id, payouts[..n]);
      assert ledger + PrizeEntries(id, payouts) == ledger + PrizeEntries(id, payouts[..n]) + [e];
      OriginNetAppend(ledger + PrizeEntries(id, payouts[..n]), e, Prize(id));
      OriginNetAppend(ledger + PrizeEntries(id, payouts[..n]), e, Entry(id));
      assert Amounts(payouts)[..n] == Amounts(payouts[..n]);
    }
  }

  /** Prize rows take prize keys of the users on the list, and no other. */
  lemma PrizeKeys(ledger: seq<LedgerEntry>, id: MesaId, payouts: seq<Payout>, u: UserId)
    ensures KeyTaken(ledger + PrizeEntries(id, payouts), u, Entry(id)) <==> KeyTaken(ledger, u, Entry(id))
    ensures KeyTaken(ledger + PrizeEntries(id, payouts), u, Prize(id)) <==>
              KeyTaken(ledger, u, Prize(id)) || exists i :: 0 <= i < |payouts| && payouts[i].userId == u
  {
    var rows := PrizeEntries(id, payouts);
    var all := ledger + rows;
    assert forall k | 0 <= k < |ledger| :: all[k] == ledger[k];
    assert forall k | 0 <= k < |rows| :: all[|ledger| + k] == rows[k];
    if KeyTaken(all, u, Entry(id)) {
      var k :| 0 <= k < |all| && all[k].userId == u && all[k].origin == Entry(id);
      assert k < |ledger|;
    }
  }

  // ---------- closing ----------

  /** The winners a close of this Mesa would pay now. */
  ghost function Winners(money: Money, g: GameTables.Tables, id: MesaId, now: Time): seq<Payout>
    requires id in money.mesas && ValidDistribution(money.mesas[id].prizeDistribution)
  {
    var m, rows := money.mesas[id], RowsOf(money.mesas[id], g, now);
    EligiblePayouts(m, money.subscriptions, SettlementPayouts(m, rows), now)
  }

  lemma {:induction false} EligibleByCategory(m: Mesa, n: Mesa, subscriptions: map<UserId, Subscription>,
                                              payouts: seq<Payout>, at: Time)
    requires m.category == n.category
    ensures EligiblePayouts(m, subscriptions, payouts, at) == EligiblePayouts(n, subscriptions, payouts, at)
  {
    if |payouts| > 0 {
      EligibleByCategory(m, n, subscriptions, payouts[..|payouts| - 1], at);
    }
  }

  /** In a sound state an open Mesa that is due closes exactly when its winners can be paid. */
  lemma CloseUnfolds(money: Money, g: GameTables.Tables, id: MesaId, now: Time, force: bool)
    requires Sound(money) && id in money.mesas && money.mesas[id].status != Closed
    requires force || (money.mesas[id].endDate.Some? && money.mesas[id].endDate.value <= now)
    ensures ValidDistribution(money.mesas[id].prizeDistribution)
    ensures CloseErrorOf(money, id, now, force) == None
    ensures var m, rows := money.mesas[id], RowsOf(money.mesas[id], g, now);
            var frozen := m.(participants := Freeze(m.participants, rows));
            CloseStep(money, g, id, now, force) ==
            match PayAll(money.bank, id, Winners(money, g, id, now))
            case Err(w) => Err(PrizeRefused(w))
            case Ok(bank) => Ok(money.(bank := bank,
              mesas := money.mesas[id := Settled(frozen, now).(status := Closed)]))
  {
    var m, rows := money.mesas[id], RowsOf(money.mesas[id], g, now);
    var frozen := m.(participants := Freeze(m.participants, rows));
    assert MesaSound(m);
    SoundMesaIsReady(m);
    EligibleByCategory(m, frozen, money.subscriptions, SettlementPayouts(m, rows), now);
    assert SettlementPayouts(frozen, rows) == SettlementPayouts(m, rows) by {
      assert ExpectedTotals(frozen).prizePool == ExpectedTotals(m).prizePool;
    }
  }

  lemma WinnersSound(money: Money, g: GameTables.Tables, id: MesaId, now: Time)
    requires Sound(money) && id in money.mesas && money.mesas[id].status != Closed
    ensures ValidDistribution(money.mesas[id].prizeDistribution)
    ensures PayoutsSound(money.mesas[id], Winners(money, g, id, now))
    ensures Unpaid(money.bank.ledger, id, Winners(money, g, id, now))
  {
    var m, rows := money.mesas[id], RowsOf(money.mesas[id], g, now);
    assert MesaSound(m) && BooksSound(id, m, money.bank.ledger);
    RowsAreRanked(m, g, now);
    SettlementPayoutsSound(m, rows);
    EligibleSound(m, money.subscriptions, SettlementPayouts(m, rows), now);
  }

  /**
   An open Mesa that is due closes exactly when no eligible prize comes out at zero coins; else the
   ledger refuses it.
   */
  lemma CloseCommitsExactly(money: Money, g: GameTables.Tables, id: MesaId, now: Time, force: bool)
    requires Sound(money) && id in money.mesas && money.mesas[id].status != Closed
    requires force || (money.mesas[id].endDate.Some? && money.mesas[id].endDate.value <= now)
    ensures ValidDistribution(money.mesas[id].prizeDistribution)
    ensures CloseStep(money, g, id, now, force).Ok? <==>
              forall i | 0 <= i < |Winners(money, g, id, now)| :: Winners(money, g, id, now)[i].amount > 0
    ensures CloseStep(money, g, id, now, force).Err? ==>
              CloseStep(money, g, id, now, force) == Err(PrizeRefused(LedgerRefused))
  {
    CloseUnfolds(money, g, id, now, force);
    PayAllRefused(money.bank, id, Winners(money, g, id, now));
    WinnersSound(money, g, id, now);
    PayAllExactly(money.bank, id, Winners(money, g, id, now));
  }

  /** How a committed close changes the state. */
  lemma CloseEffect(money: Money, g: GameTables.Tables, id: MesaId, now: Time, force: bool, next: Money)
    requires Sound(money) && CloseStep(money, g, id, now, force) == Ok(next)
    ensures id in money.mesas && money.mesas[id].status != Closed
              && ValidDistribution(money.mesas[id].prizeDistribution)
    ensures PayAll(money.bank, id, Winners(money, g, id, now)) == Ok(next.bank)
    ensures var m := money.mesas[id];
            var frozen := m.(participants := Freeze(m.participants, RowsOf(m, g, now)));
            next == money.(bank := next.bank, mesas := money.mesas[id := Settled(frozen, now).(status := Closed)])
  {
    assert CloseErrorOf(money, id, now, force) == None;
    assert MesaSound(money.mesas[id]);
    CloseUnfolds(money, g, id, now, force);
  }

  lemma EligibleShare(m: Mesa, rows: seq<Ranked<WindowRow>>, subscriptions: map<UserId, Subscription>,
                      payouts: seq<Payout>, at: Time)
    requires TermsSound(m) && TotalsSound(m) && FormSound(m) && Standings(PrizeRows(rows, RowUser))
    requires payouts == SettlementPayouts(m, rows) && (|rows| == 0 ==> m.currentParticipants == 0)
               && m.currentParticipants >= 0
    ensures m.category == Paid ==> SumInt(Amounts(EligiblePayouts(m, subscriptions, payouts, at))) == m.prizePool
    ensures m.category == SponsoredFree ==>
              SumInt(Amounts(EligiblePayouts(m, subscriptions, payouts, at)))
                + SumInt(Amounts(WithheldPayouts(m, subscriptions, payouts, at)))
              == if |rows| > 0 then m.sponsorPrizePool else 0
  {
    assert m.category == Paid ==> m.grossCollected >= 0;
    PayoutsAddUp(m, rows);
    EligiblePlusWithheld(m, subscriptions, payouts, at);
    if m.category == Paid {
      PaidAllEligible(m, subscriptions, payouts, at);
    }
  }

  /** The winners together receive the pool of a paid Mesa; of a sponsored one, all but what is withheld. */
  lemma WinnersShare(money: Money, g: GameTables.Tables, id: MesaId, now: Time)
    requires Sound(money) && id in money.mesas && money.mesas[id].status != Closed
    ensures ValidDistribution(money.mesas[id].prizeDistribution)
    ensures var m, winners := money.mesas[id], Winners(money, g, id, now);
            var withheld := WithheldPayouts(m, money.subscriptions, SettlementPayouts(m, RowsOf(m, g, now)), now);
            && (m.category == Paid ==> SumInt(Amounts(winners)) == m.prizePool == m.grossCollected - m.platformFee)
            && (m.category == SponsoredFree ==>
                  SumInt(Amounts(winners)) + SumInt(Amounts(withheld)) == if m.currentParticipants > 0
                    then m.sponsorPrizePool else 0)
  {
    var m := money.mesas[id];
    assert MesaSound(m);
    RowsAreRanked(m, g, now);
    EligibleShare(m, RowsOf(m, g, now), money.subscriptions, SettlementPayouts(m, RowsOf(m, g, now)), now);
  }

  lemma {:induction false} SumNonNegative(payouts: seq<Payout>)
    requires forall i | 0 <= i < |payouts| :: payouts[i].amount >= 0
    ensures SumInt(Amounts(payouts)) >= 0
  {
    if |payouts| > 0 {
      SumNonNegative(payouts[..|payouts| - 1]);
      assert Amounts(payouts)[..|payouts| - 1] == Amounts(payouts[..|payouts| - 1]);
    }
  }

  /** A settled Mesa with frozen scores is a sound one. */
  lemma SettledSound(m: Mesa, rows: seq<Ranked<WindowRow>>, now: Time)
    requires MesaSound(m) && m.status != Closed
    ensures var n := Settled(m.(participants := Freeze(m.participants, rows)), now).(status := Closed);
            MesaSound(n) && forall v :: IsApproved(n, v) <==> IsApproved(m, v)
  {
    FreezeSound(m, rows);
    var frozen := m.(participants := Freeze(m.participants, rows));
    var n := Settled(frozen, now).(status := Closed);
    forall v ensures IsApproved(n, v) <==> IsApproved(m, v) {
      assert IsApproved(n, v) == IsApproved(frozen, v);
    }
  }

  /** The books of a Mesa once its winners are paid. */
  lemma SettledBooks(id: MesaId, m: Mesa, n: Mesa, ledger: seq<LedgerEntry>, winners: seq<Payout>)
    requires BooksSound(id, m, ledger) && m.settledAt.None? && n.settledAt.Some?
    requires n.category == m.category && n.grossCollected == m.grossCollected
    requires forall v :: IsApproved(n, v) <==> IsApproved(m, v)
    requires PayoutsSound(m, winners) && PrizesSound(n, SumInt(Amounts(winners)))
    ensures BooksSound(id, n, ledger + PrizeEntries(id, winners))
  {
    PrizesBooked(ledger, id, winners);
    forall v ensures
        && (KeyTaken(ledger + PrizeEntries(id, winners), v, Entry(id)) <==> n.category == Paid && IsApproved(n, v))
        && (KeyTaken(ledger + PrizeEntries(id, winners), v, Prize(id)) ==> IsApproved(n, v))
    {
      PrizeKeys(ledger, id, winners, v);
    }
  }

  lemma CloseSound(money: Money, g: GameTables.Tables, id: MesaId, now: Time, force: bool, next: Money)
    requires Sound(money) && CloseStep(money, g, id, now, force) == Ok(next)
    ensures Sound(next)
  {
    CloseEffect(money, g, id, now, force, next);
    var m, rows, winners := money.mesas[id], RowsOf(money.mesas[id], g, now), Winners(money, g, id, now);
    var n := Settled(m.(participants := Freeze(m.participants, rows)), now).(status := Closed);
    WinnersSound(money, g, id, now);
    PayAllExactly(money.bank, id, winners);
    PrizesWithinPool(money, g, id, now, n);
    SettledSound(m, rows, now);
    SettledBooks(id, m, n, money.bank.ledger, winners);
    MesaChanged(money, id, n, next.bank, PrizeEntries(id, winners), next);
  }

  lemma SharesNonNegativeSums(m: Mesa, subscriptions: map<UserId, Subscription>, payouts: seq<Payout>, at: Time)
    requires PayoutsSound(m, payouts)
    ensures SumInt(Amounts(EligiblePayouts(m, subscriptions, payouts, at))) >= 0
    ensures SumInt(Amounts(WithheldPayouts(m, subscriptions, payouts, at))) >= 0
  {
    var paid, withheld := EligiblePayouts(m, subscriptions, payouts, at),
      WithheldPayouts(m, subscriptions, payouts, at);
    EligibleSublist(m, subscriptions, payouts, at);
    assert forall i | 0 <= i < |paid| :: paid[i] in payouts;
    assert forall i | 0 <= i < |withheld| :: withheld[i] in payouts;
    SumNonNegative(paid);
    SumNonNegative(withheld);
  }

  lemma PrizesWithinPool(money: Money, g: GameTables.Tables, id: MesaId, now: Time, n: Mesa)
    requires Sound(money) && id in money.mesas && money.mesas[id].status != Closed
    requires n.settledAt.Some? && n.category == money.mesas[id].category
               && n.sponsorPrizePool == money.mesas[id].sponsorPrizePool
    requires n.category == Paid ==> n.prizePool == money.mesas[id].prizePool
    ensures ValidDistribution(money.mesas[id].prizeDistribution)
    ensures PrizesSound(n, SumInt(Amounts(Winners(money, g, id, now))))
  {
    var m := money.mesas[id];
    assert MesaSound(m);
    RowsAreRanked(m, g, now);
    SettlementPayoutsSound(m, RowsOf(m, g, now));
    WinnersShare(money, g, id, now);
    var payouts := SettlementPayouts(m, RowsOf(m, g, now));
    SharesNonNegativeSums(m, money.subscriptions, payouts, now);
  }

  // ---------- prizes of zero ----------

  lemma PaidWinners(money: Money, g: GameTables.Tables, id: MesaId, now: Time, m: Mesa, rows: seq<Ranked<WindowRow>>)
    requires Sound(money) && id in money.mesas && m == money.mesas[id] && m.category == Paid
               && rows == RowsOf(m, g, now)
    ensures ValidDistribution(m.prizeDistribution) && Winners(money, g, id, now) == SettlementPayouts(m, rows)
    ensures |rows| == m.currentParticipants && Standings(PrizeRows(rows, RowUser))
    ensures |rows| > 0 ==> m.prizePool == ExpectedTotals(m).prizePool > 0
  {
    assert MesaSound(m);
    RowsAreRanked(m, g, now);
    PaidAllEligible(m, money.subscriptions, SettlementPayouts(m, rows), now);
    if |rows| > 0 {
      PositivePool(m);
    }
  }

  lemma SoundCount(m: Mesa)
    requires TotalsSound(m) && m.category == Paid
    requires m.prizePool < m.currentParticipants && m.currentParticipants == CountApproved(m.participants)
    ensures m.currentParticipants > 0
  {
  }

  lemma SmallPoolZeroWinner(money: Money, g: GameTables.Tables, id: MesaId, now: Time)
    requires Sound(money) && id in money.mesas && money.mesas[id].status != Closed && money.mesas[id].category == Paid
    requires money.mesas[id].prizePool < money.mesas[id].currentParticipants
    requires money.mesas[id].prizePool < |money.mesas[id].prizeDistribution|
    ensures ValidDistribution(money.mesas[id].prizeDistribution)
    ensures exists i :: 0 <= i < |Winners(money, g, id, now)| && Winners(money, g, id, now)[i].amount <= 0
  {
    var m, rows := money.mesas[id], RowsOf(money.mesas[id], g, now);
    PaidWinners(money, g, id, now, m, rows);
    SoundCount(m);
    SmallPoolHasZero(m, rows, Winners(money, g, id, now));
  }

  lemma PositivePool(m: Mesa)
    requires TermsSound(m) && TotalsSound(m) && m.category == Paid && m.currentParticipants > 0
    ensures m.prizePool == ExpectedTotals(m).prizePool > 0
  {
    assert m.entryFee * m.currentParticipants > 0;
  }

  /**
   A paid Mesa whose pool has fewer coins than there are ranked rows with a band does not close:
   some prize is zero, and the ledger takes no row of zero.
   */
  lemma SmallPoolNeverCloses(money: Money, g: GameTables.Tables, id: MesaId, now: Time, force: bool)
    requires Sound(money) && id in money.mesas && money.mesas[id].status != Closed && money.mesas[id].category == Paid
    requires money.mesas[id].prizePool < money.mesas[id].currentParticipants
    requires money.mesas[id].prizePool < |money.mesas[id].prizeDistribution|
    ensures CloseStep(money, g, id, now, force).Err?
    ensures force || (money.mesas[id].endDate.Some? && money.mesas[id].endDate.value <= now) ==>
              CloseStep(money, g, id, now, force) == Err(PrizeRefused(LedgerRefused))
  {
    hide Sound, CloseStep, Winners, ValidDistribution;
    if force || (money.mesas[id].endDate.Some? && money.mesas[id].endDate.value <= now) {
      SmallPoolZeroWinner(money, g, id, now);
      CloseCommitsExactly(money, g, id, now, force);
    } else {
      NotDueRefused(money, g, id, now);
    }
  }

  lemma NotDueRefused(money: Money, g: GameTables.Tables, id: MesaId, now: Time)
    requires id in money.mesas && !(money.mesas[id].endDate.Some? && money.mesas[id].endDate.value <= now)
    ensures CloseStep(money, g, id, now, false).Err?
  {
    hide SettleStep;
  }

  lemma SmallPoolHasZero(m: Mesa, rows: seq<Ranked<WindowRow>>, payouts: seq<Payout>)
    requires ValidDistribution(m.prizeDistribution) && Standings(PrizeRows(rows, RowUser))
               && payouts == SettlementPayouts(m, rows)
    requires 0 < ExpectedTotals(m).prizePool < |rows| && ExpectedTotals(m).prizePool < |m.prizeDistribution|
    ensures exists i :: 0 <= i < |payouts| && payouts[i].amount <= 0
  {
    var pool, prizeRows := ExpectedTotals(m).prizePool, PrizeRows(rows, RowUser);
    var w := Weights(WeightedRows(m.prizeDistribution, prizeRows));
    PaidRowsAtLeast(m.prizeDistribution, prizeRows);
    SmallPoolLeavesZero(ExactShares(pool, w), pool, Amounts(payouts));
    var i :| 0 <= i < |w| && Amounts(payouts)[i] <= 0;
    assert payouts[i].amount <= 0;
  }

  // ---------- the frozen ranking ----------

  /** What a ranked row says is what its participant keeps. */
  ghost predicate Frozen(p: Participant, r: Ranked<WindowRow>) {
    && p.userId == r.row.userId && p.score == r.row.score && p.position == Some(r.position)
    && p.superDoubleHits == r.row.superDoubleHits && p.doubleHits == r.row.doubleHits
  }

  /** Freezing writes every ranked row to the participant of its user. */
  lemma {:induction false} FreezeWritesEachRow(ps: seq<Participant>, rows: seq<Ranked<WindowRow>>, k: nat)
    requires k < |rows| && IndexOf(ps, rows[k].row.userId).Some?
    requires forall i, j | 0 <= i < j < |rows| :: rows[i].row.userId != rows[j].row.userId
    ensures Frozen(Freeze(ps, rows)[IndexOf(ps, rows[k].row.userId).value], rows[k])
    decreases |rows|
  {
    var n := |rows| - 1;
    var before := Freeze(ps, rows[..n]);
    FreezeKeepsEntries(ps, rows[..n]);
    SameEntriesSameCounts(ps, before);
    if k < n {
      FreezeWritesEachRow(ps, rows[..n], k);
      assert IndexOf(before, rows[n].row.userId) != IndexOf(ps, rows[k].row.userId);
    }
  }

  /** After a committed close each approved participant holds the score, hits and position the ranking gave. */
  lemma CloseFreezesRanking(money: Money, g: GameTables.Tables, id: MesaId, now: Time, force: bool, next: Money, k: nat)
    requires Sound(money) && CloseStep(money, g, id, now, force) == Ok(next)
    requires id in money.mesas && k < |RowsOf(money.mesas[id], g, now)|
    ensures id in next.mesas
    ensures exists i :: 0 <= i < |next.mesas[id].participants|
              && Frozen(next.mesas[id].participants[i], RowsOf(money.mesas[id], g, now)[k])
  {
    var m, rows := money.mesas[id], RowsOf(money.mesas[id], g, now);
    CloseEffect(money, g, id, now, force, next);
    assert MesaSound(m);
    RowsAreRanked(m, g, now);
    assert IsApproved(m, rows[k].row.userId);
    FreezeWritesEachRow(m.participants, rows, k);
  }
}
