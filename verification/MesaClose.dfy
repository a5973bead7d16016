/**
 The end of a Mesa: closing (src/services/ranking/close-ranking.service.ts), settlement
 (src/services/bolao/settle-bolao.service.ts), the sweep over expired Mesas
 (src/services/ranking/close-expired-rankings.service.ts) and the recalculation before it
 (src/services/ranking/recalculate-ranking.service.ts).
 */
module MesaClose {
  import opened Common
  import opened BolaoPrize
  import opened PrizeFairness
  import opened RankingTiebreak
  import opened RankingWindowScore
  import opened TieGroups
  import opened MoneyTables
  import opened MesaIntegrity
  import opened MesaEntry
  import GameTables

  datatype CloseError = NotFound | AlreadyClosed | NotExpired | IntegrityBlocked | PrizeRefused(wallet: WalletFailure)

  // ---------- freezing the ranking ----------

  /** The approved participants, in creation order. */
  function Entrants(ps: seq<Participant>): seq<Entrant> {
    if |ps| == 0 then []
    else
      var last := ps[|ps| - 1];
      Entrants(ps[..|ps| - 1]) + (if last.status == Approved then [Entrant(last.userId, last.scoreInitial)] else [])
  }

  function RowsOf(m: Mesa, g: GameTables.Tables, now: Time): seq<Ranked<WindowRow>> {
    BuildRows(g, Window(m.startDate, m.endDate), Entrants(m.participants), now)
  }

  /** The score, position and hits of one ranked row, written to its participant. */
  function FreezeRow(ps: seq<Participant>, r: Ranked<WindowRow>): (frozen: seq<Participant>)
    ensures |frozen| == |ps|
  {
    var i := IndexOf(ps, r.row.userId);
    if i.None? then ps
    else ps[i.value := ps[i.value].(score := r.row.score, position := Some(r.position),
                                    superDoubleHits := r.row.superDoubleHits, doubleHits := r.row.doubleHits)]
  }

  function Freeze(ps: seq<Participant>, rows: seq<Ranked<WindowRow>>): (frozen: seq<Participant>)
    ensures |frozen| == |ps|
  {
    if |rows| == 0 then ps else FreezeRow(Freeze(ps, rows[..|rows| - 1]), rows[|rows| - 1])
  }

  /** Ranks the approved participants and writes each row to its participant. */
  method FreezeScores(m: Mesa, g: GameTables.Tables, now: Time) returns (frozen: Mesa, rows: seq<Ranked<WindowRow>>)
    ensures rows == RowsOf(m, g, now)
    ensures frozen == m.(participants := Freeze(m.participants, rows))
  {
    var entrants: seq<Entrant> := [];
    var ps := m.participants;
    for k := 0 to |ps|
      invariant entrants == Entrants(ps[..k])
    {
      assert ps[..k + 1][..k] == ps[..k];
      if ps[k].status == Approved {
        entrants := entrants + [Entrant(ps[k].userId, ps[k].scoreInitial)];
      }
    }
    assert ps[..|ps|] == ps;
    rows := Rank(WindowRows(g, Window(m.startDate, m.endDate), entrants, now), RowMetrics);
    for k := 0 to |rows|
      invariant ps == Freeze(m.participants, rows[..k])
    {
      assert rows[..k + 1][..k] == rows[..k];
      ps := FreezeRow(ps, rows[k]);
    }
    assert rows[..|rows|] == rows;
    frozen := m.(participants := ps);
  }

  // ---------- settlement ----------

  function RowUser(row: WindowRow): UserId { row.userId }

  /** What settlement splits among the ranked rows. */
  ghost function SettlementPayouts(m: Mesa, rows: seq<Ranked<WindowRow>>): seq<Payout>
    requires ValidDistribution(m.prizeDistribution)
  {
    Payouts(ExpectedTotals(m).prizePool, m.prizeDistribution, PrizeRows(rows, RowUser))
  }

  predicate EligibleWinner(m: Mesa, subscriptions: map<UserId, Subscription>, u: UserId, at: Time) {
    m.category == Paid || HasActivePro(subscriptions, u, at, true)
  }

  /** A sponsored Mesa pays only winners with an active PRO subscription. */
  function EligiblePayouts(m: Mesa, subscriptions: map<UserId, Subscription>, payouts: seq<Payout>,
                           at: Time): seq<Payout> {
    if |payouts| == 0 then []
    else
      var last := payouts[|payouts| - 1];
      EligiblePayouts(m, subscriptions, payouts[..|payouts| - 1], at)
      + (if EligibleWinner(m, subscriptions, last.userId, at) then [last] else [])
  }

  /** One credit after another; the first the ledger refuses stops them all. */
  function PayAll(b: Bank, id: MesaId, payouts: seq<Payout>): Result<Bank, WalletFailure> {
    if |payouts| == 0 then Ok(b)
    else
      match PayAll(b, id, payouts[..|payouts| - 1])
      case Err(e) => Err(e)
      case Ok(paid) => CreditStep(paid, payouts[|payouts| - 1].userId, payouts[|payouts| - 1].amount, Prize(id))
  }

  lemma {:induction false} PayAllStops(b: Bank, id: MesaId, payouts: seq<Payout>, k: nat)
    requires k <= |payouts| && PayAll(b, id, payouts[..k]).Err?
    ensures PayAll(b, id, payouts) == PayAll(b, id, payouts[..k])
    decreases |payouts|
  {
    if k == |payouts| {
      assert payouts[..k] == payouts;
    } else {
      assert payouts[..|payouts| - 1][..k] == payouts[..k];
      PayAllStops(b, id, payouts[..|payouts| - 1], k);
    }
  }

  method PayWinners(db: MoneyDb, id: MesaId, payouts: seq<Payout>) returns (r: Result<(), WalletFailure>)
    modifies db`wallets, db`ledger
    ensures match PayAll(old(db.Accounts()), id, payouts)
            case Ok(b) => r == Ok(()) && db.Accounts() == b
            case Err(e) => r == Err(e) && db.Accounts() == old(db.Accounts())
  {
    var wallets, ledger := db.wallets, db.ledger;
    for k := 0 to |payouts|
      invariant PayAll(old(db.Accounts()), id, payouts[..k]) == Ok(db.Accounts())
    {
      assert payouts[..k + 1][..k] == payouts[..k];
      var paid := CreditWithTx(db, payouts[k].userId, payouts[k].amount, Prize(id));
      if paid.Err? {
        PayAllStops(old(db.Accounts()), id, payouts, k + 1);
        db.wallets, db.ledger := wallets, ledger;
        return paid;
      }
    }
    assert payouts[..|payouts|] == payouts;
    r := Ok(());
  }

  function Settled(m: Mesa, at: Time): Mesa {
    var totals := ExpectedTotals(m);
    m.(platformFee := totals.platformFee, prizePool := totals.prizePool,
       rewardPool := Some(totals.prizePool), settledAt := Some(at))
  }

  /** Pays the eligible winners and stamps the Mesa; one that is settled is left alone. */
  ghost function SettleStep(b: Bank, subscriptions: map<UserId, Subscription>, id: MesaId, m: Mesa,
                            rows: seq<Ranked<WindowRow>>, at: Time): Result<(Bank, Mesa), WalletFailure>
    requires ValidDistribution(m.prizeDistribution)
  {
    if m.settledAt.Some? then Ok((b, m))
    else
      match PayAll(b, id, EligiblePayouts(m, subscriptions, SettlementPayouts(m, rows), at))
      case Err(e) => Err(e)
      case Ok(paid) => Ok((paid, Settled(m, at)))
  }

  method Settle(db: MoneyDb, id: MesaId, m: Mesa, rows: seq<Ranked<WindowRow>>, at: Time)
                returns (r: Result<Mesa, WalletFailure>)
    requires ValidDistribution(m.prizeDistribution)
    modifies db`wallets, db`ledger
    ensures match SettleStep(old(db.Accounts()), db.subscriptions, id, m, rows, at)
            case Ok(next) => r == Ok(next.1) && db.Accounts() == next.0
            case Err(e) => r == Err(e) && db.Accounts() == old(db.Accounts())
  {
    hide PayAll, IsPayout;
    if m.settledAt.Some? {
      return Ok(m);
    }
    var sponsored := m.category != Paid;
    var totals := if sponsored then PoolTotals(0, 0, m.sponsorPrizePool) else CalculatePool(m.grossCollected);
    var prizeRows := PrizeRows(rows, RowUser);
    var payouts := CalculatePayouts(totals.prizePool, m.prizeDistribution, prizeRows);
    SamePayout(totals.prizePool, m.prizeDistribution, prizeRows, payouts, SettlementPayouts(m, rows));
    var eligiblePayouts: seq<Payout> := [];
    for k := 0 to |payouts|
      invariant eligiblePayouts == EligiblePayouts(m, db.subscriptions, payouts[..k], at)
    {
      assert payouts[..k + 1][..k] == payouts[..k];
      if !sponsored || HasActivePro(db.subscriptions, payouts[k].userId, at, true) {
        eligiblePayouts := eligiblePayouts + [payouts[k]];
      }
    }
    assert payouts[..|payouts|] == payouts;
    var paid := PayWinners(db, id, eligiblePayouts);
    if paid.Err? {
      return Err(paid.error);
    }
    r := Ok(m.(platformFee := totals.platformFee, prizePool := totals.prizePool,
               rewardPool := Some(totals.prizePool), settledAt := Some(at)));
  }

  // ---------- close-ranking.service.ts ----------

  /** Why a Mesa may not close, in the order of the checks. */
  function CloseErrorOf(money: Money, id: MesaId, now: Time, force: bool): Option<CloseError> {
    if id !in money.mesas then Some(NotFound)
    else
      var m := money.mesas[id];
      if m.status == Closed then Some(AlreadyClosed)
      else if !force && (m.endDate.None? || m.endDate.value > now) then Some(NotExpired)
      else if m.settledAt.None? && !SettlementReady(m) then Some(IntegrityBlocked)
      else None
  }

  /** The gate, the frozen ranking, the settlement and the status, all or nothing. */
  ghost function CloseStep(money: Money, g: GameTables.Tables, id: MesaId, now: Time,
                           force: bool): Result<Money, CloseError> {
    var e := CloseErrorOf(money, id, now, force);
    if e.Some? then Err(e.value)
    else
      var m := money.mesas[id];
      var rows := RowsOf(m, g, now);
      var frozen := m.(participants := Freeze(m.participants, rows));
      if m.settledAt.Some? then Ok(money.(mesas := money.mesas[id := frozen.(status := Closed)]))
      else
        assert !Raised(m, InvalidPrizeDistribution);
        match SettleStep(money.bank, money.subscriptions, id, frozen, rows, now)
        case Err(w) => Err(PrizeRefused(w))
        case Ok(next) => Ok(money.(bank := next.0, mesas := money.mesas[id := next.1.(status := Closed)]))
  }

  method Close(db: MoneyDb, g: GameTables.Tables, id: MesaId, now: Time, force: bool)
               returns (r: Result<(), CloseError>)
    modifies db`wallets, db`ledger, db`mesas
    ensures match CloseStep(old(db.View()), g, id, now, force)
            case Ok(next) => r == Ok(()) && db.View() == next
            case Err(e) => r == Err(e) && db.View() == old(db.View())
  {
    hide SettleStep, RowsOf, Freeze;
    if id !in db.mesas {
      return Err(NotFound);
    }
    var m := db.mesas[id];
    if m.status == Closed {
      return Err(AlreadyClosed);
    }
    if !force && (m.endDate.None? || m.endDate.value > now) {
      return Err(NotExpired);
    }
    if m.settledAt.None? {
      var ready := AssertSettlementReady(m);
      if !ready {
        return Err(IntegrityBlocked);
      }
    }
    var frozen, rows := FreezeScores(m, g, now);
    if m.settledAt.None? {
      var settled := Settle(db, id, frozen, rows, now);
      if settled.Err? {
        return Err(PrizeRefused(settled.error));
      }
      frozen := settled.value;
    }
    db.mesas := db.mesas[id := frozen.(status := Closed)];
    r := Ok(());
  }

  // ---------- close-expired-rankings.service.ts ----------

  predicate Expired(m: Mesa, now: Time) {
    (m.status == Active || m.status == Draft) && m.endDate.Some? && m.endDate.value < now
  }

  /** Closes one Mesa after another, each in its own transaction; a failure is swallowed. */
  ghost function SweepStep(money: Money, g: GameTables.Tables, ids: seq<MesaId>, now: Time): (Money, nat) {
    if |ids| == 0 then (money, 0)
    else
      var before := SweepStep(money, g, ids[..|ids| - 1], now);
      match CloseStep(before.0, g, ids[|ids| - 1], now, false)
      case Ok(next) => (next, before.1 + 1)
      case Err(_) => before
  }

  lemma SweepGoesOn(money: Money, g: GameTables.Tables, ids: seq<MesaId>, k: nat, now: Time, before: (Money, nat))
    requires k < |ids| && before == SweepStep(money, g, ids[..k], now)
    ensures SweepStep(money, g, ids[..k + 1], now) ==
            match CloseStep(before.0, g, ids[k], now, false)
            case Ok(next) => (next, before.1 + 1)
            case Err(_) => before
  {
    hide CloseStep;
    assert ids[..k + 1][..k] == ids[..k];
  }

  /** `expired` is what the query for expired Mesas returned. */
  method Sweep(db: MoneyDb, g: GameTables.Tables, expired: seq<MesaId>, now: Time) returns (closed: nat)
    modifies db`wallets, db`ledger, db`mesas
    ensures (db.View(), closed) == SweepStep(old(db.View()), g, expired, now)
  {
    hide CloseStep;
    closed := 0;
    for k := 0 to |expired|
      invariant (db.View(), closed) == SweepStep(old(db.View()), g, expired[..k], now)
      invariant unchanged(db`invites, db`inviteUses, db`subscriptions, db`payments, db`events)
    {
      SweepGoesOn(old(db.View()), g, expired, k, now, (db.View(), closed));
      var r := Close(db, g, expired[k], now, false);
      if r.Ok? {
        closed := closed + 1;
      }
    }
    assert expired[..|expired|] == expired;
  }

  // ---------- recalculate-ranking.service.ts ----------

  /** Refreshes the scores of a Mesa that is open and not past its end. */
  function RecalculateStep(money: Money, g: GameTables.Tables, id: MesaId, now: Time): Money {
    if id !in money.mesas then money
    else
      var m := money.mesas[id];
      if !(m.status == Draft || (m.status == Active && m.startDate.Some?)) then money
      else if m.endDate.Some? && m.endDate.value <= now then money
      else money.(mesas := money.mesas[id := m.(participants := Freeze(m.participants, RowsOf(m, g, now)))])
  }

  method Recalculate(db: MoneyDb, g: GameTables.Tables, id: MesaId, now: Time)
    modifies db`mesas
    ensures db.View() == RecalculateStep(old(db.View()), g, id, now)
  {
    if id in db.mesas {
      var m := db.mesas[id];
      if m.status == Draft || (m.status == Active && m.startDate.Some?) {
        if m.endDate.Some? && m.endDate.value <= now {
          return;
        }
        var frozen, rows := FreezeScores(m, g, now);
        db.mesas := db.mesas[id := frozen];
      }
    }
  }
}
