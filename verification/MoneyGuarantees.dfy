/**
 What every run of the money services guarantees: coins are conserved, closed Mesas and applied
 payments are final, nobody is paid twice, the integrity gate never blocks, and the sweep closes
 every Mesa that can be closed.
 */
module MoneyGuarantees {
  import opened Common
  import opened BolaoPrize
  import opened MoneyTables
  import opened MesaIntegrity
  import opened MesaEntry
  import opened MesaClose
  import opened MesaInvariant
  import opened MesaSettlement
  import opened MoneyRuns
  import Payments
  import GameTables
  import RankingWindowScore

  // ---------- wallets, gate, prizes ----------

  /** In every reachable state a balance is not negative and is what the ledger says. */
  lemma WalletIsItsLedger(events: seq<Event>, u: UserId)
    ensures var b := Run(NO_MONEY, events).bank;
            u in b.wallets ==> b.wallets[u] >= 0 && b.wallets[u] == Net(b.ledger, u)
  {
    ReachableSound(events);
  }

  lemma SoundNeverBlocks(money: Money, id: MesaId, now: Time, force: bool)
    requires Sound(money)
    ensures id in money.mesas ==> forall i: Issue :: !Raised(money.mesas[id], i)
    ensures CloseErrorOf(money, id, now, force) != Some(IntegrityBlocked)
  {
    hide Sound, MesaSound, BooksSound, Raised;
    if id in money.mesas {
      MesaIsSound(money, id);
      SoundMesaIsReady(money.mesas[id]);
      ReadyIsNotBlocked(money, id, now, force);
    }
  }

  lemma ReadyIsNotBlocked(money: Money, id: MesaId, now: Time, force: bool)
    requires id in money.mesas && forall i: Issue :: !Raised(money.mesas[id], i)
    ensures CloseErrorOf(money, id, now, force) != Some(IntegrityBlocked)
  {
    hide Raised;
  }

  /** In every reachable state the integrity gate finds no issue in any Mesa, so it never blocks a close. */
  lemma GateNeverBlocks(events: seq<Event>, id: MesaId, now: Time, force: bool)
    ensures var money := Run(NO_MONEY, events);
            && (id in money.mesas ==> forall i: Issue :: !Raised(money.mesas[id], i))
            && CloseErrorOf(money, id, now, force) != Some(IntegrityBlocked)
  {
    var money := Run(NO_MONEY, events);
    ReachableSound(events);
    SoundNeverBlocks(money, id, now, force);
  }

  /** Over every run a user is paid at most one prize and charged at most one entry by a Mesa. */
  lemma PaidAtMostOnce(events: seq<Event>)
    ensures var ledger := Run(NO_MONEY, events).bank.ledger;
            forall i, j | 0 <= i < j < |ledger| && ledger[i].userId == ledger[j].userId
              && ledger[i].origin == ledger[j].origin ::
              !Keyed(ledger[i].origin)
  {
    ReachableSound(events);
  }

  // ---------- finality ----------

  ghost predicate SameIfClosed(money: Money, next: Money, id: MesaId) {
    id in money.mesas && money.mesas[id].status == Closed ==> id in next.mesas && next.mesas[id] == money.mesas[id]
  }

  lemma EntryKeepsClosed(money: Money, e: Entry, g: GameTables.Tables, now: Time, id: MesaId)
    ensures SameIfClosed(money, ApplyEntry(money, e, g, now), id)
  {
    match e
    case RequestEntry(_, _) =>
    case JoinMesa(_, _) =>
    case ReviewEntry(_, _, _, _) =>
    case UseCode(code, u) =>
      var r := UseInviteStep(money, g, code, u, now);
      if r.Ok? && r.value.1 == Joined {
        var joined := UseIsJoin(money, g, code, u, now, r.value.0);
        JoinKeepsClosed(money, g, money.invites[code].mesa, u, now, joined, id);
      }
  }

  lemma JoinKeepsClosed(money: Money, g: GameTables.Tables, at: MesaId, u: UserId, now: Time, joined: Money, id: MesaId)
    requires JoinStep(money, g, at, u, now) == Ok(joined)
    ensures SameIfClosed(money, joined, id)
  {
  }

  lemma CreateKeepsClosed(money: Money, g: GameTables.Tables, at: MesaId, p: Proposal, creator: UserId, now: Time,
                          next: Money, id: MesaId)
    requires at !in money.mesas && CreateStep(money, g, at, p, creator, now) == Ok(next)
    ensures SameIfClosed(money, next, id)
  {
    var terms := CreatedTerms(money, g, at, p, creator, now, next);
  }

  lemma CloseKeepsClosed(money: Money, g: GameTables.Tables, at: MesaId, now: Time, force: bool, next: Money,
                         id: MesaId)
    requires CloseStep(money, g, at, now, force) == Ok(next)
    ensures SameIfClosed(money, next, id)
  {
  }

  lemma RecalculateKeepsClosed(money: Money, g: GameTables.Tables, at: MesaId, now: Time, id: MesaId)
    ensures SameIfClosed(money, RecalculateStep(money, g, at, now), id)
  {
  }

  lemma DeskKeepsClosed(money: Money, d: Desk, g: GameTables.Tables, now: Time, id: MesaId)
    ensures SameIfClosed(money, ApplyDesk(money, d, g, now), id)
  {
    hide CreateStep, CloseStep, RecalculateStep;
    var next := ApplyDesk(money, d, g, now);
    match d
    case CreateMesa(at, p, creator) => if next != money { CreateKeepsClosed(money, g, at, p, creator, now, next, id); }
    case InviteTo(_, _, _, _, _) =>
    case CloseMesa(at, force) => if next != money { CloseKeepsClosed(money, g, at, now, force, next, id); }
    case RecalculateMesa(at) => RecalculateKeepsClosed(money, g, at, now, id);
  }

  lemma TransferKeepsClosed(money: Money, t: Transfer, now: Time, id: MesaId)
    ensures SameIfClosed(money, ApplyTransfer(money, t, now), id)
  {
  }

  lemma ApplyKeepsClosed(money: Money, e: Event, id: MesaId)
    ensures SameIfClosed(money, Apply(money, e), id)
  {
    match e.action
    case Enter(entry) => EntryKeepsClosed(money, entry, e.game, e.now, id);
    case Manage(desk) => DeskKeepsClosed(money, desk, e.game, e.now, id);
    case Move(transfer) => TransferKeepsClosed(money, transfer, e.now, id);
  }

  /** CLOSED is final: whatever runs afterwards, status, totals, scores and positions stay as they were. */
  lemma {:induction false} ClosedIsFinal(money: Money, events: seq<Event>, id: MesaId)
    requires id in money.mesas && money.mesas[id].status == Closed
    ensures id in Run(money, events).mesas && Run(money, events).mesas[id] == money.mesas[id]
  {
    if |events| > 0 {
      ClosedIsFinal(money, events[..|events| - 1], id);
      ApplyKeepsClosed(Run(money, events[..|events| - 1]), events[|events| - 1], id);
    }
  }

  ghost predicate SameIfProcessed(money: Money, next: Money, id: PaymentId) {
    id in money.payments && money.payments[id].processedAt.Some? ==>
      id in next.payments && next.payments[id] == money.payments[id]
  }

  lemma EntryKeepsPayments(money: Money, e: Entry, g: GameTables.Tables, now: Time)
    ensures ApplyEntry(money, e, g, now).payments == money.payments
  {
    match e
    case RequestEntry(_, _) =>
    case JoinMesa(_, _) =>
    case ReviewEntry(_, _, _, _) =>
    case UseCode(code, u) =>
      var r := UseInviteStep(money, g, code, u, now);
      if r.Ok? && r.value.1 == Joined {
        var joined := UseIsJoin(money, g, code, u, now, r.value.0);
      }
  }

  lemma TransferKeepsProcessed(money: Money, t: Transfer, now: Time, id: PaymentId)
    ensures SameIfProcessed(money, ApplyTransfer(money, t, now), id)
  {
    match t
    case Adjust(_, _, _) =>
    case Buy(_, _) =>
    case Checkout(_, _) =>
    case Notify(w) =>
      if Payments.WebhookStep(money, w, now).Ok? {
        var changed := WebhookCases(money, w, now, Payments.WebhookStep(money, w, now).value);
      }
    case SyncSubscription(_, _) =>
  }

  lemma CreateKeepsPayments(money: Money, g: GameTables.Tables, id: MesaId, p: Proposal, creator: UserId, now: Time)
    requires id !in money.mesas
    ensures Committed(money, CreateStep(money, g, id, p, creator, now)).payments == money.payments
  {
  }

  lemma CloseKeepsPayments(money: Money, g: GameTables.Tables, id: MesaId, now: Time, force: bool)
    ensures Committed(money, CloseStep(money, g, id, now, force)).payments == money.payments
  {
  }

  lemma DeskKeepsPayments(money: Money, d: Desk, g: GameTables.Tables, now: Time)
    ensures ApplyDesk(money, d, g, now).payments == money.payments
  {
    match d
    case CreateMesa(id, p, creator) =>
      if id !in money.mesas {
        CreateKeepsPayments(money, g, id, p, creator, now);
      }
    case InviteTo(_, _, _, _, _) =>
    case CloseMesa(id, force) => CloseKeepsPayments(money, g, id, now, force);
    case RecalculateMesa(_) =>
  }

  lemma ApplyKeepsProcessed(money: Money, e: Event, id: PaymentId)
    ensures SameIfProcessed(money, Apply(money, e), id)
  {
    match e.action
    case Enter(entry) => EntryKeepsPayments(money, entry, e.game, e.now);
    case Manage(desk) => DeskKeepsPayments(money, desk, e.game, e.now);
    case Move(transfer) => TransferKeepsProcessed(money, transfer, e.now, id);
  }

  /** APPROVED is final: a payment once applied is never touched again, whatever events follow. */
  lemma {:induction false} AppliedIsFinal(money: Money, events: seq<Event>, id: PaymentId)
    requires id in money.payments && money.payments[id].processedAt.Some?
    ensures id in Run(money, events).payments && Run(money, events).payments[id] == money.payments[id]
  {
    if |events| > 0 {
      AppliedIsFinal(money, events[..|events| - 1], id);
      ApplyKeepsProcessed(Run(money, events[..|events| - 1]), events[|events| - 1], id);
    }
  }

  /**
   In every reachable state a payment is approved exactly when applied, and credited exactly when it
   is applied and buys coins; then the ledger holds all of its coins in one row, and nothing before.
   */
  lemma CreditedAtMostOnce(events: seq<Event>, id: PaymentId)
    ensures var money := Run(NO_MONEY, events);
            id in money.payments ==>
              && (money.payments[id].status == PayApproved <==> money.payments[id].processedAt.Some?)
              && (money.payments[id].isCredited
                <==> money.payments[id].processedAt.Some? && money.payments[id].purpose == WalletCredit)
              && OriginRows(money.bank.ledger, PaymentCredit(id)) == (if money.payments[id].isCredited then 1 else 0)
              && OriginNet(money.bank.ledger, PaymentCredit(id)) ==
                 (if money.payments[id].isCredited
                   then money.payments[id].coinsAmount + money.payments[id].bonusCoins else 0)
  {
    ReachableSound(events);
    var money := Run(NO_MONEY, events);
    assert id in money.payments ==> PaymentSound(id, money.payments[id], money.bank.ledger);
  }

  // ---------- conservation ----------

  /** Coins that came in or went out other than through Mesas. */
  function ExternalNet(ledger: seq<LedgerEntry>): int {
    if |ledger| == 0 then 0
    else
      var last := ledger[|ledger| - 1];
      ExternalNet(ledger[..|ledger| - 1]) + (if Keyed(last.origin) then 0 else Signed(last))
  }

  /** What a Mesa holds: all it collected until it settles, its fee afterwards; a sponsored one lends its prizes. */
  function Holds(id: MesaId, m: Mesa, ledger: seq<LedgerEntry>): int {
    if m.category != Paid then -OriginNet(ledger, Prize(id))
    else if m.settledAt.Some? then m.platformFee
    else m.grossCollected
  }

  ghost function Holdings(mesas: map<MesaId, Mesa>, ledger: seq<LedgerEntry>): map<MesaId, int> {
    map id | id in mesas :: Holds(id, mesas[id], ledger)
  }

  /** What the rows of each Mesa add up to, taken out of the wallets. */
  ghost function Taken(ids: set<MesaId>, ledger: seq<LedgerEntry>): map<MesaId, int> {
    map id | id in ids :: -OriginNet(ledger, Entry(id)) - OriginNet(ledger, Prize(id))
  }

  lemma TakenAppend(ids: set<MesaId>, ledger: seq<LedgerEntry>, e: LedgerEntry)
    requires Keyed(e.origin) ==> e.origin.mesa in ids
    ensures SumMap(Taken(ids, ledger + [e])) == SumMap(Taken(ids, ledger)) - (if Keyed(e.origin) then Signed(e) else 0)
  {
    var before, after := Taken(ids, ledger), Taken(ids, ledger + [e]);
    forall id | id in ids ensures after[id] ==
      before[id] - (if Keyed(e.origin) && e.origin.mesa == id then Signed(e) else 0) {
      TakenAt(ids, ledger, e, id);
    }
    if Keyed(e.origin) {
      OneEntryLess(before, after, e.origin.mesa, Signed(e));
    } else {
      assert after == before;
    }
  }

  lemma TakenAt(ids: set<MesaId>, ledger: seq<LedgerEntry>, e: LedgerEntry, id: MesaId)
    requires id in ids
    ensures Taken(ids, ledger + [e])[id] ==
              Taken(ids, ledger)[id] - (if Keyed(e.origin) && e.origin.mesa == id then Signed(e) else 0)
  {
    OriginNetAppend(ledger, e, Entry(id));
    OriginNetAppend(ledger, e, Prize(id));
  }

  lemma OneEntryLess(before: map<MesaId, int>, after: map<MesaId, int>, id: MesaId, amount: int)
    requires before.Keys == after.Keys && id in before
    requires forall j | j in before :: after[j] == before[j] - (if j == id then amount else 0)
    ensures SumMap(after) == SumMap(before) - amount
  {
    hide SumMap;
    SumMapUpdate(before, id, before[id] - amount);
    assert after == before[id := before[id] - amount];
  }

  lemma {:induction false} NothingTaken(ids: set<MesaId>)
    ensures SumMap(Taken(ids, [])) == 0
    decreases |ids|
  {
    if ids != {} {
      var id :| id in ids;
      NothingTaken(ids - {id});
      SumMapRemove(Taken(ids, []), id);
      assert Taken(ids, []) - {id} == Taken(ids - {id}, []);
    } else {
      assert Taken(ids, []) == map[];
    }
  }

  lemma {:induction false} NetSplits(ids: set<MesaId>, ledger: seq<LedgerEntry>)
    requires forall k | 0 <= k < |ledger| && Keyed(ledger[k].origin) :: ledger[k].origin.mesa in ids
    ensures NetAll(ledger) + SumMap(Taken(ids, ledger)) == ExternalNet(ledger)
  {
    if |ledger| == 0 {
      NothingTaken(ids);
    } else {
      var n := |ledger| - 1;
      NetSplits(ids, ledger[..n]);
      TakenAppend(ids, ledger[..n], ledger[n]);
      assert ledger == ledger[..n] + [ledger[n]];
    }
  }

  lemma HoldsWhatWasTaken(id: MesaId, m: Mesa, ledger: seq<LedgerEntry>)
    requires MesaSound(m) && BooksSound(id, m, ledger)
    ensures Holds(id, m, ledger) == -OriginNet(ledger, Entry(id)) - OriginNet(ledger, Prize(id))
  {
  }

  lemma HoldingsAreTaken(mesas: map<MesaId, Mesa>, ledger: seq<LedgerEntry>)
    requires MesasSound(mesas, ledger)
    ensures Holdings(mesas, ledger) == Taken(mesas.Keys, ledger)
  {
    forall id | id in mesas ensures Holdings(mesas, ledger)[id] == Taken(mesas.Keys, ledger)[id] {
      HoldsWhatWasTaken(id, mesas[id], ledger);
    }
  }

  /** Over every run: all wallets and all that the Mesas hold together equal what came in from outside. */
  lemma CoinsAreConserved(events: seq<Event>)
    ensures var money := Run(NO_MONEY, events);
            SumMap(money.bank.wallets) + SumMap(Holdings(money.mesas, money.bank.ledger)) ==
              ExternalNet(money.bank.ledger)
  {
    var money := Run(NO_MONEY, events);
    ReachableSound(events);
    HoldingsAreTaken(money.mesas, money.bank.ledger);
    NetSplits(money.mesas.Keys, money.bank.ledger);
  }

  // ---------- one Mesa from its first entry to its close ----------

  /** An entry to this Mesa. */
  predicate Enters(money: Money, e: Entry, id: MesaId) {
    match e
    case RequestEntry(at, _) => at == id
    case JoinMesa(at, _) => at == id
    case ReviewEntry(at, _, _, _) => at == id
    case UseCode(code, _) => code in money.invites ==> money.invites[code].mesa == id
  }

  /** The wallets and what the Mesa collected, together. */
  ghost function Together(money: Money, id: MesaId): int
    requires id in money.mesas
  {
    SumMap(money.bank.wallets) + money.mesas[id].grossCollected
  }

  /** An entry moves the fee from a wallet to the Mesa, or moves nothing. */
  ghost predicate Balanced(money: Money, next: Money, id: MesaId) {
    && id in money.mesas && id in next.mesas && Together(next, id) == Together(money, id)
    && next.mesas[id].category == money.mesas[id].category
    && (forall c | c in money.invites :: c in next.invites && next.invites[c].mesa == money.invites[c].mesa)
    && next.invites.Keys == money.invites.Keys
  }

  lemma AdmittedTakesFee(m: Mesa, u: UserId, scoreInitial: int, now: Time)
    ensures Admitted(m, u, scoreInitial, now).category == m.category
    ensures Admitted(m, u, scoreInitial, now).grossCollected ==
              m.grossCollected + (if m.category == Paid then Cost(m) else 0)
  {
  }

  lemma DebitLowersSum(b: Bank, u: UserId, amount: int, origin: Origin, next: Bank)
    requires DebitStep(b, u, amount, origin) == Ok(next)
    ensures SumMap(next.wallets) == SumMap(b.wallets) - amount
  {
    SumMapUpdate(b.wallets, u, b.wallets[u] - amount);
  }

  lemma AdmitBalanced(money: Money, g: GameTables.Tables, id: MesaId, u: UserId, now: Time, next: Money)
    requires id in money.mesas && AdmitStep(money, g, id, u, now) == Ok(next)
    ensures Balanced(money, next, id)
  {
    var m := money.mesas[id];
    var n := AdmitWrites(money, g, id, u, now, next);
    AdmittedTakesFee(m, u, RankingWindowScore.ScoreTotalBefore(g, u, BaselineAt(m, now)), now);
    if m.category == Paid {
      DebitLowersSum(money.bank, u, Cost(m), Entry(id), next.bank);
    }
  }

  lemma JoinBalanced(money: Money, g: GameTables.Tables, id: MesaId, u: UserId, now: Time, next: Money)
    requires JoinStep(money, g, id, u, now) == Ok(next)
    ensures Balanced(money, next, id)
  {
    JoinAccepted(money, g, id, u, now, next);
    AdmitBalanced(money, g, id, u, now, next);
  }

  lemma ReviewBalanced(money: Money, g: GameTables.Tables, id: MesaId, u: UserId, reviewer: UserId, approve: bool,
                       now: Time, next: Money)
    requires ReviewStep(money, g, id, u, reviewer, approve, now) == Ok(next)
    ensures Balanced(money, next, id)
  {
    if approve {
      AdmitBalanced(money, g, id, u, now, next);
    }
  }

  lemma UseBalanced(money: Money, g: GameTables.Tables, id: MesaId, code: InviteCode, u: UserId, now: Time,
                    next: Money, r: InviteResult)
    requires id in money.mesas && UseInviteStep(money, g, code, u, now) == Ok((next, r))
    requires code in money.invites ==> money.invites[code].mesa == id
    ensures Balanced(money, next, id)
  {
    if r == Joined {
      var joined := UseIsJoin(money, g, code, u, now, next);
      JoinBalanced(money, g, id, u, now, joined);
    } else {
      ReuseChangesNothing(money, g, code, u, now, next);
    }
  }

  lemma EntryBalanced(money: Money, e: Entry, g: GameTables.Tables, now: Time, id: MesaId, next: Money)
    requires id in money.mesas && Enters(money, e, id) && next == ApplyEntry(money, e, g, now)
    ensures Balanced(money, next, id)
  {
    if next != money {
      match e
      case RequestEntry(_, u) =>
      case JoinMesa(_, u) => JoinBalanced(money, g, id, u, now, next);
      case ReviewEntry(_, u, reviewer, approve) => ReviewBalanced(money, g, id, u, reviewer, approve, now, next);
      case UseCode(code, u) => UseBalanced(money, g, id, code, u, now, next,
        UseInviteStep(money, g, code, u, now).value.1);
    }
  }

  ghost predicate AllEnter(money: Money, events: seq<Event>, id: MesaId) {
    forall k | 0 <= k < |events| :: events[k].action.Enter? && Enters(money, events[k].action.entry, id)
  }

  /** Any number of joins, approvals and invite entries leaves wallets and collection together the same. */
  lemma {:induction false} EntriesBalanced(money: Money, events: seq<Event>, id: MesaId)
    requires id in money.mesas && AllEnter(money, events, id)
    ensures Balanced(money, Run(money, events), id)
  {
    if |events| > 0 {
      var n := |events| - 1;
      var before, e := Run(money, events[..n]), events[n];
      EntriesBalanced(money, events[..n], id);
      EntryBalanced(before, e.action.entry, e.game, e.now, id, Run(money, events));
    }
  }

  /** Closing pays the prize pool, so wallets and the platform fee together are what wallets and collection were. */
  lemma CloseBalanced(money: Money, g: GameTables.Tables, id: MesaId, now: Time, force: bool, next: Money)
    requires Sound(money) && CloseStep(money, g, id, now, force) == Ok(next)
    requires id in money.mesas && money.mesas[id].category == Paid
    ensures id in next.mesas && SumMap(next.bank.wallets) + next.mesas[id].platformFee == Together(money, id)
    ensures OriginNet(next.bank.ledger, Prize(id)) == next.mesas[id].grossCollected - next.mesas[id].platformFee
  {
    CloseEffect(money, g, id, now, force, next);
    CloseSound(money, g, id, now, force, next);
    WinnersSound(money, g, id, now);
    WinnersShare(money, g, id, now);
    PayAllExactly(money.bank, id, Winners(money, g, id, now));
    PrizeEntriesNet(money.bank.ledger, id, Winners(money, g, id, now));
    assert BooksSound(id, next.mesas[id], next.bank.ledger) && MesaSound(next.mesas[id]) && MesaSound(money.mesas[id]);
  }

  /** Closing a sponsored Mesa with participants credits or withholds exactly the sponsor's pool. */
  lemma SponsoredCloseSplits(money: Money, g: GameTables.Tables, id: MesaId, now: Time, force: bool, next: Money)
    requires Sound(money) && CloseStep(money, g, id, now, force) == Ok(next)
    requires id in money.mesas && money.mesas[id].category == SponsoredFree && money.mesas[id].currentParticipants > 0
    ensures ValidDistribution(money.mesas[id].prizeDistribution)
    ensures var m := money.mesas[id];
            var withheld := WithheldPayouts(m, money.subscriptions, SettlementPayouts(m, RowsOf(m, g, now)), now);
            && OriginNet(next.bank.ledger, Prize(id)) + SumInt(Amounts(withheld)) == m.sponsorPrizePool
            && forall p | p in withheld :: !HasActivePro(money.subscriptions, p.userId, now, true)
  {
    var m, winners := money.mesas[id], Winners(money, g, id, now);
    CloseEffect(money, g, id, now, force, next);
    WinnersSound(money, g, id, now);
    WinnersShare(money, g, id, now);
    PayAllExactly(money.bank, id, winners);
    PrizesBooked(money.bank.ledger, id, winners);
    EligibleSublist(m, money.subscriptions, SettlementPayouts(m, RowsOf(m, g, now)), now);
    assert BooksSound(id, m, money.bank.ledger) && MesaSound(m);
  }

  lemma {:induction false} PrizeEntriesNet(ledger: seq<LedgerEntry>, id: MesaId, payouts: seq<Payout>)
    ensures NetAll(ledger + PrizeEntries(id, payouts)) == NetAll(ledger) + SumInt(Amounts(payouts))
  {
    var rows := PrizeEntries(id, payouts);
    if |payouts| == 0 {
      assert ledger + rows == ledger;
    } else {
      var n := |payouts| - 1;
      PrizeEntriesNet(ledger, id, payouts[..n]);
      assert ledger + rows == (ledger + PrizeEntries(id, payouts[..n])) + [rows[n]];
      NetAppend(ledger + PrizeEntries(id, payouts[..n]), rows[n], payouts[n].userId);
      assert Amounts(payouts)[..n] == Amounts(payouts[..n]);
    }
  }

  /**
   A paid Mesa from empty to closed: after any joins, approvals and invite entries and a committed
   close, all balances and the platform fee together are what all balances were before, and the
   prizes are what was collected less the fee.
   */
  lemma PaidMesaConserves(money: Money, events: seq<Event>, id: MesaId, g: GameTables.Tables, now: Time, force: bool,
                          closed: Money)
    requires AllSound(money) && id in money.mesas && money.mesas[id].category == Paid
               && money.mesas[id].grossCollected == 0
    requires AllEnter(money, events, id) && CloseStep(Run(money, events), g, id, now, force) == Ok(closed)
    ensures id in closed.mesas && SumMap(closed.bank.wallets) + closed.mesas[id].platformFee ==
              SumMap(money.bank.wallets)
    ensures OriginNet(closed.bank.ledger, Prize(id)) == closed.mesas[id].grossCollected - closed.mesas[id].platformFee
  {
    hide Sound, PaymentsSound, CloseStep;
    EntriesBalanced(money, events, id);
    RunKeeps(money, events);
    CloseBalanced(Run(money, events), g, id, now, force, closed);
  }

  // ---------- the sweep ----------

  ghost predicate Distinct(ids: seq<MesaId>) {
    forall i, j | 0 <= i < j < |ids| :: ids[i] != ids[j]
  }

  /** What a sweep of some Mesas means for one: swept, it is closed if it can be; otherwise it is as it was. */
  ghost predicate SweptAt(money: Money, g: GameTables.Tables, ids: seq<MesaId>, now: Time, mesas: map<MesaId, Mesa>,
                          id: MesaId)
    requires id in money.mesas && id in mesas
  {
    if id in ids then mesas[id].status == Closed <==> CloseStep(money, g, id, now, false).Ok?
    else mesas[id] == money.mesas[id]
  }

  ghost predicate Swept(money: Money, g: GameTables.Tables, ids: seq<MesaId>, now: Time, mesas: map<MesaId, Mesa>) {
    mesas.Keys == money.mesas.Keys && forall id | id in money.mesas :: SweptAt(money, g, ids, now, mesas, id)
  }

  /** Closing one Mesa depends on nothing another close changes. */
  lemma CloseIndependent(money: Money, swept: Money, g: GameTables.Tables, id: MesaId, now: Time)
    requires Sound(money) && Sound(swept) && id in money.mesas && id in swept.mesas
    requires swept.mesas[id] == money.mesas[id] && swept.subscriptions == money.subscriptions
    requires money.mesas[id].status != Closed && money.mesas[id].endDate.Some? && money.mesas[id].endDate.value <= now
    ensures CloseStep(swept, g, id, now, false).Ok? <==> CloseStep(money, g, id, now, false).Ok?
  {
    CloseCommitsExactly(money, g, id, now, false);
    CloseCommitsExactly(swept, g, id, now, false);
    assert Winners(swept, g, id, now) == Winners(money, g, id, now);
  }

  /** The effect of a close, for the other Mesas and for its own. */
  lemma CloseChangesOne(money: Money, g: GameTables.Tables, id: MesaId, now: Time, r: Result<Money, CloseError>,
                        next: Money)
    requires Sound(money) && id in money.mesas && r == CloseStep(money, g, id, now, false)
               && next == Committed(money, r)
    ensures next.subscriptions == money.subscriptions && next.mesas.Keys == money.mesas.Keys
    ensures forall j | j in money.mesas && j != id :: next.mesas[j] == money.mesas[j]
    ensures r.Ok? ==> next.mesas[id].status == Closed
    ensures r.Err? ==> next.mesas[id] == money.mesas[id]
  {
    if r.Ok? {
      CloseWrites(money, g, id, now, next);
      OneMesaWritten(money, id, next);
    }
  }

  lemma OneMesaWritten(money: Money, id: MesaId, next: Money)
    requires id in money.mesas && id in next.mesas
    requires next == money.(bank := next.bank, mesas := money.mesas[id := next.mesas[id]])
    ensures next.subscriptions == money.subscriptions && next.mesas.Keys == money.mesas.Keys
    ensures forall j | j in money.mesas && j != id :: next.mesas[j] == money.mesas[j]
  {
  }

  lemma CloseWrites(money: Money, g: GameTables.Tables, id: MesaId, now: Time, next: Money)
    requires Sound(money) && CloseStep(money, g, id, now, false) == Ok(next)
    ensures id in next.mesas && next.mesas[id].status == Closed
    ensures next == money.(bank := next.bank, mesas := money.mesas[id := next.mesas[id]])
  {
    CloseEffect(money, g, id, now, false, next);
  }

  lemma SweptOneMore(money: Money, g: GameTables.Tables, ids: seq<MesaId>, id: MesaId, now: Time,
                     mesas: map<MesaId, Mesa>, after: map<MesaId, Mesa>)
    requires Swept(money, g, ids, now, mesas) && id in money.mesas && id !in ids && after.Keys == mesas.Keys
    requires forall j | j in mesas && j != id :: after[j] == mesas[j]
    requires after[id].status == Closed <==> CloseStep(money, g, id, now, false).Ok?
    ensures Swept(money, g, ids + [id], now, after)
  {
    forall j | j in money.mesas ensures SweptAt(money, g, ids + [id], now, after, j) {
      assert SweptAt(money, g, ids, now, mesas, j);
    }
  }

  lemma SweepOne(money: Money, swept: Money, g: GameTables.Tables, ids: seq<MesaId>, id: MesaId, now: Time,
                 next: Money, all: seq<MesaId>)
    requires Sound(money) && Sound(swept) && swept.subscriptions == money.subscriptions
    requires Swept(money, g, ids, now, swept.mesas) && id in money.mesas && id !in ids && Expired(money.mesas[id], now)
    requires next == Committed(swept, CloseStep(swept, g, id, now, false)) && all == ids + [id]
    ensures Sound(next) && next.subscriptions == money.subscriptions && Swept(money, g, all, now, next.mesas)
  {
    assert SweptAt(money, g, ids, now, swept.mesas, id);
    CloseIndependent(money, swept, g, id, now);
    CloseChangesOne(swept, g, id, now, CloseStep(swept, g, id, now, false), next);
    CloseKeeps(swept, g, id, now, false, next);
    SweptOneMore(money, g, ids, id, now, swept.mesas, next.mesas);
  }

  ghost predicate AllExpired(money: Money, ids: seq<MesaId>, now: Time) {
    forall k | 0 <= k < |ids| :: ids[k] in money.mesas && Expired(money.mesas[ids[k]], now)
  }

  lemma LastIsNew(money: Money, ids: seq<MesaId>, rest: seq<MesaId>, last: MesaId, now: Time)
    requires |ids| > 0 && Distinct(ids) && AllExpired(money, ids, now) && rest == ids[..|ids| - 1]
               && last == ids[|ids| - 1]
    ensures ids == rest + [last] && last !in rest && Distinct(rest) && AllExpired(money, rest, now)
    ensures last in money.mesas && Expired(money.mesas[last], now)
  {
    assert forall k | 0 <= k < |rest| :: rest[k] == ids[k];
  }

  lemma SweepNext(money: Money, g: GameTables.Tables, ids: seq<MesaId>, now: Time) returns (before: Money)
    requires |ids| > 0
    ensures before == SweepStep(money, g, ids[..|ids| - 1], now).0
    ensures SweepStep(money, g, ids, now).0 == Committed(before, CloseStep(before, g, ids[|ids| - 1], now, false))
  {
    before := SweepStep(money, g, ids[..|ids| - 1], now).0;
  }

  /** The sweep closes exactly the expired Mesas that can be closed; one that cannot holds up no other. */
  lemma {:induction false} SweepClosesEach(money: Money, g: GameTables.Tables, ids: seq<MesaId>, now: Time,
                                           swept: Money)
    requires Sound(money) && Distinct(ids) && AllExpired(money, ids, now) && swept == SweepStep(money, g, ids, now).0
    ensures Sound(swept) && swept.subscriptions == money.subscriptions && Swept(money, g, ids, now, swept.mesas)
  {
    if |ids| > 0 {
      var last, rest := ids[|ids| - 1], ids[..|ids| - 1];
      var before := SweepNext(money, g, ids, now);
      LastIsNew(money, ids, rest, last, now);
      SweepClosesEach(money, g, rest, now, before);
      SweepOne(money, before, g, rest, last, now, swept, ids);
    }
  }

  /** The events of a sweep. */
  function Closes(ids: seq<MesaId>, g: GameTables.Tables, now: Time): (events: seq<Event>)
    ensures |events| == |ids|
  {
    seq(|ids|, k requires 0 <= k < |ids| => Event(Manage(CloseMesa(ids[k], false)), now, g))
  }

  /** A sweep is a run of closes, so what holds of every run holds of runs with sweeps in them. */
  lemma {:induction false} SweepIsRun(money: Money, g: GameTables.Tables, ids: seq<MesaId>, now: Time)
    ensures SweepStep(money, g, ids, now).0 == Run(money, Closes(ids, g, now))
  {
    if |ids| > 0 {
      var n := |ids| - 1;
      SweepIsRun(money, g, ids[..n], now);
      var before := SweepNext(money, g, ids, now);
      assert Closes(ids, g, now)[..n] == Closes(ids[..n], g, now);
    }
  }
}
