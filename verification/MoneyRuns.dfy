/**
 Runs of the money services: any sequence of creations, entries, reviews, invites, closes,
 sweeps, recalculations, wallet adjustments, purchases, checkouts and payment notifications, each
 a transaction of its own, over whatever the game tables hold at that moment.
 */
module MoneyRuns {
  import opened Common
  import opened BolaoPrize
  import opened MoneyTables
  import opened MesaEntry
  import opened MesaClose
  import opened MesaInvariant
  import opened MesaSettlement
  import Payments
  import GameTables
  import Benefits

  /** Ways into a Mesa. */
  datatype Entry =
    | RequestEntry(id: MesaId, user: UserId)
    | JoinMesa(id: MesaId, user: UserId)
    | ReviewEntry(id: MesaId, user: UserId, reviewer: UserId, approve: bool)
    | UseCode(code: InviteCode, user: UserId)

  /** What sets up, refreshes or closes a Mesa. */
  datatype Desk =
    | CreateMesa(id: MesaId, proposal: Proposal, creator: UserId)
    | InviteTo(code: InviteCode, id: MesaId, maxUses: Option<int>, expiresAt: Option<Time>, creator: UserId)
    | CloseMesa(id: MesaId, force: bool)
    | RecalculateMesa(id: MesaId)

  /** Wallets, payments and subscriptions. */
  datatype Transfer =
    | Adjust(user: UserId, kind: Kind, amount: int)
    | Buy(user: UserId, package: Benefits.Package)
    | Checkout(payment: PaymentId, details: Payment)
    | Notify(webhook: Payments.Webhook)
    | SyncSubscription(user: UserId, subscription: Subscription)

  datatype Action = Enter(entry: Entry) | Manage(desk: Desk) | Move(transfer: Transfer)

  /** One transaction: what is asked, when, and the game tables it reads. */
  datatype Event = Event(action: Action, now: Time, game: GameTables.Tables)

  function Committed<E>(money: Money, r: Result<Money, E>): Money {
    match r
    case Ok(next) => next
    case Err(_) => money
  }

  function BankCommitted(money: Money, r: Result<Bank, WalletFailure>): Money {
    match r
    case Ok(bank) => money.(bank := bank)
    case Err(_) => money
  }

  function ApplyEntry(money: Money, e: Entry, g: GameTables.Tables, now: Time): Money {
    match e
    case RequestEntry(id, u) => RequestStep(money, id, u)
    case JoinMesa(id, u) => Committed(money, JoinStep(money, g, id, u, now))
    case ReviewEntry(id, u, reviewer, approve) => Committed(money, ReviewStep(money, g, id, u, reviewer, approve, now))
    case UseCode(code, u) => Used(money, UseInviteStep(money, g, code, u, now))
  }

  /** A Mesa is created under a fresh identifier, an invite under a fresh code. */
  ghost function ApplyDesk(money: Money, d: Desk, g: GameTables.Tables, now: Time): Money {
    match d
    case CreateMesa(id, p, creator) => if id in money.mesas then money
      else Committed(money, CreateStep(money, g, id, p, creator, now))
    case InviteTo(code, id, maxUses, expiresAt, creator) =>
      if code in money.invites then money
        else Committed(money, CreateInviteStep(money, code, id, maxUses, expiresAt, creator, now))
    case CloseMesa(id, force) => Committed(money, CloseStep(money, g, id, now, force))
    case RecalculateMesa(id) => RecalculateStep(money, g, id, now)
  }

  function ApplyTransfer(money: Money, t: Transfer, now: Time): Money {
    match t
    case Adjust(u, kind, amount) => BankCommitted(money, Payments.AdminStep(money.bank, u, kind, amount))
    case Buy(u, p) => BankCommitted(money, CheckedDebitStep(money.bank, u, Benefits.PackageCost(p), Purchase))
    case Checkout(id, p) => Payments.CheckoutStep(money, id, p)
    case Notify(w) => Committed(money, Payments.WebhookStep(money, w, now))
    case SyncSubscription(u, s) => money.(subscriptions := money.subscriptions[u := s])
  }

  /** What one transaction leaves. */
  ghost function Apply(money: Money, e: Event): Money {
    match e.action
    case Enter(entry) => ApplyEntry(money, entry, e.game, e.now)
    case Manage(desk) => ApplyDesk(money, desk, e.game, e.now)
    case Move(transfer) => ApplyTransfer(money, transfer, e.now)
  }

  function Used(money: Money, r: Result<(Money, InviteResult), Failure>): Money {
    match r
    case Ok(next) => next.0
    case Err(_) => money
  }

  ghost function Run(money: Money, events: seq<Event>): Money {
    if |events| == 0 then money else Apply(Run(money, events[..|events| - 1]), events[|events| - 1])
  }

  // ---------- payments ----------

  function OriginRows(ledger: seq<LedgerEntry>, o: Origin): nat {
    if |ledger| == 0 then 0
    else OriginRows(ledger[..|ledger| - 1], o) + (if ledger[|ledger| - 1].origin == o then 1 else 0)
  }

  lemma OriginRowsAppend(ledger: seq<LedgerEntry>, e: LedgerEntry, o: Origin)
    ensures OriginRows(ledger + [e], o) == OriginRows(ledger, o) + (if e.origin == o then 1 else 0)
  {
    assert (ledger + [e])[..|ledger|] == ledger;
  }

  lemma {:induction false} NoRowsOfOrigin(ledger: seq<LedgerEntry>, o: Origin)
    requires forall k | 0 <= k < |ledger| :: ledger[k].origin != o
    ensures OriginRows(ledger, o) == 0 && OriginNet(ledger, o) == 0
  {
    if |ledger| > 0 {
      NoRowsOfOrigin(ledger[..|ledger| - 1], o);
    }
  }

  /** A payment is applied once: APPROVED exactly when processed, and then its coins are in the ledger, in one row. */
  ghost predicate PaymentSound(id: PaymentId, p: Payment, ledger: seq<LedgerEntry>) {
    && (p.status == PayApproved <==> p.processedAt.Some?)
    && (p.isCredited <==> p.processedAt.Some? && p.purpose == WalletCredit)
    && OriginRows(ledger, PaymentCredit(id)) == (if p.isCredited then 1 else 0)
    && OriginNet(ledger, PaymentCredit(id)) == (if p.isCredited then p.coinsAmount + p.bonusCoins else 0)
  }

  ghost predicate PaymentsSound(payments: map<PaymentId, Payment>, ledger: seq<LedgerEntry>) {
    && (forall id | id in payments :: PaymentSound(id, payments[id], ledger))
    && (forall k | 0 <= k < |ledger| && ledger[k].origin.PaymentCredit? :: ledger[k].origin.payment in payments)
  }

  /** Rows that are no payment credits change no payment. */
  lemma {:induction false} PaymentsFrame(payments: map<PaymentId, Payment>, ledger: seq<LedgerEntry>,
                                         rows: seq<LedgerEntry>)
    requires PaymentsSound(payments, ledger)
    requires forall k | 0 <= k < |rows| :: !rows[k].origin.PaymentCredit?
    ensures PaymentsSound(payments, ledger + rows)
  {
    if |rows| == 0 {
      assert ledger + rows == ledger;
    } else {
      var n := |rows| - 1;
      PaymentsFrame(payments, ledger, rows[..n]);
      assert ledger + rows == (ledger + rows[..n]) + [rows[n]];
      forall id | id in payments ensures PaymentSound(id, payments[id], ledger + rows) {
        OriginRowsAppend(ledger + rows[..n], rows[n], PaymentCredit(id));
        OriginNetAppend(ledger + rows[..n], rows[n], PaymentCredit(id));
      }
    }
  }

  /** The credit of a payment not applied before. */
  lemma PaymentCredited(payments: map<PaymentId, Payment>, ledger: seq<LedgerEntry>, id: PaymentId, p: Payment,
                        now: Time)
    requires PaymentsSound(payments, ledger) && id in payments && p == payments[id] && p.processedAt.None?
               && p.purpose == WalletCredit
    ensures PaymentsSound(payments[id := Payments.Processed(p, now)],
                          ledger + [LedgerEntry(p.userId, Credit, p.coinsAmount + p.bonusCoins, PaymentCredit(id))])
  {
    var e := LedgerEntry(p.userId, Credit, p.coinsAmount + p.bonusCoins, PaymentCredit(id));
    var others := payments[id := Payments.Processed(p, now)];
    forall j | j in others ensures PaymentSound(j, others[j], ledger + [e]) {
      assert PaymentSound(j, payments[j], ledger);
      OriginRowsAppend(ledger, e, PaymentCredit(j));
      OriginNetAppend(ledger, e, PaymentCredit(j));
    }
  }

  ghost predicate AllSound(money: Money) {
    Sound(money) && PaymentsSound(money.payments, money.bank.ledger)
  }

  // ---------- wallet steps ----------

  /** A wallet operation that is about no Mesa. */
  lemma WalletOpSound(money: Money, u: UserId, kind: Kind, amount: int, origin: Origin, next: Money)
    requires Sound(money) && !Keyed(origin)
    requires kind == Credit ==> next == BankCommitted(money, CreditStep(money.bank, u, amount, origin))
    requires kind == Debit ==> next == BankCommitted(money, DebitStep(money.bank, u, amount, origin))
    ensures Sound(next)
    ensures next.bank.ledger == money.bank.ledger
              || next.bank.ledger == money.bank.ledger + [LedgerEntry(u, kind, amount, origin)]
  {
    hide MesasSound, InvitesSound, BankSound;
    WalletStepsSound(money.bank, u, amount, origin);
    UnkeyedRow(money.mesas, money.bank.ledger, LedgerEntry(u, kind, amount, origin));
  }

  // ---------- every transaction keeps everything ----------

  /** The ledger is append-only, and the new rows are entries and prizes. */
  ghost predicate Grown(money: Money, next: Money) {
    && next.payments == money.payments
    && |money.bank.ledger| <= |next.bank.ledger|
    && next.bank.ledger[..|money.bank.ledger|] == money.bank.ledger
    && (forall k | |money.bank.ledger| <= k < |next.bank.ledger| :: Keyed(next.bank.ledger[k].origin))
  }

  lemma UntouchedGrown(money: Money, next: Money)
    requires next.payments == money.payments && next.bank == money.bank
    ensures Grown(money, next)
  {
  }

  lemma GrownKeepsPayments(money: Money, next: Money)
    requires PaymentsSound(money.payments, money.bank.ledger) && Grown(money, next)
    ensures PaymentsSound(next.payments, next.bank.ledger)
  {
    var n := |money.bank.ledger|;
    assert next.bank.ledger == next.bank.ledger[..n] + next.bank.ledger[n..];
    PaymentsFrame(money.payments, money.bank.ledger, next.bank.ledger[n..]);
  }

  lemma WalletOpKeepsPayments(money: Money, e: LedgerEntry, next: Money)
    requires PaymentsSound(money.payments, money.bank.ledger) && next.payments == money.payments
    requires !e.origin.PaymentCredit?
    requires next.bank.ledger == money.bank.ledger || next.bank.ledger == money.bank.ledger + [e]
    ensures PaymentsSound(next.payments, next.bank.ledger)
  {
    PaymentsFrame(money.payments, money.bank.ledger, [e]);
  }

  lemma AdmitGrows(money: Money, g: GameTables.Tables, id: MesaId, u: UserId, now: Time, next: Money)
    requires id in money.mesas && AdmitStep(money, g, id, u, now) == Ok(next)
    ensures Grown(money, next)
  {
  }

  lemma CloseGrows(money: Money, g: GameTables.Tables, id: MesaId, now: Time, force: bool, next: Money)
    requires Sound(money) && CloseStep(money, g, id, now, force) == Ok(next)
    ensures Grown(money, next)
  {
    CloseEffect(money, g, id, now, force, next);
    WinnersSound(money, g, id, now);
    PayAllExactly(money.bank, id, Winners(money, g, id, now));
  }

  lemma JoinGrows(money: Money, g: GameTables.Tables, id: MesaId, u: UserId, now: Time, next: Money)
    requires JoinStep(money, g, id, u, now) == Ok(next)
    ensures Grown(money, next)
  {
    AdmitGrows(money, g, id, u, now, next);
  }

  lemma ReviewGrows(money: Money, g: GameTables.Tables, id: MesaId, u: UserId, reviewer: UserId, approve: bool,
                    now: Time, next: Money)
    requires ReviewStep(money, g, id, u, reviewer, approve, now) == Ok(next)
    ensures Grown(money, next)
  {
    if approve {
      AdmitGrows(money, g, id, u, now, next);
    }
  }

  lemma UseGrows(money: Money, g: GameTables.Tables, code: InviteCode, u: UserId, now: Time, next: Money,
                 r: InviteResult)
    requires UseInviteStep(money, g, code, u, now) == Ok((next, r))
    ensures Grown(money, next)
  {
    if r == Joined {
      var joined := UseIsJoin(money, g, code, u, now, next);
      JoinGrows(money, g, money.invites[code].mesa, u, now, joined);
    } else {
      ReuseChangesNothing(money, g, code, u, now, next);
    }
  }

  lemma JoinKeeps(money: Money, g: GameTables.Tables, id: MesaId, u: UserId, now: Time, next: Money)
    requires Sound(money) && next == Committed(money, JoinStep(money, g, id, u, now))
    ensures Sound(next) && Grown(money, next)
  {
    if JoinStep(money, g, id, u, now).Ok? {
      JoinSound(money, g, id, u, now, next);
      JoinGrows(money, g, id, u, now, next);
    }
  }

  lemma ReviewKeeps(money: Money, g: GameTables.Tables, id: MesaId, u: UserId, reviewer: UserId, approve: bool,
                    now: Time, next: Money)
    requires Sound(money) && next == Committed(money, ReviewStep(money, g, id, u, reviewer, approve, now))
    ensures Sound(next) && Grown(money, next)
  {
    if ReviewStep(money, g, id, u, reviewer, approve, now).Ok? {
      ReviewSound(money, g, id, u, reviewer, approve, now, next);
      ReviewGrows(money, g, id, u, reviewer, approve, now, next);
    }
  }

  lemma UseKeeps(money: Money, g: GameTables.Tables, code: InviteCode, u: UserId, now: Time, next: Money)
    requires Sound(money) && next == Used(money, UseInviteStep(money, g, code, u, now))
    ensures Sound(next) && Grown(money, next)
  {
    var r := UseInviteStep(money, g, code, u, now);
    if r.Ok? {
      UseInviteSound(money, g, code, u, now, r.value.0, r.value.1);
      UseGrows(money, g, code, u, now, r.value.0, r.value.1);
    }
  }

  lemma CreateKeeps(money: Money, g: GameTables.Tables, id: MesaId, p: Proposal, creator: UserId, now: Time,
                    next: Money)
    requires Sound(money)
    requires next == if id in money.mesas then money else Committed(money, CreateStep(money, g, id, p, creator, now))
    ensures Sound(next) && Grown(money, next)
  {
    if id !in money.mesas && CreateStep(money, g, id, p, creator, now).Ok? {
      CreateSound(money, g, id, p, creator, now, next);
    }
    UntouchedGrown(money, next);
  }

  lemma InviteKeeps(money: Money, code: InviteCode, id: MesaId, maxUses: Option<int>, expiresAt: Option<Time>,
                    creator: UserId, now: Time, next: Money)
    requires Sound(money)
    requires next == if code in money.invites then money
                     else Committed(money, CreateInviteStep(money, code, id, maxUses, expiresAt, creator, now))
    ensures Sound(next) && Grown(money, next)
  {
    if code !in money.invites && CreateInviteStep(money, code, id, maxUses, expiresAt, creator, now).Ok? {
      CreateInviteSound(money, code, id, maxUses, expiresAt, creator, now, next);
    }
    UntouchedGrown(money, next);
  }

  lemma CloseKeeps(money: Money, g: GameTables.Tables, id: MesaId, now: Time, force: bool, next: Money)
    requires Sound(money) && next == Committed(money, CloseStep(money, g, id, now, force))
    ensures Sound(next) && Grown(money, next)
  {
    if CloseStep(money, g, id, now, force).Ok? {
      CloseSound(money, g, id, now, force, next);
      CloseGrows(money, g, id, now, force, next);
    }
  }

  lemma RecalculateKeeps(money: Money, g: GameTables.Tables, id: MesaId, now: Time, next: Money)
    requires Sound(money) && next == RecalculateStep(money, g, id, now)
    ensures Sound(next) && Grown(money, next)
  {
    RecalculateSound(money, g, id, now, next);
  }

  lemma EntryKeeps(money: Money, e: Entry, g: GameTables.Tables, now: Time, next: Money)
    requires Sound(money) && next == ApplyEntry(money, e, g, now)
    ensures Sound(next) && Grown(money, next)
  {
    match e
    case RequestEntry(id, u) => RequestSound(money, id, u, next);
    case JoinMesa(id, u) => JoinKeeps(money, g, id, u, now, next);
    case ReviewEntry(id, u, reviewer, approve) => ReviewKeeps(money, g, id, u, reviewer, approve, now, next);
    case UseCode(code, u) => UseKeeps(money, g, code, u, now, next);
  }

  lemma DeskKeeps(money: Money, d: Desk, g: GameTables.Tables, now: Time, next: Money)
    requires Sound(money) && next == ApplyDesk(money, d, g, now)
    ensures Sound(next) && Grown(money, next)
  {
    match d
    case CreateMesa(id, p, creator) => CreateKeeps(money, g, id, p, creator, now, next);
    case InviteTo(code, id, maxUses, expiresAt, creator) =>
      InviteKeeps(money, code, id, maxUses, expiresAt, creator, now, next);
    case CloseMesa(id, force) => CloseKeeps(money, g, id, now, force, next);
    case RecalculateMesa(id) => RecalculateKeeps(money, g, id, now, next);
  }

  // ---------- transfers ----------

  /** Payments and subscriptions do not enter the Mesas or the bank. */
  lemma SoundIgnoresPayments(money: Money, next: Money)
    requires Sound(money) && next.bank == money.bank && next.mesas == money.mesas
    requires next.invites == money.invites && next.inviteUses == money.inviteUses
    ensures Sound(next)
  {
  }

  lemma AdjustKeeps(money: Money, u: UserId, kind: Kind, amount: int, next: Money)
    requires AllSound(money) && next == BankCommitted(money, Payments.AdminStep(money.bank, u, kind, amount))
    ensures AllSound(next)
  {
    hide Sound, PaymentsSound, CreditStep, DebitStep;
    if amount > 0 {
      WalletOpSound(money, u, kind, amount, AdminAdjustment, next);
      WalletOpKeepsPayments(money, LedgerEntry(u, kind, amount, AdminAdjustment), next);
    }
  }

  lemma BuyKeeps(money: Money, u: UserId, amount: int, next: Money)
    requires AllSound(money) && next == BankCommitted(money, CheckedDebitStep(money.bank, u, amount, Purchase))
    ensures AllSound(next)
  {
    hide Sound, PaymentsSound, DebitStep;
    if amount > 0 {
      WalletOpSound(money, u, Debit, amount, Purchase, next);
      WalletOpKeepsPayments(money, LedgerEntry(u, Debit, amount, Purchase), next);
    }
  }

  lemma CheckoutKeeps(money: Money, id: PaymentId, p: Payment, next: Money)
    requires AllSound(money) && next == Payments.CheckoutStep(money, id, p)
    ensures AllSound(next)
  {
    if next != money {
      NoRowsOfOrigin(money.bank.ledger, PaymentCredit(id));
      SoundIgnoresPayments(money, next);
    }
  }

  /** A payment that stays unapplied may change its status, or be applied without coins. */
  lemma PaymentReplaced(payments: map<PaymentId, Payment>, ledger: seq<LedgerEntry>, id: PaymentId, p: Payment)
    requires PaymentsSound(payments, ledger) && id in payments && payments[id].processedAt.None?
    requires (p.status == PayApproved <==> p.processedAt.Some?) && !p.isCredited
               && (p.processedAt.Some? ==> p.purpose != WalletCredit)
    ensures PaymentsSound(payments[id := p], ledger)
  {
    assert PaymentSound(id, payments[id], ledger);
  }

  /** What a notification that commits may do: nothing, a status, coins or months. */
  lemma WebhookCases(money: Money, w: Payments.Webhook, now: Time, next: Money) returns (id: PaymentId)
    requires Payments.WebhookStep(money, w, now) == Ok(next)
    ensures next.mesas == money.mesas && next.invites == money.invites && next.inviteUses == money.inviteUses
    ensures next.payments != money.payments || next.bank != money.bank ==>
              && id in money.payments && money.payments[id].processedAt.None? && w.eventId !in money.events
              && var p := money.payments[id];
              || (next.bank == money.bank && w.status != Payments.MpApproved
                  && next.payments == money.payments[id := p.(status := Payments.MapMpStatus(w.status))])
              || (p.purpose == WalletCredit && next.payments == money.payments[id := Payments.Processed(p, now)]
                  && CreditStep(money.bank, p.userId, p.coinsAmount + p.bonusCoins, PaymentCredit(id)) == Ok(next.bank))
              || (next.bank == money.bank && p.purpose != WalletCredit
                && next.payments == money.payments[id := Payments.Processed(p, now)])
  {
    if w.reference.Some? {
      id := w.reference.value;
    } else {
      id := 0;
    }
  }

  lemma NotifyKeeps(money: Money, w: Payments.Webhook, now: Time, next: Money)
    requires AllSound(money) && next == Committed(money, Payments.WebhookStep(money, w, now))
    ensures AllSound(next)
  {
    if Payments.WebhookStep(money, w, now).Ok? {
      var id := WebhookCases(money, w, now, next);
      if next.payments != money.payments || next.bank != money.bank {
        ChangedPaymentKeeps(money, id, w, now, next);
      } else {
        SoundIgnoresPayments(money, next);
      }
    }
  }

  lemma ChangedPaymentKeeps(money: Money, id: PaymentId, w: Payments.Webhook, now: Time, next: Money)
    requires AllSound(money) && id in money.payments && money.payments[id].processedAt.None?
    requires next.mesas == money.mesas && next.invites == money.invites && next.inviteUses == money.inviteUses
    requires var p := money.payments[id];
              || (next.bank == money.bank && w.status != Payments.MpApproved
                  && next.payments == money.payments[id := p.(status := Payments.MapMpStatus(w.status))])
              || (p.purpose == WalletCredit && next.payments == money.payments[id := Payments.Processed(p, now)]
                  && CreditStep(money.bank, p.userId, p.coinsAmount + p.bonusCoins, PaymentCredit(id)) == Ok(next.bank))
              || (next.bank == money.bank && p.purpose != WalletCredit
                && next.payments == money.payments[id := Payments.Processed(p, now)])
    ensures AllSound(next)
  {
    var p := money.payments[id];
    assert PaymentSound(id, p, money.bank.ledger);
    if next.bank == money.bank {
      PaymentReplaced(money.payments, money.bank.ledger, id, next.payments[id]);
      SoundIgnoresPayments(money, next);
    } else {
      CoinsPaymentKeeps(money, id, p, now, next);
    }
  }

  lemma CoinsPaymentKeeps(money: Money, id: PaymentId, p: Payment, now: Time, next: Money)
    requires AllSound(money) && id in money.payments && p == money.payments[id] && p.processedAt.None?
               && p.purpose == WalletCredit
    requires next.mesas == money.mesas && next.invites == money.invites && next.inviteUses == money.inviteUses
    requires next.payments == money.payments[id := Payments.Processed(p, now)]
    requires CreditStep(money.bank, p.userId, p.coinsAmount + p.bonusCoins, PaymentCredit(id)) == Ok(next.bank)
    ensures AllSound(next)
  {
    WalletOpSound(money, p.userId, Credit, p.coinsAmount + p.bonusCoins, PaymentCredit(id), money.(bank := next.bank));
    PaymentCredited(money.payments, money.bank.ledger, id, p, now);
    SoundIgnoresPayments(money.(bank := next.bank), next);
  }

  lemma TransferKeeps(money: Money, t: Transfer, now: Time, next: Money)
    requires AllSound(money) && next == ApplyTransfer(money, t, now)
    ensures AllSound(next)
  {
    match t
    case Adjust(u, kind, amount) => AdjustKeeps(money, u, kind, amount, next);
    case Buy(u, p) => BuyKeeps(money, u, Benefits.PackageCost(p), next);
    case Checkout(id, p) => CheckoutKeeps(money, id, p, next);
    case Notify(w) => NotifyKeeps(money, w, now, next);
    case SyncSubscription(u, s) => SoundIgnoresPayments(money, next);
  }

  // ---------- every run ----------

  lemma ApplyKeeps(money: Money, e: Event, next: Money)
    requires AllSound(money) && next == Apply(money, e)
    ensures AllSound(next)
  {
    match e.action
    case Enter(entry) =>
      EntryKeeps(money, entry, e.game, e.now, next);
      GrownKeepsPayments(money, next);
    case Manage(desk) =>
      DeskKeeps(money, desk, e.game, e.now, next);
      GrownKeepsPayments(money, next);
    case Move(transfer) => TransferKeeps(money, transfer, e.now, next);
  }

  lemma {:induction false} RunKeeps(money: Money, events: seq<Event>)
    requires AllSound(money)
    ensures AllSound(Run(money, events))
  {
    if |events| > 0 {
      var n := |events| - 1;
      RunKeeps(money, events[..n]);
      ApplyKeeps(Run(money, events[..n]), events[n], Run(money, events));
    }
  }

  /** Every state the services can reach is sound. */
  lemma ReachableSound(events: seq<Event>)
    ensures AllSound(Run(NO_MONEY, events))
  {
    EmptySound();
    RunKeeps(NO_MONEY, events);
  }
}
