/**
 Payments and what they buy: the webhook
 (src/services/payment/process-mercado-pago-webhook.service.ts), renewals
 (src/services/subscription/renew-subscription-from-payment.service.ts), and the remaining
 writers of wallets (src/services/admin/admin-wallet-credit.service.ts,
 src/services/benefits/purchase-benefits.service.ts).
 */
module Payments {
  import opened Common
  import opened Calendar
  import opened MoneyTables
  import GameTables
  import Benefits
  import MesaEntry

  // ---------- renewal ----------

  /** A period with an end that is still ahead. */
  predicate Running(s: Option<Subscription>, now: Time) {
    s.Some? && s.value.endAt.Some? && s.value.endAt.value > now
  }

  function BaseOf(s: Option<Subscription>, now: Time): Time {
    if Running(s, now) then s.value.endAt.value else now
  }

  /** A running period is extended from its end; any other starts now. */
  function Renewed(s: Option<Subscription>, plan: Plan, validityMonths: int, now: Time): Subscription {
    Subscription(SubActive, plan, if Running(s, now) then s.value.startAt else now,
                 Some(AddMonths(BaseOf(s, now), validityMonths)))
  }

  function SubscriptionOf(subscriptions: map<UserId, Subscription>, u: UserId): Option<Subscription> {
    if u in subscriptions then Some(subscriptions[u]) else None
  }

  method Renew(db: MoneyDb, u: UserId, plan: Plan, validityMonths: int, now: Time)
    modifies db`subscriptions
    ensures db.subscriptions == old(db.subscriptions)[u := Renewed(SubscriptionOf(old(db.subscriptions), u), plan,
              validityMonths, now)]
  {
    var extendsActivePeriod := u in db.subscriptions && db.subscriptions[u].endAt.Some?
      && db.subscriptions[u].endAt.value > now;
    var validityBase := if extendsActivePeriod then db.subscriptions[u].endAt.value else now;
    var newEndAt := AddSubscriptionValidityMonths(validityBase, validityMonths);
    if u !in db.subscriptions {
      db.subscriptions := db.subscriptions[u := Subscription(SubActive, plan, now, Some(newEndAt))];
      return;
    }
    var s := db.subscriptions[u].(plan := plan, status := SubActive, endAt := Some(newEndAt));
    if !extendsActivePeriod {
      s := s.(startAt := now);
    }
    db.subscriptions := db.subscriptions[u := s];
  }

  /** The new end lies after now and after the old end, by exactly the months bought. */
  lemma RenewalExtends(s: Option<Subscription>, plan: Plan, months: int, now: Time)
    requires months >= 1
    ensures var r := Renewed(s, plan, months, now);
            && r.endAt.value > now
            && (s.Some? && s.value.endAt.Some? ==> r.endAt.value > s.value.endAt.value)
            && MonthOf(Day(r.endAt.value)) == MonthOf(Day(BaseOf(s, now))) + months
  {
    AddMonthsLater(BaseOf(s, now), months);
    AddedFields(BaseOf(s, now), months);
  }

  /**
   Whether a renewal leaves every access it found: exactly unless a live subscription has no end, which
   the renewal then gives it, counted from now.
   */
  lemma RenewalKeepsAccess(subscriptions: map<UserId, Subscription>, u: UserId, plan: Plan, months: int, now: Time)
    requires months >= 1
    ensures var next := subscriptions[u := Renewed(SubscriptionOf(subscriptions, u), plan, months, now)];
            (forall at | at >= now && MesaEntry.HasActivePro(subscriptions, u, at, false) ::
              MesaEntry.HasActivePro(next, u, at, false))
            <==> (u in subscriptions && subscriptions[u].status != SubExpired ==> subscriptions[u].endAt.Some?)
  {
    var s := SubscriptionOf(subscriptions, u);
    var next := subscriptions[u := Renewed(s, plan, months, now)];
    RenewalExtends(s, plan, months, now);
    if u in subscriptions && subscriptions[u].status != SubExpired && subscriptions[u].endAt.None? {
      var end := next[u].endAt.value;
      assert MesaEntry.HasActivePro(subscriptions, u, end, false) && !MesaEntry.HasActivePro(next, u, end, false);
    }
  }

  /** Paying for one month at the start of 2026 ends an endless subscription with January. */
  lemma EndlessIsCut(u: UserId)
    ensures var now, later := MakeDate(MonthStart(JANUARY_2026), 0), MakeDate(MonthStart(JANUARY_2026 + 1), 0);
            var before := map[u := Subscription(SubActive, Annual, 0, None)];
            var after := before[u := Renewed(SubscriptionOf(before, u), Monthly, 1, now)];
            && later > now && MesaEntry.HasActivePro(before, u, later, false)
            && !MesaEntry.HasActivePro(after, u, later, false)
  {
    var now := MakeDate(MonthStart(JANUARY_2026), 0);
    DateFields(JANUARY_2026, 1, 0, now);
    AddMonthsLater(now, 1);
  }

  datatype Renewal = Renewal(plan: Plan, months: int, at: Time)

  /** One renewal after another. */
  function RenewAll(s: Option<Subscription>, renewals: seq<Renewal>): Option<Subscription> {
    if |renewals| == 0 then s
    else
      var r := renewals[|renewals| - 1];
      Some(Renewed(RenewAll(s, renewals[..|renewals| - 1]), r.plan, r.months, r.at))
  }

  function MonthsBought(renewals: seq<Renewal>): (m: seq<int>)
    ensures |m| == |renewals|
  {
    seq(|renewals|, k requires 0 <= k < |renewals| => renewals[k].months)
  }

  /** Each renewal is made before the subscription expires. */
  ghost predicate InTime(s: Option<Subscription>, renewals: seq<Renewal>) {
    forall k | 0 <= k < |renewals| :: Running(RenewAll(s, renewals[..k]), renewals[k].at)
  }

  /** Renewals made in time add up: the end moves on by exactly the months bought together. */
  lemma {:induction false} RenewalsAddUp(s: Subscription, renewals: seq<Renewal>)
    requires s.endAt.Some? && InTime(Some(s), renewals)
    ensures var r := RenewAll(Some(s), renewals);
            && r.Some? && r.value.startAt == s.startAt
            && r.value.endAt == Some(Extended(s.endAt.value, MonthsBought(renewals)))
            && MonthOf(Day(r.value.endAt.value)) == MonthOf(Day(s.endAt.value)) + SumInt(MonthsBought(renewals))
  {
    if |renewals| > 0 {
      var n := |renewals| - 1;
      forall k | 0 <= k < n ensures renewals[..n][..k] == renewals[..k] {
      }
      RenewalsAddUp(s, renewals[..n]);
      assert MonthsBought(renewals)[..n] == MonthsBought(renewals[..n]);
    }
    MonthsAreExact(s.endAt.value, MonthsBought(renewals));
  }

  // ---------- the webhook ----------

  datatype MpStatus = MpApproved | MpRejected | MpCancelled | MpRefunded | MpOther

  /** An event and the payment fetched for it; an amount that is no number is None. */
  datatype Webhook = Webhook(eventId: EventId, reference: Option<PaymentId>, status: MpStatus, inReais: bool,
    amountCents: Option<int>)

  datatype WebhookFailure = NoPlan | BadValidity | PackageMismatch | CreditRefused(wallet: WalletFailure)

  function MapMpStatus(s: MpStatus): PaymentStatus {
    match s
    case MpApproved => PayApproved
    case MpRejected => PayRejected
    case MpCancelled => PayCancelled
    case MpRefunded => PayRefunded
    case MpOther => PayPending
  }

  function ValidityMonths(p: Payment): Result<int, WebhookFailure> {
    if p.subscriptionPlan.None? then Err(NoPlan)
    else
      var months := if p.validityMonths.Some? then p.validityMonths.value else if p.subscriptionPlan.value == Monthly
        then 1 else 12;
      if months != 1 && months != 12 then Err(BadValidity)
      else if p.packageMonths.Some? && p.packageMonths.value != months then Err(PackageMismatch)
      else Ok(months)
  }

  /** What an approved payment buys: coins or months. */
  function ApplyPayment(money: Money, id: PaymentId, p: Payment, now: Time): Result<Money, WebhookFailure> {
    if p.purpose == WalletCredit then
      match CreditStep(money.bank, p.userId, p.coinsAmount + p.bonusCoins, PaymentCredit(id))
      case Err(e) => Err(CreditRefused(e))
      case Ok(bank) => Ok(money.(bank := bank))
    else
      match ValidityMonths(p)
      case Err(e) => Err(e)
      case Ok(months) =>
        Ok(money.(subscriptions := money.subscriptions[p.userId :=
                    Renewed(SubscriptionOf(money.subscriptions, p.userId), p.subscriptionPlan.value, months, now)]))
  }

  function Processed(p: Payment, now: Time): Payment {
    p.(status := PayApproved, isCredited := p.purpose == WalletCredit, processedAt := Some(now))
  }

  function WebhookStep(money: Money, e: Webhook, now: Time): Result<Money, WebhookFailure> {
    if e.eventId in money.events then Ok(money)
    else
      var logged := money.(events := money.events + {e.eventId});
      if e.reference.None? || e.reference.value !in money.payments then Ok(logged)
      else
        var id, p := e.reference.value, money.payments[e.reference.value];
        if p.processedAt.Some? then Ok(logged)
        else if e.status != MpApproved then
          Ok(logged.(payments := logged.payments[id := p.(status := MapMpStatus(e.status))]))
        else if !e.inReais || e.amountCents != Some(p.amountCents) then Ok(logged)
        else
          match ApplyPayment(logged, id, p, now)
          case Err(f) => Err(f)
          case Ok(applied) => Ok(applied.(payments := applied.payments[id := Processed(p, now)]))
  }

  method ProcessWebhook(db: MoneyDb, e: Webhook, now: Time) returns (r: Result<(), WebhookFailure>)
    modifies db`events, db`payments, db`wallets, db`ledger, db`subscriptions
    ensures match WebhookStep(old(db.View()), e, now)
            case Ok(next) => r == Ok(()) && db.View() == next
            case Err(f) => r == Err(f) && db.View() == old(db.View())
  {
    if e.eventId in db.events {
      return Ok(());
    }
    var events := db.events;
    db.events := db.events + {e.eventId};
    if e.reference.None? || e.reference.value !in db.payments {
      return Ok(());
    }
    var id, p := e.reference.value, db.payments[e.reference.value];
    if p.processedAt.Some? {
      return Ok(());
    }
    if e.status != MpApproved {
      db.payments := db.payments[id := p.(status := MapMpStatus(e.status))];
      return Ok(());
    }
    if !e.inReais || e.amountCents != Some(p.amountCents) {
      return Ok(());
    }
    if p.purpose == WalletCredit {
      var credited := CreditWithTx(db, p.userId, p.coinsAmount + p.bonusCoins, PaymentCredit(id));
      if credited.Err? {
        db.events := events;
        return Err(CreditRefused(credited.error));
      }
    } else {
      var months := ValidityMonths(p);
      if months.Err? {
        db.events := events;
        return Err(months.error);
      }
      Renew(db, p.userId, p.subscriptionPlan.value, months.value, now);
    }
    db.payments := db.payments[id := p.(status := PayApproved, isCredited := p.purpose == WalletCredit,
      processedAt := Some(now))];
    r := Ok(());
  }

  /** A checkout records a payment that is still to be made. */
  function CheckoutStep(money: Money, id: PaymentId, p: Payment): Money {
    if id in money.payments || p.status != PayPending || p.isCredited || p.processedAt.Some? then money
    else money.(payments := money.payments[id := p])
  }

  // ---------- other writers of wallets ----------

  function AdminStep(b: Bank, u: UserId, kind: Kind, amount: int): Result<Bank, WalletFailure> {
    if amount <= 0 then Err(InvalidAmount)
    else if kind == Credit then CreditStep(b, u, amount, AdminAdjustment)
    else DebitStep(b, u, amount, AdminAdjustment)
  }

  method AdminCredit(db: MoneyDb, u: UserId, amount: int) returns (r: Result<(), WalletFailure>)
    modifies db`wallets, db`ledger
    ensures match AdminStep(old(db.Accounts()), u, Credit, amount)
            case Ok(b) => r == Ok(()) && db.Accounts() == b
            case Err(e) => r == Err(e) && db.Accounts() == old(db.Accounts())
  {
    if amount <= 0 {
      return Err(InvalidAmount);
    }
    if u !in db.wallets {
      db.wallets := db.wallets[u := 0];
    }
    db.wallets := db.wallets[u := db.wallets[u] + amount];
    db.ledger := db.ledger + [LedgerEntry(u, Credit, amount, AdminAdjustment)];
    r := Ok(());
  }

  method AdminDebit(db: MoneyDb, u: UserId, amount: int) returns (r: Result<(), WalletFailure>)
    modifies db`wallets, db`ledger
    ensures match AdminStep(old(db.Accounts()), u, Debit, amount)
            case Ok(b) => r == Ok(()) && db.Accounts() == b
            case Err(e) => r == Err(e) && db.Accounts() == old(db.Accounts())
  {
    if amount <= 0 {
      return Err(InvalidAmount);
    }
    if u !in db.wallets || db.wallets[u] < amount {
      return Err(InsufficientBalance);
    }
    db.wallets := db.wallets[u := db.wallets[u] - amount];
    db.ledger := db.ledger + [LedgerEntry(u, Debit, amount, AdminAdjustment)];
    r := Ok(());
  }

  /** Coins out of the wallet and multipliers into the inventory, or neither. */
  function PurchaseStep(b: Bank, t: GameTables.Tables, u: UserId,
                        p: Benefits.Package): Result<(Bank, GameTables.Tables), WalletFailure> {
    match CheckedDebitStep(b, u, Benefits.PackageCost(p), Purchase)
    case Err(e) => Err(e)
    case Ok(paid) => Ok((paid, Benefits.StockStep(t, u, p)))
  }

  method PurchaseBenefits(db: MoneyDb, game: GameTables.GameDb, u: UserId, p: Benefits.Package)
                          returns (r: Result<(), WalletFailure>)
    modifies db`wallets, db`ledger, game`inventory
    ensures match PurchaseStep(old(db.Accounts()), old(game.View()), u, p)
            case Ok(next) => r == Ok(()) && db.Accounts() == next.0 && game.View() == next.1
            case Err(e) => r == Err(e) && db.Accounts() == old(db.Accounts()) && game.View() == old(game.View())
  {
    r := DebitWithTx(db, u, Benefits.PackageCost(p), Purchase);
    if r.Ok? {
      Benefits.Stock(game, u, p);
    }
  }
}
