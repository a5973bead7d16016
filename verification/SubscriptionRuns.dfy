/**
 What notifications do to a subscription over whole runs
 (src/services/payment/process-mercado-pago-webhook.service.ts:82-194,
 src/services/subscription/renew-subscription-from-payment.service.ts:27-67): every subscription
 payment applied is one renewal, and nothing else is.
 */
module SubscriptionRuns {
  import opened Common
  import opened MoneyTables
  import opened MoneyRuns
  import opened MoneyGuarantees
  import opened MesaInvariant
  import opened Payments
  import opened Calendar
  import GameTables
  import MesaEntry
  import MesaClose

  /** A renewal and the payment it was paid with. */
  datatype PaidRenewal = PaidRenewal(payment: PaymentId, renewal: Renewal)

  function Renewals(paid: seq<PaidRenewal>): (rs: seq<Renewal>)
    ensures |rs| == |paid|
  {
    seq(|paid|, k requires 0 <= k < |paid| => paid[k].renewal)
  }

  /** An event that takes a payment from unapplied to applied. */
  ghost predicate AppliesNow(money: Money, e: Event, id: PaymentId) {
    && id in money.payments && money.payments[id].processedAt.None?
    && id in Apply(money, e).payments && Apply(money, e).payments[id].processedAt.Some?
  }

  predicate BuysMonths(p: Payment, u: UserId) {
    p.purpose == SubscriptionPurchase && p.userId == u
  }

  /** The renewal a payment stands for. */
  function RenewalFor(p: Payment, at: Time): Renewal {
    Renewal(if p.subscriptionPlan.Some? then p.subscriptionPlan.value else Monthly,
            if ValidityMonths(p).Ok? then ValidityMonths(p).value else 0, at)
  }

  /** The renewal of a user that an event brings, if it does. */
  ghost function RenewalBy(money: Money, e: Event, u: UserId): (r: seq<PaidRenewal>)
    ensures |r| <= 1
  {
    if e.action.Move? && e.action.transfer.Notify? && e.action.transfer.webhook.reference.Some? then
      var id := e.action.transfer.webhook.reference.value;
      if AppliesNow(money, e, id) && BuysMonths(money.payments[id], u)
      then [PaidRenewal(id, RenewalFor(money.payments[id], e.now))] else []
    else []
  }

  /** The renewals of a user over a run. */
  ghost function RenewalsOf(money: Money, events: seq<Event>, u: UserId): seq<PaidRenewal> {
    if |events| == 0 then []
    else
      var n := |events| - 1;
      RenewalsOf(money, events[..n], u) + RenewalBy(Run(money, events[..n]), events[n], u)
  }

  /** No event of the payment provider sets the subscription of the user. */
  predicate NoSync(events: seq<Event>, u: UserId) {
    forall k | 0 <= k < |events| :: Unsynced(events[k], u)
  }

  predicate Unsynced(e: Event, u: UserId) {
    !(e.action.Move? && e.action.transfer.SyncSubscription? && e.action.transfer.user == u)
  }

  // ---------- one event ----------

  lemma EntryKeepsSubscriptions(money: Money, e: Entry, g: GameTables.Tables, now: Time)
    ensures ApplyEntry(money, e, g, now).subscriptions == money.subscriptions
  {
    match e
    case RequestEntry(_, _) =>
    case JoinMesa(_, _) =>
    case ReviewEntry(_, _, _, _) =>
    case UseCode(code, u) =>
      var r := MesaEntry.UseInviteStep(money, g, code, u, now);
      if r.Ok? && r.value.1 == MesaEntry.Joined {
        var joined := UseIsJoin(money, g, code, u, now, r.value.0);
      }
  }

  lemma CreateKeepsSubscriptions(money: Money, g: GameTables.Tables, id: MesaId, p: MesaEntry.Proposal,
                                 creator: UserId, now: Time)
    ensures Committed(money, MesaEntry.CreateStep(money, g, id, p, creator, now)).subscriptions == money.subscriptions
  {
  }

  lemma CloseKeepsSubscriptions(money: Money, g: GameTables.Tables, id: MesaId, now: Time, force: bool)
    ensures Committed(money, MesaClose.CloseStep(money, g, id, now, force)).subscriptions == money.subscriptions
  {
  }

  lemma DeskKeepsSubscriptions(money: Money, d: Desk, g: GameTables.Tables, now: Time)
    ensures ApplyDesk(money, d, g, now).subscriptions == money.subscriptions
  {
    match d
    case CreateMesa(id, p, creator) => CreateKeepsSubscriptions(money, g, id, p, creator, now);
    case InviteTo(_, _, _, _, _) =>
    case CloseMesa(id, force) => CloseKeepsSubscriptions(money, g, id, now, force);
    case RecalculateMesa(_) =>
  }

  /** Either nothing of payments or subscriptions is applied, or exactly one payment and what it buys. */
  lemma NotifyEffect(money: Money, w: Webhook, now: Time, next: Money)
    requires next == Committed(money, WebhookStep(money, w, now))
    ensures forall id | id in next.payments && next.payments[id].processedAt.Some? ::
              id in money.payments && (money.payments[id].processedAt.None? ==> w.reference == Some(id))
    ensures forall id | id in next.payments && id in money.payments && money.payments[id].processedAt.None?
              && next.payments[id].processedAt.Some? ::
              next.payments[id] == Processed(money.payments[id], now)
    ensures next.subscriptions == money.subscriptions ||
            (w.reference.Some? && w.reference.value in money.payments && w.reference.value in next.payments
             && money.payments[w.reference.value].processedAt.None?
               && next.payments[w.reference.value].processedAt.Some?)
  {
  }

  lemma NotifySubscribes(money: Money, w: Webhook, now: Time, next: Money, id: PaymentId, p: Payment)
    requires next == Committed(money, WebhookStep(money, w, now)) && w.reference == Some(id)
    requires id in money.payments && p == money.payments[id] && p.processedAt.None?
    requires id in next.payments && next.payments[id].processedAt.Some?
    ensures p.purpose == WalletCredit ==> next.subscriptions == money.subscriptions
    ensures p.purpose == SubscriptionPurchase ==>
              && p.subscriptionPlan.Some? && ValidityMonths(p).Ok?
              && next.subscriptions ==
                money.subscriptions[p.userId := Renewed(SubscriptionOf(money.subscriptions, p.userId),
                   p.subscriptionPlan.value, ValidityMonths(p).value, now)]
  {
  }

  /** Whatever the event, the user's subscription is renewed by its renewals, and changed by nothing else. */
  lemma EventRenews(money: Money, e: Event, u: UserId, next: Money)
    requires next == Apply(money, e) && Unsynced(e, u)
    ensures SubscriptionOf(next.subscriptions, u) ==
            RenewAll(SubscriptionOf(money.subscriptions, u), Renewals(RenewalBy(money, e, u)))
  {
    match e.action
    case Enter(entry) => EntryKeepsSubscriptions(money, entry, e.game, e.now);
    case Manage(desk) => DeskKeepsSubscriptions(money, desk, e.game, e.now);
    case Move(t) =>
      if t.Notify? {
        NotifyRenews(money, e, t.webhook, u, next);
      }
  }

  lemma NotifyRenews(money: Money, e: Event, w: Webhook, u: UserId, next: Money)
    requires e.action == Move(Notify(w)) && next == Apply(money, e)
    ensures SubscriptionOf(next.subscriptions, u) ==
            RenewAll(SubscriptionOf(money.subscriptions, u), Renewals(RenewalBy(money, e, u)))
  {
    NotifyEffect(money, w, e.now, next);
    if w.reference.Some? && AppliesNow(money, e, w.reference.value) {
      var id := w.reference.value;
      NotifySubscribes(money, w, e.now, next, id, money.payments[id]);
      var one := RenewalFor(money.payments[id], e.now);
      assert [one][..0] == [];
    }
  }

  lemma {:induction false} RenewAllAppend(s: Option<Subscription>, a: seq<Renewal>, b: seq<Renewal>)
    ensures RenewAll(s, a + b) == RenewAll(RenewAll(s, a), b)
  {
    if |b| == 0 {
      assert a + b == a;
    } else {
      assert (a + b)[..|a + b| - 1] == a + b[..|b| - 1];
      RenewAllAppend(s, a, b[..|b| - 1]);
    }
  }

  /** Over every run a subscription is what its renewals make of it, one after another. */
  lemma {:induction false} SubscriptionIsItsRenewals(money: Money, events: seq<Event>, u: UserId)
    requires NoSync(events, u)
    ensures SubscriptionOf(Run(money, events).subscriptions, u) ==
            RenewAll(SubscriptionOf(money.subscriptions, u), Renewals(RenewalsOf(money, events, u)))
  {
    hide Apply, RenewalBy, SubscriptionOf;
    if |events| > 0 {
      var n := |events| - 1;
      var before, paid, one := Run(money, events[..n]), RenewalsOf(money, events[..n], u),
        RenewalBy(Run(money, events[..n]), events[n], u);
      SubscriptionIsItsRenewals(money, events[..n], u);
      EventRenews(before, events[n], u, Run(money, events));
      assert Renewals(paid + one) == Renewals(paid) + Renewals(one);
      RenewAllAppend(SubscriptionOf(money.subscriptions, u), Renewals(paid), Renewals(one));
    }
  }

  // ---------- each payment once, and none forgotten ----------

  predicate Applied(money: Money, id: PaymentId) {
    id in money.payments && money.payments[id].processedAt.Some?
  }

  /** What is listed has been applied since, for the user, as the payment says, each payment once. */
  ghost predicate Listed(start: Money, money: Money, u: UserId, paid: seq<PaidRenewal>) {
    && (forall k | 0 <= k < |paid| :: ListedOne(start, money, u, paid[k]))
    && (forall i, j | 0 <= i < j < |paid| :: paid[i].payment != paid[j].payment)
  }

  ghost predicate ListedOne(start: Money, money: Money, u: UserId, r: PaidRenewal) {
    && Applied(money, r.payment) && !Applied(start, r.payment)
    && BuysMonths(money.payments[r.payment], u) && ValidityMonths(money.payments[r.payment]).Ok?
    && r.renewal == Renewal(money.payments[r.payment].subscriptionPlan.value,
      ValidityMonths(money.payments[r.payment]).value,
                            money.payments[r.payment].processedAt.value)
  }

  predicate IsListed(paid: seq<PaidRenewal>, id: PaymentId) {
    exists k :: 0 <= k < |paid| && paid[k].payment == id
  }

  /** Every subscription payment of the user applied since is listed. */
  ghost predicate AllListed(start: Money, money: Money, u: UserId, paid: seq<PaidRenewal>) {
    forall id | Applied(money, id) && !Applied(start, id) && BuysMonths(money.payments[id], u) :: IsListed(paid, id)
  }

  /** A payment that is applied was so before, unchanged, or is applied by this event, a notification of it. */
  lemma EventApplies(money: Money, e: Event, next: Money, id: PaymentId)
    requires next == Apply(money, e) && Applied(next, id)
    ensures (Applied(money, id) && next.payments[id] == money.payments[id])
            || (&& AppliesNow(money, e, id) && next.payments[id] == Processed(money.payments[id], e.now)
                && e.action.Move? && e.action.transfer.Notify? && e.action.transfer.webhook.reference == Some(id))
  {
    match e.action
    case Enter(entry) => EntryKeepsPayments(money, entry, e.game, e.now);
    case Manage(desk) => DeskKeepsPayments(money, desk, e.game, e.now);
    case Move(t) =>
      if t.Notify? {
        NotifyEffect(money, t.webhook, e.now, next);
      }
      TransferKeepsProcessed(money, t, e.now, id);
  }

  lemma ListedStays(start: Money, money: Money, e: Event, next: Money, u: UserId, r: PaidRenewal)
    requires next == Apply(money, e) && ListedOne(start, money, u, r)
    ensures ListedOne(start, next, u, r)
  {
    ApplyKeepsProcessed(money, e, r.payment);
  }

  lemma NewlyListed(start: Money, money: Money, e: Event, next: Money, u: UserId, id: PaymentId)
    requires next == Apply(money, e) && !Applied(start, id) && AppliesNow(money, e, id)
               && BuysMonths(money.payments[id], u)
    ensures ListedOne(start, next, u, PaidRenewal(id, RenewalFor(money.payments[id], e.now)))
    ensures RenewalBy(money, e, u) == [PaidRenewal(id, RenewalFor(money.payments[id], e.now))]
  {
    EventApplies(money, e, next, id);
    NotifySubscribes(money, e.action.transfer.webhook, e.now, next, id, money.payments[id]);
  }

  lemma EventListed(start: Money, money: Money, e: Event, next: Money, u: UserId, paid: seq<PaidRenewal>)
    requires next == Apply(money, e) && Listed(start, money, u, paid)
    requires forall id | Applied(start, id) :: Applied(money, id)
    ensures Listed(start, next, u, paid + RenewalBy(money, e, u))
  {
    var one := RenewalBy(money, e, u);
    var all := paid + one;
    forall k | 0 <= k < |paid| ensures ListedOne(start, next, u, paid[k]) {
      ListedStays(start, money, e, next, u, paid[k]);
    }
    if |one| > 0 {
      NewlyListed(start, money, e, next, u, one[0].payment);
    }
    forall i, j | 0 <= i < j < |all| ensures all[i].payment != all[j].payment {
      assert ListedOne(start, money, u, paid[i]);
    }
  }

  lemma EventAllListed(start: Money, money: Money, e: Event, next: Money, u: UserId, paid: seq<PaidRenewal>)
    requires next == Apply(money, e) && AllListed(start, money, u, paid)
    ensures AllListed(start, next, u, paid + RenewalBy(money, e, u))
  {
    var all := paid + RenewalBy(money, e, u);
    forall id | Applied(next, id) && !Applied(start, id) && BuysMonths(next.payments[id], u) ensures IsListed(all, id) {
      EventApplies(money, e, next, id);
      if Applied(money, id) {
        var k :| 0 <= k < |paid| && paid[k].payment == id;
        assert all[k].payment == id;
      } else {
        NewlyListed(start, money, e, next, u, id);
        assert all[|paid|].payment == id;
      }
    }
  }

  lemma StaysApplied(money: Money, events: seq<Event>)
    ensures forall id | Applied(money, id) :: Applied(Run(money, events), id)
  {
    forall id | Applied(money, id) ensures Applied(Run(money, events), id) {
      AppliedIsFinal(money, events, id);
    }
  }

  /**
   The renewals of a run are exactly the subscription payments of the user applied in it, each once,
   with the plan, months and instant of the payment.
   */
  lemma {:induction false} RenewalsArePayments(money: Money, events: seq<Event>, u: UserId)
    ensures Listed(money, Run(money, events), u, RenewalsOf(money, events, u))
    ensures AllListed(money, Run(money, events), u, RenewalsOf(money, events, u))
  {
    if |events| > 0 {
      var n := |events| - 1;
      var before, paid := Run(money, events[..n]), RenewalsOf(money, events[..n], u);
      RenewalsArePayments(money, events[..n], u);
      StaysApplied(money, events[..n]);
      EventListed(money, before, events[n], Run(money, events), u, paid);
      EventAllListed(money, before, events[n], Run(money, events), u, paid);
    }
  }

  /** Paid in time, a run moves the end of a subscription by exactly the months of the payments applied in it. */
  lemma PaidMonthsAddUp(money: Money, events: seq<Event>, u: UserId)
    requires NoSync(events, u) && u in money.subscriptions && money.subscriptions[u].endAt.Some?
    requires InTime(Some(money.subscriptions[u]), Renewals(RenewalsOf(money, events, u)))
    ensures var paid, after := RenewalsOf(money, events, u), Run(money, events).subscriptions;
            && u in after && after[u].endAt.Some? && after[u].startAt == money.subscriptions[u].startAt
            && after[u].endAt.value == Extended(money.subscriptions[u].endAt.value, MonthsBought(Renewals(paid)))
            && MonthOf(Day(after[u].endAt.value)) ==
              MonthOf(Day(money.subscriptions[u].endAt.value)) + SumInt(MonthsBought(Renewals(paid)))
  {
    SubscriptionIsItsRenewals(money, events, u);
    RenewalsAddUp(money.subscriptions[u], Renewals(RenewalsOf(money, events, u)));
  }
}
