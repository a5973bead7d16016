/**
 Wallets, their ledger, Mesas with their participants, invites, subscriptions and payments
 (prisma/schema.prisma), and the wallet operations of src/services/wallet/wallet.service.ts
 and src/services/bolao/bolao-entry-payment.service.ts.
 */
module MoneyTables {
  import opened Common
  import opened BolaoPrize

  type MesaId = nat
  type InviteCode = nat
  type PaymentId = nat
  type EventId = nat

  // ---------- wallets and ledger ----------

  datatype Kind = Credit | Debit

  /** What a ledger row is for. Entries and prizes carry a unique idempotency key. */
  datatype Origin =
    | Entry(mesa: MesaId)
    | Prize(mesa: MesaId)
    | Purchase
    | AdminAdjustment
    | PaymentCredit(payment: PaymentId)

  datatype LedgerEntry = LedgerEntry(userId: UserId, kind: Kind, amount: int, origin: Origin)

  datatype Bank = Bank(wallets: map<UserId, int>, ledger: seq<LedgerEntry>)

  // ---------- Mesas ----------

  datatype MesaStatus = Draft | Active | Closed

  datatype Category = Paid | SponsoredFree

  datatype ParticipantStatus = Pending | Approved | Rejected

  datatype Participant = Participant(
    userId: UserId, status: ParticipantStatus, scoreInitial: int, score: int, position: Option<int>,
    superDoubleHits: int, doubleHits: int, entryFeePaid: int, entryPaidAt: Option<Time>)

  datatype Mesa = Mesa(
    status: MesaStatus, description: Option<string>, startDate: Option<Time>, endDate: Option<Time>,
    entryFee: int, accessCost: Option<int>, category: Category, sponsorPrizePool: int,
    maxParticipants: Option<int>, currentParticipants: int,
    prizeDistribution: seq<PrizeDistributionItem>,
    grossCollected: int, platformFee: int, prizePool: int, rewardPool: Option<int>,
    settledAt: Option<Time>, createdByUserId: UserId, participants: seq<Participant>)

  datatype Invite = Invite(mesa: MesaId, maxUses: Option<int>, usedCount: int, expiresAt: Option<Time>, isActive: bool)

  /** The audit row of an invite that was used. */
  datatype InviteUse = InviteUse(code: InviteCode, userId: UserId)

  // ---------- subscriptions and payments ----------

  datatype SubscriptionStatus = SubActive | SubExpired | SubCancelled

  datatype Plan = Monthly | Annual

  datatype Subscription = Subscription(status: SubscriptionStatus, plan: Plan, startAt: Time, endAt: Option<Time>)

  datatype PaymentStatus = PayPending | PayApproved | PayRejected | PayCancelled | PayRefunded

  datatype Purpose = WalletCredit | SubscriptionPurchase

  datatype Payment = Payment(
    userId: UserId, purpose: Purpose, status: PaymentStatus,
    subscriptionPlan: Option<Plan>, packageMonths: Option<int>, validityMonths: Option<int>,
    amountCents: int, coinsAmount: int, bonusCoins: int, isCredited: bool, processedAt: Option<Time>)

  datatype Money = Money(
    bank: Bank,
    mesas: map<MesaId, Mesa>,
    invites: map<InviteCode, Invite>,
    inviteUses: seq<InviteUse>,
    subscriptions: map<UserId, Subscription>,
    payments: map<PaymentId, Payment>,
    events: set<EventId>)

  const NO_MONEY := Money(Bank(map[], []), map[], map[], [], map[], map[], {})

  /** The database the money services write to. */
  class MoneyDb {
    var wallets: map<UserId, int>
    var ledger: seq<LedgerEntry>
    var mesas: map<MesaId, Mesa>
    var invites: map<InviteCode, Invite>
    var inviteUses: seq<InviteUse>
    var subscriptions: map<UserId, Subscription>
    var payments: map<PaymentId, Payment>
    var events: set<EventId>

    function Accounts(): Bank
      reads this`wallets, this`ledger
    {
      Bank(wallets, ledger)
    }

    function View(): Money
      reads this
    {
      Money(Accounts(), mesas, invites, inviteUses, subscriptions, payments, events)
    }

    constructor ()
      ensures View() == NO_MONEY
    {
      wallets, ledger, mesas, invites, inviteUses := map[], [], map[], map[], [];
      subscriptions, payments, events := map[], map[], {};
    }
  }

  // ---------- ledger rows ----------

  predicate Keyed(o: Origin) { o.Entry? || o.Prize? }

  /** The idempotency key of a row is already taken. */
  predicate KeyTaken(ledger: seq<LedgerEntry>, u: UserId, o: Origin) {
    Keyed(o) && exists k :: 0 <= k < |ledger| && ledger[k].userId == u && ledger[k].origin == o
  }

  /** The table takes a row with a positive amount and a new key. */
  predicate Insertable(ledger: seq<LedgerEntry>, e: LedgerEntry) {
    e.amount > 0 && !KeyTaken(ledger, e.userId, e.origin)
  }

  function Signed(e: LedgerEntry): int {
    if e.kind == Credit then e.amount else -e.amount
  }

  datatype WalletFailure = InvalidAmount | InsufficientBalance | LedgerRefused

  // ---------- credit ----------

  function CreditStep(b: Bank, u: UserId, amount: int, origin: Origin): Result<Bank, WalletFailure> {
    var e := LedgerEntry(u, Credit, amount, origin);
    if !Insertable(b.ledger, e) then Err(LedgerRefused)
    else Ok(Bank(b.wallets[u := (if u in b.wallets then b.wallets[u] else 0) + amount], b.ledger + [e]))
  }

  /** Opens the wallet if there is none, writes the row, then raises the balance. */
  method CreditWithTx(db: MoneyDb, u: UserId, amount: int, origin: Origin) returns (r: Result<(), WalletFailure>)
    modifies db`wallets, db`ledger
    ensures match CreditStep(old(db.Accounts()), u, amount, origin)
            case Ok(b) => r == Ok(()) && db.Accounts() == b
            case Err(e) => r == Err(e) && db.Accounts() == old(db.Accounts())
  {
    var wallets := db.wallets;
    if u !in db.wallets {
      db.wallets := db.wallets[u := 0];
    }
    var e := LedgerEntry(u, Credit, amount, origin);
    if !Insertable(db.ledger, e) {
      db.wallets := wallets;
      return Err(LedgerRefused);
    }
    db.ledger := db.ledger + [e];
    db.wallets := db.wallets[u := db.wallets[u] + amount];
    r := Ok(());
  }

  // ---------- debit ----------

  function DebitStep(b: Bank, u: UserId, amount: int, origin: Origin): Result<Bank, WalletFailure> {
    var e := LedgerEntry(u, Debit, amount, origin);
    if u !in b.wallets || b.wallets[u] < amount then Err(InsufficientBalance)
    else if !Insertable(b.ledger, e) then Err(LedgerRefused)
    else Ok(Bank(b.wallets[u := b.wallets[u] - amount], b.ledger + [e]))
  }

  /** Lowers the balance where it covers the amount, then writes the row. */
  method DebitWithTx(db: MoneyDb, u: UserId, amount: int, origin: Origin) returns (r: Result<(), WalletFailure>)
    modifies db`wallets, db`ledger
    ensures match DebitStep(old(db.Accounts()), u, amount, origin)
            case Ok(b) => r == Ok(()) && db.Accounts() == b
            case Err(e) => r == Err(e) && db.Accounts() == old(db.Accounts())
  {
    if u !in db.wallets || db.wallets[u] < amount {
      return Err(InsufficientBalance);
    }
    var wallets := db.wallets;
    db.wallets := db.wallets[u := db.wallets[u] - amount];
    var e := LedgerEntry(u, Debit, amount, origin);
    if !Insertable(db.ledger, e) {
      db.wallets := wallets;
      return Err(LedgerRefused);
    }
    db.ledger := db.ledger + [e];
    r := Ok(());
  }

  /** The public debit refuses amounts that are not positive before it looks at the wallet. */
  function CheckedDebitStep(b: Bank, u: UserId, amount: int, origin: Origin): Result<Bank, WalletFailure> {
    if amount <= 0 then Err(InvalidAmount) else DebitStep(b, u, amount, origin)
  }

  // ---------- the bank invariant ----------

  /** Credits minus debits of one user. */
  function Net(ledger: seq<LedgerEntry>, u: UserId): int {
    if |ledger| == 0 then 0
    else Net(ledger[..|ledger| - 1], u)
         + (if ledger[|ledger| - 1].userId == u then Signed(ledger[|ledger| - 1]) else 0)
  }

  /** Credits minus debits of everyone. */
  function NetAll(ledger: seq<LedgerEntry>): int {
    if |ledger| == 0 then 0 else NetAll(ledger[..|ledger| - 1]) + Signed(ledger[|ledger| - 1])
  }

  /** Balances are non-negative and equal to the ledger; amounts are positive and keys unique. */
  ghost predicate BankSound(b: Bank) {
    match b
    case Bank(wallets, ledger) =>
      && (forall u | u in wallets :: wallets[u] >= 0 && wallets[u] == Net(ledger, u))
      && (forall k | 0 <= k < |ledger| :: ledger[k].amount > 0 && ledger[k].userId in wallets)
      && (forall i, j | 0 <= i < j < |ledger| && Keyed(ledger[i].origin) ::
            ledger[i].userId != ledger[j].userId || ledger[i].origin != ledger[j].origin)
      && SumMap(wallets) == NetAll(ledger)
  }

  lemma NetAppend(ledger: seq<LedgerEntry>, e: LedgerEntry, u: UserId)
    ensures Net(ledger + [e], u) == Net(ledger, u) + (if e.userId == u then Signed(e) else 0)
    ensures NetAll(ledger + [e]) == NetAll(ledger) + Signed(e)
  {
    assert (ledger + [e])[..|ledger|] == ledger;
  }

  lemma {:induction false} NetOfStranger(ledger: seq<LedgerEntry>, u: UserId)
    requires forall k | 0 <= k < |ledger| :: ledger[k].userId != u
    ensures Net(ledger, u) == 0
  {
    if |ledger| > 0 {
      NetOfStranger(ledger[..|ledger| - 1], u);
    }
  }

  /** A row that moves its user's balance by its signed amount keeps the bank sound. */
  lemma PostSound(b: Bank, e: LedgerEntry, balance: int)
    requires BankSound(b) && Insertable(b.ledger, e) && balance >= 0
    requires balance == (if e.userId in b.wallets then b.wallets[e.userId] else 0) + Signed(e)
    ensures BankSound(Bank(b.wallets[e.userId := balance], b.ledger + [e]))
  {
    var wallets, ledger := b.wallets[e.userId := balance], b.ledger + [e];
    if e.userId !in b.wallets {
      NetOfStranger(b.ledger, e.userId);
    }
    forall u | u in wallets ensures wallets[u] >= 0 && wallets[u] == Net(ledger, u) {
      NetAppend(b.ledger, e, u);
    }
    NetAppend(b.ledger, e, e.userId);
    SumMapUpdate(b.wallets, e.userId, balance);
  }

  lemma BalanceNotNegative(b: Bank, u: UserId)
    requires BankSound(b)
    ensures u in b.wallets ==> b.wallets[u] >= 0
  {
  }

  /** Every credit and debit keeps balances non-negative and equal to the ledger. */
  lemma WalletStepsSound(b: Bank, u: UserId, amount: int, origin: Origin)
    requires BankSound(b)
    ensures CreditStep(b, u, amount, origin).Ok? ==> BankSound(CreditStep(b, u, amount, origin).value)
    ensures DebitStep(b, u, amount, origin).Ok? ==> BankSound(DebitStep(b, u, amount, origin).value)
  {
    hide BankSound;
    if CreditStep(b, u, amount, origin).Ok? {
      BalanceNotNegative(b, u);
      PostSound(b, LedgerEntry(u, Credit, amount, origin), (if u in b.wallets then b.wallets[u] else 0) + amount);
    }
    if DebitStep(b, u, amount, origin).Ok? {
      PostSound(b, LedgerEntry(u, Debit, amount, origin), b.wallets[u] - amount);
    }
  }
}
