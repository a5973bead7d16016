/**
 Runs of the money services and of the game services over one pair of tables, with the purchase of
 multipliers, which moves both (src/services/benefits/purchase-benefits.service.ts): each committed
 purchase is one debit in the ledger and one stocking of units, and there are no others.
 */
module PurchaseRuns {
  import opened Common
  import opened MoneyTables
  import opened GameTables
  import Benefits
  import Payments
  import MesaInvariant
  import MoneyRuns
  import GameRuns
  import BenefitRuns

  datatype World = World(money: Money, game: Tables)

  const NOTHING := World(NO_MONEY, EMPTY)

  datatype Step =
    | OfMoney(service: MoneyRuns.Action, now: Time)
    | OfGame(action: GameRuns.Action)
    | BuyUnits(user: UserId, package: Benefits.Package)

  /** The debit and the stocking of a purchase do not run alone. */
  predicate Whole(s: Step) {
    match s
    case OfMoney(a, _) => !(a.Move? && a.transfer.Buy?)
    case OfGame(a) => !a.StockUp?
    case BuyUnits(_, _) => true
  }

  function BuyStep(w: World, u: UserId, p: Benefits.Package): World {
    match Payments.PurchaseStep(w.money.bank, w.game, u, p)
    case Ok(next) => World(w.money.(bank := next.0), next.1)
    case Err(_) => w
  }

  /** What one transaction leaves; the money services read the game tables of that moment. */
  ghost function Apply(w: World, s: Step): World {
    match s
    case OfMoney(a, now) => World(MoneyRuns.Apply(w.money, MoneyRuns.Event(a, now, w.game)), w.game)
    case OfGame(a) => World(w.money, GameRuns.Apply(w.game, a))
    case BuyUnits(u, p) => BuyStep(w, u, p)
  }

  ghost function Run(w: World, steps: seq<Step>): World {
    if |steps| == 0 then w else Apply(Run(w, steps[..|steps| - 1]), steps[|steps| - 1])
  }

  // ---------- a run is a run of the money services beside a run of the game ----------

  function EventsOf(w: World, s: Step): seq<MoneyRuns.Event> {
    match s
    case OfMoney(a, now) => [MoneyRuns.Event(a, now, w.game)]
    case OfGame(_) => []
    case BuyUnits(u, p) => [MoneyRuns.Event(MoneyRuns.Move(MoneyRuns.Buy(u, p)), 0, w.game)]
  }

  function ActionsOf(w: World, s: Step): seq<GameRuns.Action> {
    match s
    case OfMoney(_, _) => []
    case OfGame(a) => [a]
    case BuyUnits(u, p) =>
      if Payments.PurchaseStep(w.money.bank, w.game, u, p).Ok? then [GameRuns.StockUp(u, p)] else []
  }

  ghost function Events(w: World, steps: seq<Step>): seq<MoneyRuns.Event> {
    if |steps| == 0 then []
    else
      var n := |steps| - 1;
      Events(w, steps[..n]) + EventsOf(Run(w, steps[..n]), steps[n])
  }

  ghost function Actions(w: World, steps: seq<Step>): seq<GameRuns.Action> {
    if |steps| == 0 then []
    else
      var n := |steps| - 1;
      Actions(w, steps[..n]) + ActionsOf(Run(w, steps[..n]), steps[n])
  }

  lemma RunEvent(money: Money, events: seq<MoneyRuns.Event>, e: MoneyRuns.Event)
    ensures MoneyRuns.Run(money, events + [e]) == MoneyRuns.Apply(MoneyRuns.Run(money, events), e)
  {
    hide MoneyRuns.Apply;
    assert (events + [e])[..|events|] == events;
  }

  lemma RunAction(t: Tables, actions: seq<GameRuns.Action>, a: GameRuns.Action)
    ensures GameRuns.Run(t, actions + [a]) == GameRuns.Apply(GameRuns.Run(t, actions), a)
  {
    hide GameRuns.Apply;
    assert (actions + [a])[..|actions|] == actions;
  }

  lemma BoughtMoney(w: World, u: UserId, p: Benefits.Package)
    ensures BuyStep(w, u, p).money ==
            MoneyRuns.Apply(w.money, MoneyRuns.Event(MoneyRuns.Move(MoneyRuns.Buy(u, p)), 0, w.game))
  {
  }

  lemma BoughtUnits(w: World, u: UserId, p: Benefits.Package)
    ensures BuyStep(w, u, p).game ==
            if Payments.PurchaseStep(w.money.bank, w.game, u, p).Ok? then GameRuns.Apply(w.game, GameRuns.StockUp(u, p))
            else w.game
  {
  }

  lemma StepApart(w: World, s: Step, start: World, events: seq<MoneyRuns.Event>, actions: seq<GameRuns.Action>)
    requires w.money == MoneyRuns.Run(start.money, events) && w.game == GameRuns.Run(start.game, actions)
    ensures Apply(w, s).money == MoneyRuns.Run(start.money, events + EventsOf(w, s))
    ensures Apply(w, s).game == GameRuns.Run(start.game, actions + ActionsOf(w, s))
  {
    hide MoneyRuns.Apply, GameRuns.Apply, MoneyRuns.Run, GameRuns.Run, BuyStep, Payments.PurchaseStep;
    assert events + [] == events && actions + [] == actions;
    match s
    case OfMoney(a, now) => RunEvent(start.money, events, MoneyRuns.Event(a, now, w.game));
    case OfGame(a) => RunAction(start.game, actions, a);
    case BuyUnits(u, p) =>
      RunEvent(start.money, events, MoneyRuns.Event(MoneyRuns.Move(MoneyRuns.Buy(u, p)), 0, w.game));
      RunAction(start.game, actions, GameRuns.StockUp(u, p));
      BoughtMoney(w, u, p);
      BoughtUnits(w, u, p);
  }

  /** Whatever holds over all runs of the money services, and of the game, holds over all runs of both. */
  lemma {:induction false} RunsApart(w: World, steps: seq<Step>)
    ensures Run(w, steps).money == MoneyRuns.Run(w.money, Events(w, steps))
    ensures Run(w, steps).game == GameRuns.Run(w.game, Actions(w, steps))
  {
    hide Apply, EventsOf, ActionsOf;
    if |steps| == 0 {
      RunsOfNothing(w);
    } else {
      var n := |steps| - 1;
      RunsApart(w, steps[..n]);
      StepApart(Run(w, steps[..n]), steps[n], w, Events(w, steps[..n]), Actions(w, steps[..n]));
    }
  }

  lemma RunsOfNothing(w: World)
    ensures MoneyRuns.Run(w.money, []) == w.money && GameRuns.Run(w.game, []) == w.game
  {
  }

  // ---------- purchases ----------

  datatype Sale = Sale(user: UserId, package: Benefits.Package)

  /** The purchases that committed, in order. */
  function SalesOf(w: World, s: Step): seq<Sale> {
    match s
    case BuyUnits(u, p) => if Payments.PurchaseStep(w.money.bank, w.game, u, p).Ok? then [Sale(u, p)] else []
    case _ => []
  }

  ghost function Sales(w: World, steps: seq<Step>): seq<Sale> {
    if |steps| == 0 then []
    else
      var n := |steps| - 1;
      Sales(w, steps[..n]) + SalesOf(Run(w, steps[..n]), steps[n])
  }

  function SaleRow(s: Sale): LedgerEntry { LedgerEntry(s.user, Debit, Benefits.PackageCost(s.package), Purchase) }

  function SaleRows(sales: seq<Sale>): seq<LedgerEntry> {
    if |sales| == 0 then [] else SaleRows(sales[..|sales| - 1]) + [SaleRow(sales[|sales| - 1])]
  }

  /** The rows of the ledger that stand for purchases. */
  function PurchaseRows(ledger: seq<LedgerEntry>): seq<LedgerEntry> {
    if |ledger| == 0 then []
    else
      var last := ledger[|ledger| - 1];
      PurchaseRows(ledger[..|ledger| - 1]) + (if last.origin.Purchase? then [last] else [])
  }

  /** The stockings among the actions of the game. */
  function Stockings(actions: seq<GameRuns.Action>): seq<Sale> {
    if |actions| == 0 then []
    else
      var last := actions[|actions| - 1];
      Stockings(actions[..|actions| - 1]) + (if last.StockUp? then [Sale(last.user, last.package)] else [])
  }

  lemma PurchaseRowsAppend(ledger: seq<LedgerEntry>, e: LedgerEntry)
    ensures PurchaseRows(ledger + [e]) == PurchaseRows(ledger) + (if e.origin.Purchase? then [e] else [])
  {
    assert (ledger + [e])[..|ledger|] == ledger;
  }

  lemma {:induction false} OtherRows(ledger: seq<LedgerEntry>, rows: seq<LedgerEntry>)
    requires forall k | 0 <= k < |rows| :: !rows[k].origin.Purchase?
    ensures PurchaseRows(ledger + rows) == PurchaseRows(ledger)
  {
    if |rows| == 0 {
      assert ledger + rows == ledger;
    } else {
      var n := |rows| - 1;
      OtherRows(ledger, rows[..n]);
      PurchaseRowsAppend(ledger + rows[..n], rows[n]);
      assert ledger + rows == ledger + rows[..n] + [rows[n]];
    }
  }

  lemma GrownSellsNothing(money: Money, next: Money)
    requires MoneyRuns.Grown(money, next)
    ensures PurchaseRows(next.bank.ledger) == PurchaseRows(money.bank.ledger)
  {
    var n := |money.bank.ledger|;
    assert next.bank.ledger == next.bank.ledger[..n] + next.bank.ledger[n..];
    OtherRows(money.bank.ledger, next.bank.ledger[n..]);
  }

  lemma CreditSellsNothing(b: Bank, u: UserId, amount: int, origin: Origin, next: Bank)
    requires CreditStep(b, u, amount, origin) == Ok(next) && !origin.Purchase?
    ensures PurchaseRows(next.ledger) == PurchaseRows(b.ledger)
  {
    PurchaseRowsAppend(b.ledger, LedgerEntry(u, Credit, amount, origin));
  }

  lemma DebitRow(b: Bank, u: UserId, amount: int, origin: Origin, next: Bank)
    requires DebitStep(b, u, amount, origin) == Ok(next)
    ensures next.ledger == b.ledger + [LedgerEntry(u, Debit, amount, origin)]
  {
  }

  lemma AdjustSellsNothing(b: Bank, u: UserId, kind: Kind, amount: int, next: Bank)
    requires Payments.AdminStep(b, u, kind, amount) == Ok(next)
    ensures PurchaseRows(next.ledger) == PurchaseRows(b.ledger)
  {
    hide CreditStep, DebitStep;
    if kind == Credit {
      CreditSellsNothing(b, u, amount, AdminAdjustment, next);
    } else {
      DebitRow(b, u, amount, AdminAdjustment, next);
      PurchaseRowsAppend(b.ledger, LedgerEntry(u, Debit, amount, AdminAdjustment));
    }
  }

  lemma NotifySellsNothing(money: Money, w: Payments.Webhook, now: Time, next: Money)
    requires Payments.WebhookStep(money, w, now) == Ok(next)
    ensures PurchaseRows(next.bank.ledger) == PurchaseRows(money.bank.ledger)
  {
    hide Payments.WebhookStep, CreditStep;
    var id := MoneyRuns.WebhookCases(money, w, now, next);
    if next.bank != money.bank {
      var p := money.payments[id];
      CreditSellsNothing(money.bank, p.userId, p.coinsAmount + p.bonusCoins, PaymentCredit(id), next.bank);
    }
  }

  lemma TransferSellsNothing(money: Money, t: MoneyRuns.Transfer, now: Time, next: Money)
    requires !t.Buy? && next == MoneyRuns.ApplyTransfer(money, t, now)
    ensures PurchaseRows(next.bank.ledger) == PurchaseRows(money.bank.ledger)
  {
    hide PurchaseRows, Payments.WebhookStep, Payments.AdminStep;
    if next.bank != money.bank {
      match t
      case Adjust(u, kind, amount) => AdjustSellsNothing(money.bank, u, kind, amount, next.bank);
      case Notify(w) => NotifySellsNothing(money, w, now, next);
      case _ =>
    }
  }

  lemma EventSellsNothing(money: Money, e: MoneyRuns.Event, next: Money)
    requires MoneyRuns.AllSound(money) && next == MoneyRuns.Apply(money, e)
    requires !(e.action.Move? && e.action.transfer.Buy?)
    ensures PurchaseRows(next.bank.ledger) == PurchaseRows(money.bank.ledger)
  {
    hide PurchaseRows, MesaInvariant.Sound, MoneyRuns.Grown, MoneyRuns.PaymentsSound;
    match e.action
    case Enter(entry) =>
      MoneyRuns.EntryKeeps(money, entry, e.game, e.now, next);
      GrownSellsNothing(money, next);
    case Manage(desk) =>
      MoneyRuns.DeskKeeps(money, desk, e.game, e.now, next);
      GrownSellsNothing(money, next);
    case Move(transfer) => TransferSellsNothing(money, transfer, e.now, next);
  }

  lemma PurchaseSells(w: World, u: UserId, p: Benefits.Package)
    ensures PurchaseRows(BuyStep(w, u, p).money.bank.ledger) ==
            PurchaseRows(w.money.bank.ledger) + SaleRows(SalesOf(w, BuyUnits(u, p)))
  {
    hide PurchaseRows, Payments.PurchaseStep, SaleRows;
    var row := SaleRow(Sale(u, p));
    OneSale(Sale(u, p));
    NoSale();
    BuyLedger(w, u, p);
    if Payments.PurchaseStep(w.money.bank, w.game, u, p).Ok? {
      PurchaseRowsAppend(w.money.bank.ledger, row);
    } else {
      assert PurchaseRows(w.money.bank.ledger) + [] == PurchaseRows(w.money.bank.ledger);
    }
  }

  lemma NoSale()
    ensures SaleRows([]) == []
  {
  }

  lemma OneSale(s: Sale)
    ensures SaleRows([s]) == [SaleRow(s)]
  {
    assert [s][..0] == [];
  }

  lemma BuyLedger(w: World, u: UserId, p: Benefits.Package)
    ensures Payments.PurchaseStep(w.money.bank, w.game, u, p).Ok? ==>
              BuyStep(w, u, p).money.bank.ledger == w.money.bank.ledger + [SaleRow(Sale(u, p))]
  {
    hide DebitStep;
    if Payments.PurchaseStep(w.money.bank, w.game, u, p).Ok? {
      DebitRow(w.money.bank, u, Benefits.PackageCost(p), Purchase, BuyStep(w, u, p).money.bank);
    }
  }

  lemma StepSells(w: World, s: Step)
    requires MoneyRuns.AllSound(w.money) && Whole(s)
    ensures PurchaseRows(Apply(w, s).money.bank.ledger) ==
            PurchaseRows(w.money.bank.ledger) + SaleRows(SalesOf(w, s))
  {
    hide PurchaseRows, MoneyRuns.AllSound, MoneyRuns.Apply, GameRuns.Apply, BuyStep, Payments.PurchaseStep;
    match s
    case OfMoney(a, now) =>
      EventSellsNothing(w.money, MoneyRuns.Event(a, now, w.game), Apply(w, s).money);
    case OfGame(_) =>
    case BuyUnits(u, p) => PurchaseSells(w, u, p);
  }

  lemma {:induction false} SaleRowsAppend(a: seq<Sale>, b: seq<Sale>)
    ensures SaleRows(a + b) == SaleRows(a) + SaleRows(b)
  {
    if |b| == 0 {
      assert a + b == a;
    } else {
      assert (a + b)[..|a + b| - 1] == a + b[..|b| - 1];
      SaleRowsAppend(a, b[..|b| - 1]);
    }
  }

  lemma StockingsAppend(actions: seq<GameRuns.Action>, w: World, s: Step)
    requires Whole(s)
    ensures Stockings(actions + ActionsOf(w, s)) == Stockings(actions) + SalesOf(w, s)
  {
    hide Payments.PurchaseStep;
    var more := ActionsOf(w, s);
    if |more| == 0 {
      assert actions + more == actions;
    } else {
      assert (actions + more)[..|actions|] == actions;
    }
  }

  /**
   Over every run of both: the purchase rows of the ledger are the committed purchases, one debit of the
   package's cost each, in order, and the stockings of units are the same purchases.
   */
  lemma {:induction false} EveryUnitIsPaidFor(w: World, steps: seq<Step>)
    requires MoneyRuns.AllSound(w.money) && forall k | 0 <= k < |steps| :: Whole(steps[k])
    ensures PurchaseRows(Run(w, steps).money.bank.ledger) ==
            PurchaseRows(w.money.bank.ledger) + SaleRows(Sales(w, steps))
    ensures Stockings(Actions(w, steps)) == Sales(w, steps)
  {
    hide Apply, MoneyRuns.AllSound, MoneyRuns.Run, GameRuns.Run, PurchaseRows, SalesOf, ActionsOf, SaleRows, Whole;
    NoSale();
    if |steps| > 0 {
      var n := |steps| - 1;
      var before := Run(w, steps[..n]);
      EveryUnitIsPaidFor(w, steps[..n]);
      RunsApart(w, steps[..n]);
      MoneyRuns.RunKeeps(w.money, Events(w, steps[..n]));
      StepSells(before, steps[n]);
      SaleRowsAppend(Sales(w, steps[..n]), SalesOf(before, steps[n]));
      StockingsAppend(Actions(w, steps[..n]), before, steps[n]);
    }
  }

  // ---------- what a user spent, and the units it bought ----------

  /** Coins a user's purchase rows took. */
  function Spent(rows: seq<LedgerEntry>, u: UserId): int {
    if |rows| == 0 then 0
    else
      var last := rows[|rows| - 1];
      Spent(rows[..|rows| - 1], u) + (if last.userId == u && last.origin.Purchase? then last.amount else 0)
  }

  function Price(sales: seq<Sale>, u: UserId): int {
    if |sales| == 0 then 0
    else
      var last := sales[|sales| - 1];
      Price(sales[..|sales| - 1], u) + (if last.user == u then Benefits.PackageCost(last.package) else 0)
  }

  /** Units a user's sales brought. */
  function UnitsSold(sales: seq<Sale>, u: UserId, b: BenefitType): nat {
    if |sales| == 0 then 0
    else
      var last := sales[|sales| - 1];
      UnitsSold(sales[..|sales| - 1], u, b)
        + (if last.user == u && Benefits.PackageBenefit(last.package) == b then Benefits.PackageQuantity(last.package)
           else 0)
  }

  lemma {:induction false} SpentOnPurchases(ledger: seq<LedgerEntry>, u: UserId)
    ensures Spent(ledger, u) == Spent(PurchaseRows(ledger), u)
  {
    if |ledger| > 0 {
      var n := |ledger| - 1;
      SpentOnPurchases(ledger[..n], u);
      if ledger[n].origin.Purchase? {
        assert (PurchaseRows(ledger[..n]) + [ledger[n]])[..|PurchaseRows(ledger[..n])|] == PurchaseRows(ledger[..n]);
      } else {
        assert PurchaseRows(ledger) == PurchaseRows(ledger[..n]);
      }
    }
  }

  lemma {:induction false} SalesCost(sales: seq<Sale>, u: UserId)
    ensures Spent(SaleRows(sales), u) == Price(sales, u)
  {
    if |sales| > 0 {
      var n := |sales| - 1;
      SalesCost(sales[..n], u);
      assert SaleRows(sales)[..|SaleRows(sales[..n])|] == SaleRows(sales[..n]);
    }
  }

  lemma OneMoreSold(sales: seq<Sale>, s: Sale, u: UserId, b: BenefitType)
    ensures UnitsSold(sales + [s], u, b) ==
            UnitsSold(sales, u, b)
            + (if s.user == u && Benefits.PackageBenefit(s.package) == b then Benefits.PackageQuantity(s.package)
               else 0)
  {
    assert (sales + [s])[..|sales|] == sales;
  }

  lemma {:induction false} StockedUnits(actions: seq<GameRuns.Action>, u: UserId, b: BenefitType)
    ensures BenefitRuns.Bought(actions, u, b) == UnitsSold(Stockings(actions), u, b)
  {
    hide Benefits.PackageQuantity, Benefits.PackageBenefit, UnitsSold;
    if |actions| == 0 {
      NothingBought(u, b);
    } else {
      var n := |actions| - 1;
      StockedUnits(actions[..n], u, b);
      if actions[n].StockUp? {
        OneMoreSold(Stockings(actions[..n]), Sale(actions[n].user, actions[n].package), u, b);
      } else {
        assert Stockings(actions) == Stockings(actions[..n]);
      }
    }
  }

  lemma NothingBought(u: UserId, b: BenefitType)
    ensures UnitsSold([], u, b) == 0
  {
  }

  /**
   From nothing, over every run: what a user's purchases debited is the price of the packages bought,
   and the units of those same packages, with what was granted less what admins took, are what the
   user still has, has on tickets, or saw expire.
   */
  lemma CoinsBuyUnits(steps: seq<Step>, u: UserId, b: BenefitType)
    requires forall k | 0 <= k < |steps| :: Whole(steps[k])
    ensures var w, sales, actions := Run(NOTHING, steps), Sales(NOTHING, steps), Actions(NOTHING, steps);
            && Spent(w.money.bank.ledger, u) == Price(sales, u)
            && BenefitRuns.Units(w.game, u, b) + BenefitRuns.ExpiredOver(EMPTY, actions, u, b) ==
               BenefitRuns.Given(EMPTY, actions, u, b) + UnitsSold(sales, u, b)
  {
    hide Run, Sales, Actions, Whole, PurchaseRows, BenefitRuns.Units, BenefitRuns.ExpiredOver, BenefitRuns.Given;
    var w, sales, actions := Run(NOTHING, steps), Sales(NOTHING, steps), Actions(NOTHING, steps);
    NothingSold();
    EveryUnitIsPaidFor(NOTHING, steps);
    RunsApart(NOTHING, steps);
    SpentOnPurchases(w.money.bank.ledger, u);
    assert [] + SaleRows(sales) == SaleRows(sales);
    SalesCost(sales, u);
    StockedUnits(actions, u, b);
    BenefitRuns.UnitsAreConserved(actions, u, b);
  }

  lemma NothingSold()
    ensures MoneyRuns.AllSound(NO_MONEY) && PurchaseRows(NO_MONEY.bank.ledger) == []
  {
    MoneyRuns.ReachableSound([]);
  }
}
