/**
 Spending and buying multipliers (src/services/benefits/consume-benefits.service.ts,
 purchase-benefits.service.ts) and the ticket that spends them
 (src/services/ticket/create-ticket.service.ts).
 */
module Benefits {
  import opened Common
  import opened TicketScore
  import opened GameTables

  datatype Consumption = Consumption(freeUsed: int, inventoryUsed: int)

  datatype Failure =
    | RoundNotOpen | RoundNotOpenYet | PredictionsClosed
    | InvalidPrediction | InvalidMultipliers | TicketExists | UserMissing
    | InsufficientBenefits(benefit: BenefitType, missing: int)
    | InvalidAmount | RowMissing

  function FreeOf(free: map<(UserId, nat), FreeBenefit>, u: UserId, roundId: nat, benefit: BenefitType): int {
    if (u, roundId) !in free then 0
    else if benefit == Double then free[(u, roundId)].freeDoubles
    else free[(u, roundId)].freeSuperDoubles
  }

  function InventoryOf(t: Tables, u: UserId, benefit: BenefitType): int {
    if (u, benefit) in t.inventory then t.inventory[(u, benefit)] else 0
  }

  function WithFree(row: FreeBenefit, benefit: BenefitType, left: int): FreeBenefit {
    if benefit == Double then row.(freeDoubles := left) else row.(freeSuperDoubles := left)
  }

  /** How much of a request the free benefits cover. */
  function FreeShare(t: Tables, u: UserId, roundId: nat, benefit: BenefitType, quantity: nat): nat {
    var free := FreeOf(t.freeBenefits, u, roundId, benefit);
    if free <= 0 then 0 else if free < quantity then free else quantity
  }

  /** Free benefits first, then the inventory for all of the rest; or nothing. */
  function ConsumeStep(t: Tables, u: UserId, roundId: nat, benefit: BenefitType,
                       quantity: nat): Result<(Tables, Consumption), Failure> {
    var freeUsed := FreeShare(t, u, roundId, benefit, quantity);
    var rest := quantity - freeUsed;
    var inventory := InventoryOf(t, u, benefit);
    if rest > 0 && inventory < rest then
      Err(InsufficientBenefits(benefit, if rest - inventory > 0 then rest - inventory else 0))
    else
      var t1 := if freeUsed == 0 then t
                else t.(freeBenefits := t.freeBenefits[(u, roundId) :=
                          WithFree(t.freeBenefits[(u, roundId)], benefit,
                            FreeOf(t.freeBenefits, u, roundId, benefit) - freeUsed)]);
      Ok((if rest == 0 then t1 else t1.(inventory := t1.inventory[(u, benefit) := inventory - rest]),
          Consumption(freeUsed, rest)))
  }

  method Consume(db: GameDb, u: UserId, roundId: nat, benefit: BenefitType, quantity: nat)
                 returns (r: Result<Consumption, Failure>)
    modifies db`freeBenefits, db`inventory
    ensures match ConsumeStep(old(db.View()), u, roundId, benefit, quantity)
            case Ok(next) => r == Ok(next.1) && db.View() == next.0
            case Err(e) => r == Err(e) && db.View() == old(db.View())
  {
    var freeBenefits := db.freeBenefits;
    var remaining, freeUsed, inventoryUsed, inventoryAvailable := quantity as int, 0, 0, 0;
    if (u, roundId) in db.freeBenefits {
      var row := db.freeBenefits[(u, roundId)];
      var free := if benefit == Double then row.freeDoubles else row.freeSuperDoubles;
      if free > 0 {
        var used := if free < remaining then free else remaining;
        if used > 0 {
          db.freeBenefits := db.freeBenefits[(u, roundId) := WithFree(row, benefit, free - used)];
        }
        remaining, freeUsed := remaining - used, freeUsed + used;
      }
    }
    if remaining > 0 {
      inventoryAvailable := if (u, benefit) in db.inventory then db.inventory[(u, benefit)] else 0;
      if (u, benefit) in db.inventory && inventoryAvailable >= remaining {
        db.inventory := db.inventory[(u, benefit) := inventoryAvailable - remaining];
        inventoryUsed, remaining := inventoryUsed + remaining, 0;
      }
    }
    if remaining > 0 {
      db.freeBenefits := freeBenefits;
      return Err(InsufficientBenefits(benefit,
        if remaining - inventoryAvailable > 0 then remaining - inventoryAvailable else 0));
    }
    r := Ok(Consumption(freeUsed, inventoryUsed));
  }

  // ---------- create-ticket.service.ts ----------

  function Count(multipliers: seq<int>, m: int): nat {
    if |multipliers| == 0 then 0
    else Count(multipliers[..|multipliers| - 1], m) + (if multipliers[|multipliers| - 1] == m then 1 else 0)
  }

  predicate HasTicket(tickets: seq<Ticket>, u: UserId) {
    exists k :: 0 <= k < |tickets| && tickets[k].userId == u
  }

  /** What is wrong with a submission before any benefit is spent. */
  function SubmissionError(t: Tables, u: UserId, roundId: nat, prediction: seq<string>, multipliers: seq<int>,
                           now: Time): Option<Failure> {
    if roundId >= |t.rounds| then Some(RoundNotOpen)
    else
      var round := t.rounds[roundId];
      if round.status != Open then (if now < round.openAt then Some(RoundNotOpenYet) else Some(RoundNotOpen))
      else if now >= round.closeAt then Some(PredictionsClosed)
      else if !ValidPrediction(prediction) then Some(InvalidPrediction)
      else if !ValidMultipliers(multipliers) then Some(InvalidMultipliers)
      else if HasTicket(round.tickets, u) then Some(TicketExists)
      else if u !in t.users then Some(UserMissing)
      else None
  }

  function ConsumeIfAny(t: Tables, u: UserId, roundId: nat, benefit: BenefitType,
                        quantity: nat): Result<Tables, Failure> {
    if quantity == 0 then Ok(t)
    else match ConsumeStep(t, u, roundId, benefit, quantity)
      case Ok(next) => Ok(next.0)
      case Err(e) => Err(e)
  }

  function SubmitStep(t: Tables, u: UserId, roundId: nat, prediction: seq<string>, multipliers: seq<int>,
                      now: Time): Result<Tables, Failure> {
    var error := SubmissionError(t, u, roundId, prediction, multipliers, now);
    if error.Some? then Err(error.value)
    else
      var afterDoubles := ConsumeIfAny(t, u, roundId, Double, Count(multipliers, 2));
      if afterDoubles.Err? then afterDoubles
      else
        var afterSupers := ConsumeIfAny(afterDoubles.value, u, roundId, SuperDouble, Count(multipliers, 4));
        if afterSupers.Err? then afterSupers
        else Ok(WithTicket(afterSupers.value, roundId, Ticket(u, prediction, multipliers, 0, Awaiting)))
  }

  function WithTicket(t: Tables, roundId: nat, ticket: Ticket): Tables {
    if roundId >= |t.rounds| then t
    else t.(rounds := t.rounds[roundId := t.rounds[roundId].(tickets := t.rounds[roundId].tickets + [ticket])])
  }

  method CountMultipliers(multipliers: seq<int>) returns (valid: bool, doubles: nat, superDoubles: nat)
    ensures valid <==> forall i | 0 <= i < |multipliers| :: ValidMultiplier(multipliers[i])
    ensures valid ==> doubles == Count(multipliers, 2) && superDoubles == Count(multipliers, 4)
  {
    doubles, superDoubles := 0, 0;
    for i := 0 to |multipliers|
      invariant forall j | 0 <= j < i :: ValidMultiplier(multipliers[j])
      invariant doubles == Count(multipliers[..i], 2) && superDoubles == Count(multipliers[..i], 4)
    {
      var m := multipliers[i];
      assert multipliers[..i + 1][..i] == multipliers[..i];
      if m != 1 && m != 2 && m != 4 {
        return false, 0, 0;
      }
      if m == 2 {
        doubles := doubles + 1;
      }
      if m == 4 {
        superDoubles := superDoubles + 1;
      }
    }
    assert multipliers[..|multipliers|] == multipliers;
    valid := true;
  }

  method Submit(db: GameDb, u: UserId, roundId: nat, prediction: seq<string>, multipliers: seq<int>, now: Time)
                returns (r: Result<(), Failure>)
    modifies db`rounds, db`freeBenefits, db`inventory
    ensures match SubmitStep(old(db.View()), u, roundId, prediction, multipliers, now)
            case Ok(next) => r == Ok(()) && db.View() == next
            case Err(e) => r == Err(e) && db.View() == old(db.View())
  {
    var error := SubmissionError(db.View(), u, roundId, prediction, multipliers, now);
    if error.Some? {
      return Err(error.value);
    }
    var freeBenefits, inventory := db.freeBenefits, db.inventory;
    var valid, doubles, superDoubles := CountMultipliers(multipliers);
    if doubles > 0 {
      var consumption := Consume(db, u, roundId, Double, doubles);
      if consumption.Err? {
        return Err(consumption.error);
      }
    }
    if superDoubles > 0 {
      var consumption := Consume(db, u, roundId, SuperDouble, superDoubles);
      if consumption.Err? {
        db.freeBenefits, db.inventory := freeBenefits, inventory;
        return Err(consumption.error);
      }
    }
    var round := db.rounds[roundId];
    db.rounds := db.rounds[roundId := round.(tickets := round.tickets
      + [Ticket(u, prediction, multipliers, 0, Awaiting)])];
    r := Ok(());
  }

  // ---------- purchase-benefits.service.ts ----------

  datatype Package = DoubleSingle | DoubleCombo | DoubleTotal | SuperSingle | SuperMaster

  function PackageBenefit(p: Package): BenefitType {
    match p
    case DoubleSingle => Double case DoubleCombo => Double case DoubleTotal => Double
    case SuperSingle => SuperDouble case SuperMaster => SuperDouble
  }

  function PackageQuantity(p: Package): nat {
    match p
    case DoubleSingle => 1 case DoubleCombo => 3 case DoubleTotal => 10
    case SuperSingle => 1 case SuperMaster => 4
  }

  function PackageCost(p: Package): nat {
    match p
    case DoubleSingle => 4 case DoubleCombo => 10 case DoubleTotal => 20
    case SuperSingle => 5 case SuperMaster => 20
  }

  /** The inventory side of a purchase. */
  function StockStep(t: Tables, u: UserId, p: Package): Tables {
    t.(inventory := t.inventory[(u, PackageBenefit(p)) := InventoryOf(t, u, PackageBenefit(p)) + PackageQuantity(p)])
  }

  method Stock(db: GameDb, u: UserId, p: Package)
    modifies db`inventory
    ensures db.View() == StockStep(old(db.View()), u, p)
  {
    var key := (u, PackageBenefit(p));
    var quantity := if key in db.inventory then db.inventory[key] else 0;
    db.inventory := db.inventory[key := quantity + PackageQuantity(p)];
  }

  // ---------- admin-benefits.service.ts, admin-benefits-paid.service.ts ----------

  /** Promotional units for one round; the row is opened if there is none, whatever the state of the round. */
  function CreditFreeStep(t: Tables, u: UserId, roundId: nat, benefit: BenefitType,
                          amount: int): Result<Tables, Failure> {
    if amount <= 0 then Err(InvalidAmount)
    else if u !in t.users || roundId >= |t.rounds| then Err(RowMissing)
    else
      var row := if (u, roundId) in t.freeBenefits then t.freeBenefits[(u, roundId)] else FreeBenefit(0, 0);
      Ok(t.(freeBenefits := t.freeBenefits[(u, roundId) := WithFree(row, benefit,
        FreeOf(t.freeBenefits, u, roundId, benefit) + amount)]))
  }

  method CreditFree(db: GameDb, u: UserId, roundId: nat, benefit: BenefitType, amount: int)
                    returns (r: Result<(), Failure>)
    modifies db`freeBenefits
    ensures match CreditFreeStep(old(db.View()), u, roundId, benefit, amount)
            case Ok(next) => r == Ok(()) && db.View() == next
            case Err(e) => r == Err(e) && db.View() == old(db.View())
  {
    if amount <= 0 {
      return Err(InvalidAmount);
    }
    if u !in db.users || roundId >= |db.rounds| {
      return Err(RowMissing);
    }
    if (u, roundId) in db.freeBenefits {
      var row := db.freeBenefits[(u, roundId)];
      db.freeBenefits := db.freeBenefits[(u, roundId) :=
        if benefit == Double then row.(freeDoubles := row.freeDoubles + amount)
        else row.(freeSuperDoubles := row.freeSuperDoubles + amount)];
    } else {
      db.freeBenefits := db.freeBenefits[(u, roundId) :=
        FreeBenefit(if benefit == Double then amount else 0, if benefit == SuperDouble then amount else 0)];
    }
    r := Ok(());
  }

  /** Units into the inventory. */
  function CreditPaidStep(t: Tables, u: UserId, benefit: BenefitType, amount: int): Result<Tables, Failure> {
    if amount <= 0 then Err(InvalidAmount)
    else if u !in t.users then Err(RowMissing)
    else Ok(t.(inventory := t.inventory[(u, benefit) := InventoryOf(t, u, benefit) + amount]))
  }

  method CreditPaid(db: GameDb, u: UserId, benefit: BenefitType, amount: int) returns (r: Result<(), Failure>)
    modifies db`inventory
    ensures match CreditPaidStep(old(db.View()), u, benefit, amount)
            case Ok(next) => r == Ok(()) && db.View() == next
            case Err(e) => r == Err(e) && db.View() == old(db.View())
  {
    if amount <= 0 {
      return Err(InvalidAmount);
    }
    if u !in db.users {
      return Err(RowMissing);
    }
    var quantity := if (u, benefit) in db.inventory then db.inventory[(u, benefit)] else 0;
    db.inventory := db.inventory[(u, benefit) := quantity + amount];
    r := Ok(());
  }

  /** Units out of the inventory, if it holds as many. */
  function DebitPaidStep(t: Tables, u: UserId, benefit: BenefitType, amount: int): Result<Tables, Failure> {
    if amount <= 0 then Err(InvalidAmount)
    else if InventoryOf(t, u, benefit) < amount
      then Err(InsufficientBenefits(benefit, amount - InventoryOf(t, u, benefit)))
    else Ok(t.(inventory := t.inventory[(u, benefit) := InventoryOf(t, u, benefit) - amount]))
  }

  method DebitPaid(db: GameDb, u: UserId, benefit: BenefitType, amount: int) returns (r: Result<(), Failure>)
    modifies db`inventory
    ensures match DebitPaidStep(old(db.View()), u, benefit, amount)
            case Ok(next) => r == Ok(()) && db.View() == next
            case Err(e) => r == Err(e) && db.View() == old(db.View())
  {
    if amount <= 0 {
      return Err(InvalidAmount);
    }
    if (u, benefit) !in db.inventory || db.inventory[(u, benefit)] < amount {
      var held := if (u, benefit) in db.inventory then db.inventory[(u, benefit)] else 0;
      return Err(InsufficientBenefits(benefit, amount - held));
    }
    db.inventory := db.inventory[(u, benefit) := db.inventory[(u, benefit)] - amount];
    r := Ok(());
  }
}
