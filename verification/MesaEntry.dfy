/**
 Ways into a Mesa: creation (src/services/bolao/create-bolao.service.ts), joining
 (join-bolao.service.ts), review of a pending request (review-bolao-request.service.ts) and
 invites (create-bolao-invite.service.ts, use-bolao-invite.service.ts,
 bolao-invite-reservation.ts). Each is one transaction
 that commits whole or leaves the tables as they were.
 */
module MesaEntry {
  import opened Common
  import opened BolaoPrize
  import opened MoneyTables
  import opened MesaIntegrity
  import GameTables
  import RankingWindowScore

  datatype Failure =
    | UserNotFound | ProRequired | MesaNotFound | MesaNotActive | RegistrationNotStarted | RegistrationClosed
    | NoCapacity | MesaFull | CreatorCannotJoin | AlreadyParticipant | AlreadyPaid
    | PaymentFailed(wallet: WalletFailure)
    | NotTheCreator | RequestNotFound | AlreadyReviewed
    | InviteNotFound | InviteInactive | InviteExpired | InviteExhausted | BadMaxUses | BadExpiry
    | BadTerms(terms: TermsError) | BadRules | BadName | BadDates | BadDistribution(distribution: DistributionError)

  // ---------- domain/subscription.ts ----------

  /** An active PRO subscription at an instant; only settlement looks at its start. */
  predicate HasActivePro(subscriptions: map<UserId, Subscription>, u: UserId, at: Time, checkStart: bool) {
    && u in subscriptions
    && subscriptions[u].status != SubExpired
    && (checkStart ==> subscriptions[u].startAt <= at)
    && (subscriptions[u].endAt.None? || subscriptions[u].endAt.value > at)
  }

  // ---------- bolao-registration-window.service.ts ----------

  function WindowError(m: Mesa, now: Time): Option<Failure> {
    if m.startDate.Some? && m.startDate.value > now then Some(RegistrationNotStarted)
    else if m.endDate.Some? && m.endDate.value <= now then Some(RegistrationClosed)
    else None
  }

  function CapacityError(m: Mesa): Option<Failure> {
    if m.maxParticipants.None? || m.maxParticipants.value <= 0 then Some(NoCapacity)
    else if m.currentParticipants >= m.maxParticipants.value then Some(MesaFull)
    else None
  }

  // ---------- participants ----------

  /** Where the row of a user is. */
  function IndexOf(ps: seq<Participant>, u: UserId): (i: Option<nat>)
    ensures i.Some? ==> i.value < |ps| && ps[i.value].userId == u
    ensures i.None? <==> forall k | 0 <= k < |ps| :: ps[k].userId != u
  {
    if |ps| == 0 then None
    else
      var before := IndexOf(ps[..|ps| - 1], u);
      if before.Some? then before
      else if ps[|ps| - 1].userId == u then Some(|ps| - 1) else None
  }

  /** The row of an approved entry: a new one, or the old one approved. */
  function ApprovedRow(old_: Option<Participant>, u: UserId, scoreInitial: int, fee: int,
                       paidAt: Option<Time>): Participant {
    if old_.None? then Participant(u, Approved, scoreInitial, 0, None, 0, 0, fee, paidAt)
    else old_.value.(status := Approved, scoreInitial := scoreInitial, entryFeePaid := fee, entryPaidAt := paidAt)
  }

  function Enrolled(ps: seq<Participant>, u: UserId, scoreInitial: int, fee: int,
                    paidAt: Option<Time>): seq<Participant> {
    var i := IndexOf(ps, u);
    if i.Some? then ps[i.value := ApprovedRow(Some(ps[i.value]), u, scoreInitial, fee, paidAt)]
    else ps + [ApprovedRow(None, u, scoreInitial, fee, paidAt)]
  }

  /** The Mesa after an entry: a seat taken, and on a paid Mesa the fee in the pool. */
  function Admitted(m: Mesa, u: UserId, scoreInitial: int, now: Time): Mesa {
    var seated := m.(currentParticipants := m.currentParticipants + 1,
                     participants := Enrolled(m.participants, u, scoreInitial,
                                              if m.category == Paid then Cost(m) else 0,
                                              if m.category == Paid then Some(now) else None));
    if m.category != Paid then seated
    else
      var totals := CalculatePool(m.grossCollected + Cost(m));
      seated.(grossCollected := totals.grossCollected, platformFee := totals.platformFee,
              prizePool := totals.prizePool, rewardPool := Some(totals.prizePool))
  }

  /** The entry fee of a paid Mesa. */
  function FeeStep(b: Bank, id: MesaId, m: Mesa, u: UserId): Result<Bank, WalletFailure> {
    if m.category == Paid then DebitStep(b, u, Cost(m), Entry(id)) else Ok(b)
  }

  function BaselineAt(m: Mesa, now: Time): Time {
    if m.startDate.Some? then m.startDate.value else now
  }

  /** Debit and admission, the part joining and review share. */
  function AdmitStep(money: Money, g: GameTables.Tables, id: MesaId, u: UserId, now: Time): Result<Money, Failure>
    requires id in money.mesas
  {
    var m := money.mesas[id];
    match FeeStep(money.bank, id, m, u)
    case Err(e) => Err(PaymentFailed(e))
    case Ok(bank) =>
      var scoreInitial := RankingWindowScore.ScoreTotalBefore(g, u, BaselineAt(m, now));
      Ok(money.(bank := bank, mesas := money.mesas[id := Admitted(m, u, scoreInitial, now)]))
  }

  /** Writes an admission step by step: debit, seat, participant, pool. */
  method Admit(db: MoneyDb, g: GameTables.Tables, id: MesaId, u: UserId, now: Time) returns (r: Result<(), Failure>)
    requires id in db.mesas
    modifies db`wallets, db`ledger, db`mesas
    ensures match AdmitStep(old(db.View()), g, id, u, now)
            case Ok(next) => r == Ok(()) && db.View() == next
            case Err(e) => r == Err(e) && db.View() == old(db.View())
  {
    var m := db.mesas[id];
    var isPaid, accessCost := m.category == Paid, Cost(m);
    if isPaid {
      var debit := DebitWithTx(db, u, accessCost, Entry(id));
      if debit.Err? {
        return Err(PaymentFailed(debit.error));
      }
    }
    var scoreInitial := RankingWindowScore.ScoreTotalBefore(g, u, BaselineAt(m, now));
    m := m.(currentParticipants := m.currentParticipants + 1);
    m := m.(participants := Enrolled(m.participants, u, scoreInitial, if isPaid then accessCost else 0,
                                     if isPaid then Some(now) else None));
    if isPaid {
      m := m.(grossCollected := m.grossCollected + accessCost);
      var totals := CalculatePool(m.grossCollected);
      m := m.(platformFee := totals.platformFee, prizePool := totals.prizePool, rewardPool := Some(totals.prizePool));
    }
    db.mesas := db.mesas[id := m];
    r := Ok(());
  }

  // ---------- join-bolao.service.ts ----------

  /** Why a user may not join, in the order of the checks. */
  function JoinError(money: Money, g: GameTables.Tables, id: MesaId, u: UserId, now: Time): Option<Failure> {
    if u !in g.users then Some(UserNotFound)
    else if !HasActivePro(money.subscriptions, u, now, false) then Some(ProRequired)
    else if id !in money.mesas then Some(MesaNotFound)
    else
      var m := money.mesas[id];
      if m.status != Active then Some(MesaNotActive)
      else if WindowError(m, now).Some? then WindowError(m, now)
      else if CapacityError(m).Some? then CapacityError(m)
      else if m.createdByUserId == u then Some(CreatorCannotJoin)
      else
        var i := IndexOf(m.participants, u);
        if i.Some? && m.participants[i.value].status == Approved then Some(AlreadyParticipant)
        else if i.Some? && m.participants[i.value].entryPaidAt.Some? then Some(AlreadyPaid)
        else None
  }

  function JoinStep(money: Money, g: GameTables.Tables, id: MesaId, u: UserId, now: Time): Result<Money, Failure> {
    var e := JoinError(money, g, id, u, now);
    if e.Some? then Err(e.value) else AdmitStep(money, g, id, u, now)
  }

  method Join(db: MoneyDb, g: GameTables.Tables, id: MesaId, u: UserId, now: Time) returns (r: Result<(), Failure>)
    modifies db`wallets, db`ledger, db`mesas
    ensures match JoinStep(old(db.View()), g, id, u, now)
            case Ok(next) => r == Ok(()) && db.View() == next
            case Err(e) => r == Err(e) && db.View() == old(db.View())
  {
    var e := JoinError(db.View(), g, id, u, now);
    if e.Some? {
      return Err(e.value);
    }
    r := Admit(db, g, id, u, now);
  }

  // ---------- review-bolao-request.service.ts ----------

  /** Why a review is refused; `u` names the participant row by its user. */
  function ReviewError(money: Money, id: MesaId, u: UserId, reviewer: UserId, approve: bool,
                       now: Time): Option<Failure> {
    if id !in money.mesas then Some(MesaNotFound)
    else
      var m := money.mesas[id];
      if m.createdByUserId != reviewer then Some(NotTheCreator)
      else if m.status != Active then Some(MesaNotActive)
      else if approve && WindowError(m, now).Some? then WindowError(m, now)
      else if approve && CapacityError(m).Some? then CapacityError(m)
      else
        var i := IndexOf(m.participants, u);
        if i.None? then Some(RequestNotFound)
        else if m.participants[i.value].status != Pending then Some(AlreadyReviewed)
        else if approve && m.participants[i.value].entryPaidAt.Some? then Some(AlreadyPaid)
        else None
  }

  function RejectedIn(m: Mesa, u: UserId): Mesa {
    var i := IndexOf(m.participants, u);
    if i.None? then m
    else m.(participants := m.participants[i.value := m.participants[i.value].(status := Rejected)])
  }

  function ReviewStep(money: Money, g: GameTables.Tables, id: MesaId, u: UserId, reviewer: UserId, approve: bool,
                      now: Time): Result<Money, Failure> {
    var e := ReviewError(money, id, u, reviewer, approve, now);
    if e.Some? then Err(e.value)
    else if approve then AdmitStep(money, g, id, u, now)
    else Ok(money.(mesas := money.mesas[id := RejectedIn(money.mesas[id], u)]))
  }

  method Review(db: MoneyDb, g: GameTables.Tables, id: MesaId, u: UserId, reviewer: UserId, approve: bool, now: Time)
                returns (r: Result<(), Failure>)
    modifies db`wallets, db`ledger, db`mesas
    ensures match ReviewStep(old(db.View()), g, id, u, reviewer, approve, now)
            case Ok(next) => r == Ok(()) && db.View() == next
            case Err(e) => r == Err(e) && db.View() == old(db.View())
  {
    var e := ReviewError(db.View(), id, u, reviewer, approve, now);
    if e.Some? {
      return Err(e.value);
    }
    if !approve {
      var m := db.mesas[id];
      var i := IndexOf(m.participants, u).value;
      var ps := m.participants[i := m.participants[i].(status := Rejected)];
      db.mesas := db.mesas[id := m.(participants := ps)];
      return Ok(());
    }
    r := Admit(db, g, id, u, now);
  }

  /** A request left PENDING by an earlier version of the service. */
  function RequestStep(money: Money, id: MesaId, u: UserId): Money {
    if id !in money.mesas || money.mesas[id].status != Active
      || IndexOf(money.mesas[id].participants, u).Some? then money
    else
      var m := money.mesas[id];
      money.(mesas := money.mesas[id := m.(participants := m.participants
        + [Participant(u, Pending, 0, 0, None, 0, 0, 0, None)])])
  }

  // ---------- invites ----------

  predicate Available(i: Invite, now: Time) {
    && i.isActive
    && (i.expiresAt.None? || i.expiresAt.value > now)
    && (i.maxUses.None? || i.usedCount < i.maxUses.value)
  }

  /** The compare-and-increment of a use. */
  function ReserveStep(i: Invite, now: Time): Option<Invite> {
    if Available(i, now) then Some(i.(usedCount := i.usedCount + 1)) else None
  }

  datatype InviteResult = Joined | AlreadyApproved

  predicate IsApproved(m: Mesa, u: UserId) {
    var i := IndexOf(m.participants, u);
    i.Some? && m.participants[i.value].status == Approved
  }

  function InviteError(i: Invite, now: Time): Option<Failure> {
    if !i.isActive then Some(InviteInactive)
    else if i.expiresAt.Some? && i.expiresAt.value <= now then Some(InviteExpired)
    else if i.maxUses.Some? && i.usedCount >= i.maxUses.value then Some(InviteExhausted)
    else None
  }

  /** A use is taken and the user joins, or neither; a participant's second use takes nothing. */
  function UseInviteStep(money: Money, g: GameTables.Tables, code: InviteCode, u: UserId,
                         now: Time): Result<(Money, InviteResult), Failure> {
    if code !in money.invites then Err(InviteNotFound)
    else
      var i := money.invites[code];
      if i.mesa in money.mesas && IsApproved(money.mesas[i.mesa], u) then Ok((money, AlreadyApproved))
      else if InviteError(i, now).Some? then Err(InviteError(i, now).value)
      else match JoinStep(money, g, i.mesa, u, now)
        case Err(e) => Err(e)
        case Ok(next) =>
          Ok((next.(invites := next.invites[code := i.(usedCount := i.usedCount + 1)],
                    inviteUses := next.inviteUses + [InviteUse(code, u)]), Joined))
  }

  method ReserveUse(db: MoneyDb, code: InviteCode, now: Time) returns (reserved: bool)
    requires code in db.invites
    modifies db`invites
    ensures var next := ReserveStep(old(db.invites)[code], now);
            && reserved == next.Some?
            && db.invites == (if next.Some? then old(db.invites)[code := next.value] else old(db.invites))
  {
    var i := db.invites[code];
    reserved := i.isActive && (i.expiresAt.None? || i.expiresAt.value > now)
      && (i.maxUses.None? || i.usedCount < i.maxUses.value);
    if reserved {
      db.invites := db.invites[code := i.(usedCount := i.usedCount + 1)];
    }
  }

  method UseInvite(db: MoneyDb, g: GameTables.Tables, code: InviteCode, u: UserId, now: Time)
                   returns (r: Result<InviteResult, Failure>)
    modifies db`wallets, db`ledger, db`mesas, db`invites, db`inviteUses
    ensures match UseInviteStep(old(db.View()), g, code, u, now)
            case Ok(next) => r == Ok(next.1) && db.View() == next.0
            case Err(e) => r == Err(e) && db.View() == old(db.View())
  {
    if code !in db.invites {
      return Err(InviteNotFound);
    }
    var invites, i := db.invites, db.invites[code];
    if i.mesa in db.mesas && IsApproved(db.mesas[i.mesa], u) {
      return Ok(AlreadyApproved);
    }
    var e := InviteError(i, now);
    if e.Some? {
      return Err(e.value);
    }
    ghost var money := db.View();
    var reserved := ReserveUse(db, code, now);
    JoinIgnoresInvites(money, db.View(), g, i.mesa, u, now);
    var joined := Join(db, g, i.mesa, u, now);
    if joined.Err? {
      db.invites := invites;
      return Err(joined.error);
    }
    db.inviteUses := db.inviteUses + [InviteUse(code, u)];
    r := Ok(Joined);
  }

  /** Joining neither reads nor writes invites. */
  lemma JoinIgnoresInvites(money: Money, with: Money, g: GameTables.Tables, id: MesaId, u: UserId, now: Time)
    requires with == money.(invites := with.invites)
    ensures JoinStep(with, g, id, u, now) ==
            match JoinStep(money, g, id, u, now)
            case Ok(next) => Ok(next.(invites := with.invites))
            case Err(e) => Err(e)
  {
  }

  /** Why an invite may not be created, in the order of the checks of create-bolao-invite.service.ts. */
  function CreateInviteError(money: Money, id: MesaId, maxUses: Option<int>, expiresAt: Option<Time>,
                             creator: UserId, now: Time): Option<Failure> {
    if maxUses.Some? && !(1 <= maxUses.value <= 10000) then Some(BadMaxUses)
    else if expiresAt.Some? && expiresAt.value <= now then Some(BadExpiry)
    else if id !in money.mesas then Some(MesaNotFound)
    else
      var m := money.mesas[id];
      if m.status != Active then Some(MesaNotActive)
      else if m.endDate.Some? && m.endDate.value <= now then Some(RegistrationClosed)
      else if CapacityError(m).Some? then CapacityError(m)
      else if m.createdByUserId != creator then Some(NotTheCreator)
      else None
  }

  /** `code` is the fresh code the service draws. */
  function CreateInviteStep(money: Money, code: InviteCode, id: MesaId, maxUses: Option<int>,
                            expiresAt: Option<Time>, creator: UserId, now: Time): Result<Money, Failure> {
    var e := CreateInviteError(money, id, maxUses, expiresAt, creator, now);
    if e.Some? then Err(e.value)
    else Ok(money.(invites := money.invites[code := Invite(id, maxUses, 0, expiresAt, true)]))
  }

  method CreateInvite(db: MoneyDb, code: InviteCode, id: MesaId, maxUses: Option<int>, expiresAt: Option<Time>,
                      creator: UserId, now: Time) returns (r: Result<(), Failure>)
    modifies db`invites
    ensures match CreateInviteStep(old(db.View()), code, id, maxUses, expiresAt, creator, now)
            case Ok(next) => r == Ok(()) && db.View() == next
            case Err(e) => r == Err(e) && db.View() == old(db.View())
  {
    var e := CreateInviteError(db.View(), id, maxUses, expiresAt, creator, now);
    if e.Some? {
      return Err(e.value);
    }
    db.invites := db.invites[code := Invite(id, maxUses, 0, expiresAt, true)];
    r := Ok(());
  }

  // ---------- create-bolao.service.ts ----------

  datatype Proposal = Proposal(
    name: string, description: string, startDate: Time, endDate: Time, category: Option<Category>,
    accessCost: Option<int>, entryFee: Option<int>, sponsorPrizePool: Option<int>,
    maxParticipants: int, prizeDistribution: seq<PrizeDistributionItem>)

  predicate RulesAccepted(description: string) {
    10 <= |Trim(description)| <= 500
  }

  function NewMesa(p: Proposal, terms: Terms, creator: UserId): Mesa {
    var empty := CalculatePool(0);
    var pool := if terms.category == Paid then empty.prizePool else terms.sponsorPrizePool;
    Mesa(Active, Some(Trim(p.description)), Some(p.startDate), Some(p.endDate),
         terms.accessCost, Some(terms.accessCost), terms.category, terms.sponsorPrizePool,
         Some(terms.maxParticipants), 0, p.prizeDistribution,
         empty.grossCollected, empty.platformFee, pool, Some(pool), None, creator, [])
  }

  /** `id` is the fresh identifier the service draws. */
  function CreateStep(money: Money, g: GameTables.Tables, id: MesaId, p: Proposal, creator: UserId,
                      now: Time): Result<Money, Failure> {
    var terms := ValidateTerms(p.category, p.accessCost, p.entryFee, p.sponsorPrizePool, p.maxParticipants);
    var distribution := ValidateDistribution(p.prizeDistribution);
    if terms.Err? then Err(BadTerms(terms.error))
    else if !RulesAccepted(p.description) then Err(BadRules)
    else if creator !in g.users then Err(UserNotFound)
    else if |Trim(p.name)| < 3 then Err(BadName)
    else if p.endDate <= p.startDate then Err(BadDates)
    else if distribution.Err? then Err(BadDistribution(distribution.error))
    else if p.endDate <= now then Err(RegistrationClosed)
    else Ok(money.(mesas := money.mesas[id := NewMesa(p, terms.value, creator)]))
  }

  method Create(db: MoneyDb, g: GameTables.Tables, id: MesaId, p: Proposal, creator: UserId, now: Time)
                returns (r: Result<(), Failure>)
    modifies db`mesas
    ensures match CreateStep(old(db.View()), g, id, p, creator, now)
            case Ok(next) => r == Ok(()) && db.View() == next
            case Err(e) => r == Err(e) && db.View() == old(db.View())
  {
    hide NewMesa, ValidDistribution;
    var terms := ValidateTerms(p.category, p.accessCost, p.entryFee, p.sponsorPrizePool, p.maxParticipants);
    if terms.Err? {
      return Err(BadTerms(terms.error));
    }
    if !RulesAccepted(p.description) {
      return Err(BadRules);
    }
    if creator !in g.users {
      return Err(UserNotFound);
    }
    if |Trim(p.name)| < 3 {
      return Err(BadName);
    }
    if p.endDate <= p.startDate {
      return Err(BadDates);
    }
    var distribution := ValidateDistribution(p.prizeDistribution);
    if distribution.Err? {
      return Err(BadDistribution(distribution.error));
    }
    if p.endDate <= now {
      return Err(RegistrationClosed);
    }
    db.mesas := db.mesas[id := NewMesa(p, terms.value, creator)];
    r := Ok(());
  }
}
