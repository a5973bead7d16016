/**
 The terms of a Mesa (src/services/bolao/mesa-category-rules.ts) and the integrity gate that
 guards its settlement (src/services/bolao/mesa-integrity.service.ts).
 */
module MesaIntegrity {
  import opened Common
  import opened BolaoPrize
  import opened MoneyTables

  // ---------- mesa-category-rules.ts ----------

  datatype TermsError = InvalidCapacity | CostNotPositive | PaidWithSponsor | FreeWithCost | SponsorPoolNotPositive

  datatype Terms = Terms(category: Category, accessCost: int, sponsorPrizePool: int, maxParticipants: int)

  function ValidateTerms(category: Option<Category>, accessCost: Option<int>, entryFee: Option<int>,
                         sponsorPrizePool: Option<int>, maxParticipants: int): (r: Result<Terms, TermsError>)
    ensures r.Ok? ==>
              && r.value.maxParticipants > 0
              && (r.value.category == Paid ==> r.value.accessCost > 0 && r.value.sponsorPrizePool == 0)
              && (r.value.category == SponsoredFree ==> r.value.accessCost == 0 && r.value.sponsorPrizePool > 0)
  {
    var c := if category.Some? then category.value else Paid;
    var cost := if accessCost.Some? then accessCost.value else if entryFee.Some? then entryFee.value else 0;
    var pool := if sponsorPrizePool.Some? then sponsorPrizePool.value else 0;
    if maxParticipants <= 0 then Err(InvalidCapacity)
    else if c == Paid && cost <= 0 then Err(CostNotPositive)
    else if c == Paid && pool != 0 then Err(PaidWithSponsor)
    else if c == SponsoredFree && cost != 0 then Err(FreeWithCost)
    else if c == SponsoredFree && pool <= 0 then Err(SponsorPoolNotPositive)
    else Ok(Terms(c, cost, pool, maxParticipants))
  }

  // ---------- participants ----------

  function CountApproved(ps: seq<Participant>): nat {
    if |ps| == 0 then 0
    else CountApproved(ps[..|ps| - 1]) + (if ps[|ps| - 1].status == Approved then 1 else 0)
  }

  function Cost(m: Mesa): int {
    if m.accessCost.Some? then m.accessCost.value else m.entryFee
  }

  predicate PaidInFull(p: Participant, cost: int) { p.entryPaidAt.Some? && p.entryFeePaid == cost }

  function CountUnpaid(ps: seq<Participant>, cost: int): nat {
    if |ps| == 0 then 0
    else CountUnpaid(ps[..|ps| - 1], cost)
         + (if ps[|ps| - 1].status == Approved && !PaidInFull(ps[|ps| - 1], cost) then 1 else 0)
  }

  function PaidTotal(ps: seq<Participant>, cost: int): int {
    if |ps| == 0 then 0
    else PaidTotal(ps[..|ps| - 1], cost)
         + (if ps[|ps| - 1].status == Approved && PaidInFull(ps[|ps| - 1], cost) then ps[|ps| - 1].entryFeePaid else 0)
  }

  // ---------- text ----------

  /** White space and line terminators of ECMA-262, sections 12.2 and 12.3, which trimming removes. */
  predicate BlankChar(c: char) {
    || '\U{9}' <= c <= '\U{D}' || c == ' ' || c == '\U{A0}' || c == '\U{1680}' || '\U{2000}' <= c <= '\U{200A}'
    || c == '\U{2028}' || c == '\U{2029}' || c == '\U{202F}' || c == '\U{205F}' || c == '\U{3000}' || c == '\U{FEFF}'
  }

  predicate HasText(s: string) {
    exists i :: 0 <= i < |s| && !BlankChar(s[i])
  }

  function TrimStart(s: string): string {
    if |s| > 0 && BlankChar(s[0]) then TrimStart(s[1..]) else s
  }

  function TrimEnd(s: string): string {
    if |s| > 0 && BlankChar(s[|s| - 1]) then TrimEnd(s[..|s| - 1]) else s
  }

  function Trim(s: string): string {
    TrimEnd(TrimStart(s))
  }

  /** What trimming leaves, if anything, has text. */
  lemma {:induction false} TrimEndHasText(s: string)
    ensures |TrimEnd(s)| > 0 ==> HasText(TrimEnd(s))
  {
    if |s| > 0 && BlankChar(s[|s| - 1]) {
      TrimEndHasText(s[..|s| - 1]);
    } else if |s| > 0 {
      assert !BlankChar(s[|s| - 1]);
    }
  }

  // ---------- mesa-integrity.service.ts ----------

  datatype Issue =
    | InvalidPaidAccessCost | InvalidPaidSponsorPool | InvalidSponsoredAccessCost | InvalidSponsoredPrizePool
    | MissingParticipantLimit | InvalidParticipantLimit | ParticipantCountMismatch | CapacityExceeded
    | AccessCostMismatch | RewardPoolMismatch | MissingPrizeRules | InvalidPrizeDistribution
    | ApprovedEntryNotPaid | GrossCollectedMismatch | PrizeTotalsMismatch

  function ExpectedGross(m: Mesa): int {
    if m.category == Paid then PaidTotal(m.participants, Cost(m)) else 0
  }

  function ExpectedTotals(m: Mesa): PoolTotals {
    if m.category == Paid then CalculatePool(m.grossCollected) else PoolTotals(0, 0, m.sponsorPrizePool)
  }

  /** When each issue is raised. */
  predicate Raised(m: Mesa, i: Issue) {
    match i
    case InvalidPaidAccessCost => m.category == Paid && Cost(m) <= 0
    case InvalidPaidSponsorPool => m.category == Paid && m.sponsorPrizePool != 0
    case InvalidSponsoredAccessCost => m.category == SponsoredFree && Cost(m) != 0
    case InvalidSponsoredPrizePool => m.category == SponsoredFree && m.sponsorPrizePool <= 0
    case MissingParticipantLimit => m.maxParticipants.None?
    case InvalidParticipantLimit => m.maxParticipants.Some? && m.maxParticipants.value <= 0
    case ParticipantCountMismatch => m.currentParticipants != CountApproved(m.participants)
    case CapacityExceeded => m.maxParticipants.Some? && m.currentParticipants > m.maxParticipants.value
    case AccessCostMismatch => m.accessCost.Some? && m.accessCost.value != m.entryFee
    case RewardPoolMismatch => m.rewardPool.Some? && m.rewardPool.value != m.prizePool
    case MissingPrizeRules => m.description.None? || !HasText(m.description.value)
    case InvalidPrizeDistribution => !ValidDistribution(m.prizeDistribution)
    case ApprovedEntryNotPaid => m.category == Paid && CountUnpaid(m.participants, Cost(m)) > 0
    case GrossCollectedMismatch => m.grossCollected != ExpectedGross(m)
    case PrizeTotalsMismatch =>
      || m.platformFee != ExpectedTotals(m).platformFee
      || (if m.rewardPool.Some? then m.rewardPool.value else m.prizePool) != ExpectedTotals(m).prizePool
  }

  method CountParticipants(m: Mesa) returns (approved: nat, unpaid: nat, paidTotal: int)
    ensures approved == CountApproved(m.participants)
    ensures unpaid == CountUnpaid(m.participants, Cost(m))
    ensures paidTotal == PaidTotal(m.participants, Cost(m))
  {
    approved, unpaid, paidTotal := 0, 0, 0;
    var ps := m.participants;
    for k := 0 to |ps|
      invariant approved == CountApproved(ps[..k])
      invariant unpaid == CountUnpaid(ps[..k], Cost(m))
      invariant paidTotal == PaidTotal(ps[..k], Cost(m))
    {
      assert ps[..k + 1][..k] == ps[..k];
      if ps[k].status == Approved {
        approved := approved + 1;
        if PaidInFull(ps[k], Cost(m)) {
          paidTotal := paidTotal + ps[k].entryFeePaid;
        } else {
          unpaid := unpaid + 1;
        }
      }
    }
    assert ps[..|ps|] == ps;
  }

  predicate TermIssue(i: Issue) {
    i.InvalidPaidAccessCost? || i.InvalidPaidSponsorPool? || i.InvalidSponsoredAccessCost?
      || i.InvalidSponsoredPrizePool?
  }

  predicate SeatIssue(i: Issue) {
    i.MissingParticipantLimit? || i.InvalidParticipantLimit? || i.ParticipantCountMismatch? || i.CapacityExceeded?
  }

  predicate FormIssue(i: Issue) {
    i.AccessCostMismatch? || i.RewardPoolMismatch? || i.MissingPrizeRules? || i.InvalidPrizeDistribution?
  }

  predicate MoneyIssue(i: Issue) {
    i.ApprovedEntryNotPaid? || i.GrossCollectedMismatch? || i.PrizeTotalsMismatch?
  }

  method CheckTerms(m: Mesa, accessCost: int, sponsored: bool) returns (issues: seq<Issue>)
    requires accessCost == Cost(m) && sponsored == (m.category != Paid)
    ensures forall i :: i in issues <==> TermIssue(i) && Raised(m, i)
  {
    issues := [];
    if !sponsored {
      if accessCost <= 0 {
        issues := issues + [InvalidPaidAccessCost];
      }
      if m.sponsorPrizePool != 0 {
        issues := issues + [InvalidPaidSponsorPool];
      }
    } else {
      if accessCost != 0 {
        issues := issues + [InvalidSponsoredAccessCost];
      }
      if m.sponsorPrizePool <= 0 {
        issues := issues + [InvalidSponsoredPrizePool];
      }
    }
  }

  method CheckSeats(m: Mesa, approved: nat) returns (issues: seq<Issue>)
    requires approved == CountApproved(m.participants)
    ensures forall i :: i in issues <==> SeatIssue(i) && Raised(m, i)
  {
    issues := [];
    if m.maxParticipants.None? {
      issues := issues + [MissingParticipantLimit];
    } else if m.maxParticipants.value <= 0 {
      issues := issues + [InvalidParticipantLimit];
    }
    if m.currentParticipants != approved {
      issues := issues + [ParticipantCountMismatch];
    }
    if m.maxParticipants.Some? && m.currentParticipants > m.maxParticipants.value {
      issues := issues + [CapacityExceeded];
    }
  }

  method CheckForm(m: Mesa) returns (issues: seq<Issue>)
    ensures forall i :: i in issues <==> FormIssue(i) && Raised(m, i)
  {
    issues := [];
    if m.accessCost.Some? && m.accessCost.value != m.entryFee {
      issues := issues + [AccessCostMismatch];
    }
    if m.rewardPool.Some? && m.rewardPool.value != m.prizePool {
      issues := issues + [RewardPoolMismatch];
    }
    if m.description.None? || !HasText(m.description.value) {
      issues := issues + [MissingPrizeRules];
    }
    if ValidateDistribution(m.prizeDistribution).Err? {
      issues := issues + [InvalidPrizeDistribution];
    }
  }

  method CheckMoney(m: Mesa, sponsored: bool, unpaid: nat, paidTotal: int) returns (issues: seq<Issue>)
    requires sponsored == (m.category != Paid)
    requires unpaid == CountUnpaid(m.participants, Cost(m)) && paidTotal == PaidTotal(m.participants, Cost(m))
    ensures forall i :: i in issues <==> MoneyIssue(i) && Raised(m, i)
  {
    issues := [];
    var rewardPool := if m.rewardPool.Some? then m.rewardPool.value else m.prizePool;
    if !sponsored && unpaid > 0 {
      issues := issues + [ApprovedEntryNotPaid];
    }
    var expectedGross := if sponsored then 0 else paidTotal;
    if m.grossCollected != expectedGross {
      issues := issues + [GrossCollectedMismatch];
    }
    var totals := if sponsored then PoolTotals(0, 0, m.sponsorPrizePool) else CalculatePool(m.grossCollected);
    if m.platformFee != totals.platformFee || rewardPool != totals.prizePool {
      issues := issues + [PrizeTotalsMismatch];
    }
  }

  /** Collects every issue of a Mesa, check by check: exactly the issues whose condition holds. */
  method Inspect(m: Mesa) returns (issues: seq<Issue>)
    ensures forall i :: i in issues <==> Raised(m, i)
  {
    var accessCost := if m.accessCost.Some? then m.accessCost.value else m.entryFee;
    var sponsored := m.category != Paid;
    var approved, unpaid, paidTotal := CountParticipants(m);
    issues := CheckTerms(m, accessCost, sponsored);
    var seats := CheckSeats(m, approved);
    var form := CheckForm(m);
    var money := CheckMoney(m, sponsored, unpaid, paidTotal);
    issues := issues + seats + form + money;
    forall i ensures i in issues <==> Raised(m, i) {
      assert TermIssue(i) || SeatIssue(i) || FormIssue(i) || MoneyIssue(i);
    }
  }

  /** No issue: the gate lets the Mesa settle. */
  predicate SettlementReady(m: Mesa) {
    forall i: Issue :: !Raised(m, i)
  }

  /** The gate: inspects, and lets the Mesa settle if nothing was found. */
  method AssertSettlementReady(m: Mesa) returns (ready: bool)
    ensures ready <==> SettlementReady(m)
    ensures ready ==> ValidDistribution(m.prizeDistribution)
  {
    var issues := Inspect(m);
    ready := |issues| == 0;
    if ready {
      assert InvalidPrizeDistribution !in issues;
    } else {
      assert issues[0] in issues;
    }
  }

  /** What the gate lets settle: terms, seats, form and money all agree. */
  lemma ReadyMeansNoIssue(m: Mesa)
    ensures SettlementReady(m) <==>
            && (m.category == Paid ==> Cost(m) > 0 && m.sponsorPrizePool == 0)
            && (m.category == SponsoredFree ==> Cost(m) == 0 && m.sponsorPrizePool > 0)
            && m.maxParticipants.Some? && m.maxParticipants.value > 0
            && m.currentParticipants == CountApproved(m.participants) <= m.maxParticipants.value
            && (m.accessCost.Some? ==> m.accessCost.value == m.entryFee)
            && (m.rewardPool.Some? ==> m.rewardPool.value == m.prizePool)
            && m.description.Some? && HasText(m.description.value)
            && ValidDistribution(m.prizeDistribution)
            && (m.category == Paid ==> CountUnpaid(m.participants, Cost(m)) == 0)
            && m.grossCollected == ExpectedGross(m)
            && m.platformFee == ExpectedTotals(m).platformFee
            && (if m.rewardPool.Some? then m.rewardPool.value else m.prizePool) == ExpectedTotals(m).prizePool
  {
    if SettlementReady(m) {
      assert !Raised(m, InvalidPaidAccessCost) && !Raised(m, InvalidPaidSponsorPool);
      assert !Raised(m, InvalidSponsoredAccessCost) && !Raised(m, InvalidSponsoredPrizePool);
      assert !Raised(m, MissingParticipantLimit) && !Raised(m, InvalidParticipantLimit);
      assert !Raised(m, ParticipantCountMismatch) && !Raised(m, CapacityExceeded);
      assert !Raised(m, AccessCostMismatch) && !Raised(m, RewardPoolMismatch);
      assert !Raised(m, MissingPrizeRules) && !Raised(m, InvalidPrizeDistribution);
      assert !Raised(m, ApprovedEntryNotPaid) && !Raised(m, GrossCollectedMismatch) && !Raised(m, PrizeTotalsMismatch);
    }
  }
}
