/**
 What holds in every state of the Mesas, and that every service keeps it. The integrity gate
 of src/services/bolao/mesa-integrity.service.ts follows from it, so it never blocks a Mesa
 these services built.
 */
module MesaInvariant {
  import opened Common
  import opened BolaoPrize
  import opened RankingWindowScore
  import opened MoneyTables
  import opened MesaIntegrity
  import opened MesaEntry
  import GameTables

  // ---------- a Mesa on its own ----------

  /** An approved entry of a paid Mesa is paid in full; nobody else has paid. */
  ghost predicate EntrySound(p: Participant, category: Category, cost: int) {
    if p.status == Approved && category == Paid then PaidInFull(p, cost)
    else p.entryPaidAt.None? && p.entryFeePaid == 0
  }

  ghost predicate OneRowEach(ps: seq<Participant>) {
    forall i, j | 0 <= i < j < |ps| :: ps[i].userId != ps[j].userId
  }

  ghost predicate EntriesSound(ps: seq<Participant>, category: Category, cost: int) {
    && OneRowEach(ps)
    && (forall k | 0 <= k < |ps| :: EntrySound(ps[k], category, cost))
  }

  ghost predicate TermsSound(m: Mesa) {
    match m.category
    case Paid => m.entryFee > 0 && m.sponsorPrizePool == 0
    case SponsoredFree => m.entryFee == 0 && m.sponsorPrizePool > 0
  }

  ghost predicate FormSound(m: Mesa) {
    && m.accessCost == Some(m.entryFee)
    && m.maxParticipants.Some? && m.maxParticipants.value > 0
    && m.description.Some? && HasText(m.description.value)
    && ValidDistribution(m.prizeDistribution)
  }

  ghost predicate TotalsSound(m: Mesa) {
    match m.category
    case Paid =>
      && m.grossCollected == m.entryFee * m.currentParticipants
      && PoolTotals(m.grossCollected, m.platformFee, m.prizePool) == CalculatePool(m.grossCollected)
      && m.rewardPool == Some(m.prizePool)
    case SponsoredFree =>
      && m.grossCollected == m.platformFee == 0
      && m.prizePool == m.sponsorPrizePool
      && m.rewardPool == Some(m.prizePool)
  }

  ghost predicate MesaSound(m: Mesa) {
    match m.maxParticipants
    case None => false
    case Some(limit) =>
      && TermsSound(m) && FormSound(m) && TotalsSound(m)
      && EntriesSound(m.participants, m.category, m.entryFee)
      && m.currentParticipants == CountApproved(m.participants) <= limit
      && (m.settledAt.Some? <==> m.status == Closed)
  }

  lemma {:induction false} EntriesAddUp(ps: seq<Participant>, category: Category, cost: int)
    requires EntriesSound(ps, category, cost)
    ensures category == Paid ==> CountUnpaid(ps, cost) == 0 && PaidTotal(ps, cost) == cost * CountApproved(ps)
  {
    if |ps| > 0 {
      var n := |ps| - 1;
      EntriesAddUp(ps[..n], category, cost);
      assert EntrySound(ps[n], category, cost);
      assert cost * (CountApproved(ps[..n]) + 1) == cost * CountApproved(ps[..n]) + cost;
    }
  }

  /** The integrity gate lets every such Mesa pass. */
  lemma SoundMesaIsReady(m: Mesa)
    requires MesaSound(m)
    ensures SettlementReady(m) && forall i: Issue :: !Raised(m, i)
  {
    EntriesAddUp(m.participants, m.category, m.entryFee);
    ReadyMeansNoIssue(m);
  }

  // ---------- a Mesa in the ledger ----------

  /** What the rows of one origin add up to. */
  function OriginNet(ledger: seq<LedgerEntry>, o: Origin): int {
    if |ledger| == 0 then 0
    else OriginNet(ledger[..|ledger| - 1], o)
         + (if ledger[|ledger| - 1].origin == o then Signed(ledger[|ledger| - 1]) else 0)
  }

  lemma OriginNetAppend(ledger: seq<LedgerEntry>, e: LedgerEntry, o: Origin)
    ensures OriginNet(ledger + [e], o) == OriginNet(ledger, o) + (if e.origin == o then Signed(e) else 0)
  {
    assert (ledger + [e])[..|ledger|] == ledger;
  }

  lemma KeyTakenAppend(ledger: seq<LedgerEntry>, e: LedgerEntry, u: UserId, o: Origin)
    ensures KeyTaken(ledger + [e], u, o) <==> KeyTaken(ledger, u, o) || (Keyed(o) && e.userId == u && e.origin == o)
  {
    var more := ledger + [e];
    if KeyTaken(ledger, u, o) {
      var k :| 0 <= k < |ledger| && ledger[k].userId == u && ledger[k].origin == o;
      assert more[k] == ledger[k];
    }
    assert more[|ledger|] == e;
  }

  /** Prizes credited: the whole pool of a paid Mesa, at most the pool of a sponsored one. */
  ghost predicate PrizesSound(m: Mesa, credited: int) {
    if m.settledAt.None? then credited == 0
    else if m.category == Paid then credited == m.prizePool
    else 0 <= credited <= m.sponsorPrizePool
  }

  /** Who has paid and who was paid, by the idempotency keys. */
  ghost predicate KeysSound(id: MesaId, m: Mesa, ledger: seq<LedgerEntry>) {
    && (forall u :: KeyTaken(ledger, u, Entry(id)) <==> m.category == Paid && IsApproved(m, u))
    && (forall u :: KeyTaken(ledger, u, Prize(id)) ==> m.settledAt.Some? && IsApproved(m, u))
  }

  ghost predicate BooksSound(id: MesaId, m: Mesa, ledger: seq<LedgerEntry>) {
    && OriginNet(ledger, Entry(id)) == -m.grossCollected
    && PrizesSound(m, OriginNet(ledger, Prize(id)))
    && KeysSound(id, m, ledger)
  }

  ghost predicate MesasSound(mesas: map<MesaId, Mesa>, ledger: seq<LedgerEntry>) {
    && (forall id | id in mesas :: MesaSound(mesas[id]) && BooksSound(id, mesas[id], ledger))
    && (forall k | 0 <= k < |ledger| && Keyed(ledger[k].origin) :: ledger[k].origin.mesa in mesas)
  }

  // ---------- invites ----------

  function UseCount(uses: seq<InviteUse>, code: InviteCode): nat {
    if |uses| == 0 then 0
    else UseCount(uses[..|uses| - 1], code) + (if uses[|uses| - 1].code == code then 1 else 0)
  }

  /** A use let its user into the Mesa of its invite. */
  ghost predicate UseSound(use: InviteUse, invites: map<InviteCode, Invite>, mesas: map<MesaId, Mesa>) {
    match use
    case InviteUse(code, u) =>
      code in invites && invites[code].mesa in mesas && IsApproved(mesas[invites[code].mesa], u)
  }

  /** `usedCount` counts the uses, within the limit. */
  ghost predicate CountSound(i: Invite, uses: nat) {
    match i.maxUses
    case None => i.usedCount == uses
    case Some(limit) => i.usedCount == uses <= limit
  }

  ghost predicate CountsSound(invites: map<InviteCode, Invite>, uses: seq<InviteUse>) {
    forall c | c in invites :: CountSound(invites[c], UseCount(uses, c))
  }

  ghost predicate UsesSound(uses: seq<InviteUse>, invites: map<InviteCode, Invite>, mesas: map<MesaId, Mesa>) {
    forall k | 0 <= k < |uses| :: UseSound(uses[k], invites, mesas)
  }

  ghost predicate UsesDistinct(uses: seq<InviteUse>) {
    forall i, j | 0 <= i < j < |uses| :: uses[i] != uses[j]
  }

  ghost predicate InvitesSound(invites: map<InviteCode, Invite>, uses: seq<InviteUse>, mesas: map<MesaId, Mesa>) {
    && (forall c | c in invites :: invites[c].mesa in mesas)
    && CountsSound(invites, uses)
    && UsesSound(uses, invites, mesas)
    && UsesDistinct(uses)
  }

  /** What holds of the tables of the Mesas. */
  ghost predicate Sound(money: Money) {
    && BankSound(money.bank)
    && MesasSound(money.mesas, money.bank.ledger)
    && InvitesSound(money.invites, money.inviteUses, money.mesas)
  }

  lemma EmptySound()
    ensures Sound(NO_MONEY)
  {
  }

  // ---------- who is approved ----------

  lemma {:induction false} IndexOfRow(ps: seq<Participant>, i: nat)
    requires OneRowEach(ps) && i < |ps|
    ensures IndexOf(ps, ps[i].userId) == Some(i)
  {
    var j := IndexOf(ps, ps[i].userId);
    assert j.Some?;
  }

  lemma {:induction false} CountApprovedUpdate(ps: seq<Participant>, i: nat, p: Participant)
    requires i < |ps|
    ensures CountApproved(ps[i := p]) ==
              CountApproved(ps) - (if ps[i].status == Approved then 1 else 0)
              + (if p.status == Approved then 1 else 0)
  {
    var n := |ps| - 1;
    if i == n {
      assert ps[i := p][..n] == ps[..n];
    } else {
      assert ps[i := p][..n] == ps[..n][i := p];
      CountApprovedUpdate(ps[..n], i, p);
    }
  }

  /** Replacing a row by another of the same user changes the approval of nobody else. */
  lemma RowReplaced(ps: seq<Participant>, i: nat, p: Participant, category: Category, cost: int)
    requires EntriesSound(ps, category, cost) && i < |ps|
    requires p.userId == ps[i].userId && EntrySound(p, category, cost)
    ensures EntriesSound(ps[i := p], category, cost)
    ensures forall v :: IndexOf(ps[i := p], v) == IndexOf(ps, v)
  {
    var qs := ps[i := p];
    forall v ensures IndexOf(qs, v) == IndexOf(ps, v) {
      var a := IndexOf(ps, v);
      if a.Some? {
        assert qs[a.value].userId == v;
        IndexOfRow(qs, a.value);
      } else {
        assert forall k | 0 <= k < |qs| :: qs[k].userId == ps[k].userId;
      }
    }
  }

  lemma RowAdded(ps: seq<Participant>, p: Participant, category: Category, cost: int)
    requires EntriesSound(ps, category, cost)
    requires IndexOf(ps, p.userId).None? && EntrySound(p, category, cost)
    ensures EntriesSound(ps + [p], category, cost)
    ensures forall v :: IndexOf(ps + [p], v) == if v == p.userId then Some(|ps|) else IndexOf(ps, v)
  {
    assert (ps + [p])[..|ps|] == ps;
  }

  /** Approving an entry raises the count by one and approves nobody else. */
  lemma EnrolledSound(m: Mesa, u: UserId, scoreInitial: int, fee: int, paidAt: Option<Time>)
    requires EntriesSound(m.participants, m.category, m.entryFee) && !IsApproved(m, u)
    requires EntrySound(ApprovedRow(None, u, scoreInitial, fee, paidAt), m.category, m.entryFee)
    ensures var ps := Enrolled(m.participants, u, scoreInitial, fee, paidAt);
            && EntriesSound(ps, m.category, m.entryFee)
            && CountApproved(ps) == CountApproved(m.participants) + 1
            && forall v :: IsApproved(m.(participants := ps), v) <==> v == u || IsApproved(m, v)
  {
    var ps, i := m.participants, IndexOf(m.participants, u);
    if i.Some? {
      var p := ApprovedRow(Some(ps[i.value]), u, scoreInitial, fee, paidAt);
      RowReplaced(ps, i.value, p, m.category, m.entryFee);
      CountApprovedUpdate(ps, i.value, p);
      forall v | v != u ensures IndexOf(ps, v) != i {
      }
    } else {
      RowAdded(ps, ApprovedRow(None, u, scoreInitial, fee, paidAt), m.category, m.entryFee);
      assert (ps + [ApprovedRow(None, u, scoreInitial, fee, paidAt)])[..|ps|] == ps;
    }
  }

  // ---------- the ledger grows ----------

  /** Rows about other Mesas do not enter the books of this one. */
  lemma {:induction false} BooksFrame(id: MesaId, m: Mesa, ledger: seq<LedgerEntry>, rows: seq<LedgerEntry>)
    requires BooksSound(id, m, ledger)
    requires forall k | 0 <= k < |rows| :: rows[k].origin != Entry(id) && rows[k].origin != Prize(id)
    ensures BooksSound(id, m, ledger + rows)
  {
    if |rows| == 0 {
      assert ledger + rows == ledger;
    } else {
      var n := |rows| - 1;
      BooksFrame(id, m, ledger, rows[..n]);
      assert ledger + rows == (ledger + rows[..n]) + [rows[n]];
      OneRowFrame(id, m, ledger + rows[..n], rows[n]);
    }
  }

  lemma OneRowFrame(id: MesaId, m: Mesa, ledger: seq<LedgerEntry>, e: LedgerEntry)
    requires BooksSound(id, m, ledger) && e.origin != Entry(id) && e.origin != Prize(id)
    ensures BooksSound(id, m, ledger + [e])
  {
    OriginNetAppend(ledger, e, Entry(id));
    OriginNetAppend(ledger, e, Prize(id));
    forall u ensures KeyTaken(ledger + [e], u, Entry(id)) <==> KeyTaken(ledger, u, Entry(id)) {
      KeyTakenAppend(ledger, e, u, Entry(id));
    }
    forall u ensures KeyTaken(ledger + [e], u, Prize(id)) <==> KeyTaken(ledger, u, Prize(id)) {
      KeyTakenAppend(ledger, e, u, Prize(id));
    }
  }

  /** One Mesa changes, with rows that are about it alone. */
  lemma MesaReplaced(mesas: map<MesaId, Mesa>, ledger: seq<LedgerEntry>, id: MesaId, m: Mesa, rows: seq<LedgerEntry>)
    requires MesasSound(mesas, ledger)
    requires MesaSound(m) && BooksSound(id, m, ledger + rows)
    requires forall k | 0 <= k < |rows| :: Keyed(rows[k].origin) && rows[k].origin.mesa == id
    ensures MesasSound(mesas[id := m], ledger + rows)
  {
    forall j | j in mesas && j != id ensures BooksSound(j, mesas[j], ledger + rows) {
      BooksFrame(j, mesas[j], ledger, rows);
    }
    forall k | 0 <= k < |ledger + rows| && Keyed((ledger + rows)[k].origin)
      ensures (ledger + rows)[k].origin.mesa in mesas[id := m]
    {
    }
  }

  /** A row that is about no Mesa changes none. */
  lemma UnkeyedRow(mesas: map<MesaId, Mesa>, ledger: seq<LedgerEntry>, e: LedgerEntry)
    requires MesasSound(mesas, ledger) && !Keyed(e.origin)
    ensures MesasSound(mesas, ledger + [e])
  {
    forall j | j in mesas ensures BooksSound(j, mesas[j], ledger + [e]) {
      OneRowFrame(j, mesas[j], ledger, e);
    }
  }

  /** Invites keep their Mesa, and approvals only grow: the uses stay sound. */
  lemma UsesFrame(uses: seq<InviteUse>, invites: map<InviteCode, Invite>, mesas: map<MesaId, Mesa>,
                  others: map<InviteCode, Invite>, changed: map<MesaId, Mesa>)
    requires UsesSound(uses, invites, mesas)
    requires forall c | c in invites :: c in others && others[c].mesa == invites[c].mesa
    requires forall id | id in mesas :: id in changed
               && forall u | IsApproved(mesas[id], u) :: IsApproved(changed[id], u)
    ensures UsesSound(uses, others, changed)
  {
    forall k | 0 <= k < |uses| ensures UseSound(uses[k], others, changed) {
      assert UseSound(uses[k], invites, mesas);
    }
  }

  /** One Mesa changes and keeps its approvals: the invites stay sound. */
  lemma InvitesFrame(invites: map<InviteCode, Invite>, uses: seq<InviteUse>, mesas: map<MesaId, Mesa>, id: MesaId,
                     m: Mesa)
    requires InvitesSound(invites, uses, mesas)
    requires id in mesas ==> forall u | IsApproved(mesas[id], u) :: IsApproved(m, u)
    ensures InvitesSound(invites, uses, mesas[id := m])
  {
    UsesFrame(uses, invites, mesas, invites, mesas[id := m]);
  }

  /** Changing one Mesa, its ledger rows and a sound bank keeps everything sound. */
  lemma MesaChanged(money: Money, id: MesaId, m: Mesa, bank: Bank, rows: seq<LedgerEntry>, next: Money)
    requires Sound(money) && BankSound(bank) && bank.ledger == money.bank.ledger + rows
    requires MesaSound(m) && BooksSound(id, m, bank.ledger)
    requires forall k | 0 <= k < |rows| :: Keyed(rows[k].origin) && rows[k].origin.mesa == id
    requires id in money.mesas ==> forall u | IsApproved(money.mesas[id], u) :: IsApproved(m, u)
    requires next == money.(bank := bank, mesas := money.mesas[id := m])
    ensures Sound(next)
  {
    MesaReplaced(money.mesas, money.bank.ledger, id, m, rows);
    InvitesFrame(money.invites, money.inviteUses, money.mesas, id, m);
  }

  lemma MesaIsSound(money: Money, id: MesaId)
    requires Sound(money) && id in money.mesas
    ensures MesaSound(money.mesas[id]) && BooksSound(id, money.mesas[id], money.bank.ledger)
  {
  }

  lemma BankIsSound(money: Money)
    requires Sound(money)
    ensures BankSound(money.bank)
  {
  }

  /** Changing one Mesa without moving coins keeps everything sound. */
  lemma MesaChangedAlone(money: Money, id: MesaId, m: Mesa, next: Money)
    requires Sound(money) && MesaSound(m) && BooksSound(id, m, money.bank.ledger)
    requires id in money.mesas ==> forall u | IsApproved(money.mesas[id], u) :: IsApproved(m, u)
    requires next == money.(mesas := money.mesas[id := m])
    ensures Sound(next)
  {
    hide Sound, MesaSound, BooksSound, BankSound;
    BankIsSound(money);
    assert money.bank.ledger == money.bank.ledger + [];
    MesaChanged(money, id, m, money.bank, [], next);
  }

  // ---------- admission ----------

  lemma AdmittedTotals(m: Mesa, n: Mesa)
    requires TotalsSound(m) && m.accessCost == Some(m.entryFee) && n.currentParticipants == m.currentParticipants + 1
    requires n.category == m.category && n.entryFee == m.entryFee && n.sponsorPrizePool == m.sponsorPrizePool
    requires m.category != Paid ==>
               n.grossCollected == m.grossCollected && n.platformFee == m.platformFee
               && n.prizePool == m.prizePool && n.rewardPool == m.rewardPool
    requires m.category == Paid ==>
               var t := CalculatePool(m.grossCollected + m.entryFee);
               n.grossCollected == t.grossCollected && n.platformFee == t.platformFee
               && n.prizePool == t.prizePool && n.rewardPool == Some(t.prizePool)
    ensures TotalsSound(n)
  {
    hide CalculatePool;
    assert m.entryFee * (m.currentParticipants + 1) == m.entryFee * m.currentParticipants + m.entryFee;
  }

  lemma AdmittedEntries(m: Mesa, u: UserId, scoreInitial: int, now: Time)
    requires EntriesSound(m.participants, m.category, m.entryFee) && m.accessCost == Some(m.entryFee)
               && !IsApproved(m, u)
    ensures var n := Admitted(m, u, scoreInitial, now);
            && EntriesSound(n.participants, n.category, n.entryFee)
            && CountApproved(n.participants) == CountApproved(m.participants) + 1
            && forall v :: IsApproved(n, v) <==> v == u || IsApproved(m, v)
  {
    var fee := if m.category == Paid then Cost(m) else 0;
    var paidAt := if m.category == Paid then Some(now) else None;
    var ps, n := Enrolled(m.participants, u, scoreInitial, fee, paidAt), Admitted(m, u, scoreInitial, now);
    EnrolledSound(m, u, scoreInitial, fee, paidAt);
    forall v ensures IsApproved(n, v) <==> v == u || IsApproved(m, v) {
      assert IsApproved(n, v) == IsApproved(m.(participants := ps), v);
    }
  }

  /** What an admission leaves of a Mesa: all but seats, participants and pool. */
  ghost predicate SameForm(m: Mesa, n: Mesa) {
    n == m.(currentParticipants := n.currentParticipants, participants := n.participants,
            grossCollected := n.grossCollected, platformFee := n.platformFee, prizePool := n.prizePool,
            rewardPool := n.rewardPool)
  }

  lemma AdmittedForm(m: Mesa, n: Mesa)
    requires SameForm(m, n) && TermsSound(m) && FormSound(m)
    ensures TermsSound(n) && FormSound(n)
  {
  }

  lemma AdmittedSeats(m: Mesa, u: UserId, scoreInitial: int, now: Time)
    ensures var n := Admitted(m, u, scoreInitial, now);
            SameForm(m, n) && n.currentParticipants == m.currentParticipants + 1
  {
  }

  lemma AdmittedPool(m: Mesa, u: UserId, scoreInitial: int, now: Time)
    requires TotalsSound(m) && m.accessCost == Some(m.entryFee)
    ensures TotalsSound(Admitted(m, u, scoreInitial, now))
  {
    hide TotalsSound, CalculatePool;
    AdmittedTotals(m, Admitted(m, u, scoreInitial, now));
  }

  lemma AdmittedSound(m: Mesa, u: UserId, scoreInitial: int, now: Time)
    requires MesaSound(m) && m.status == Active && !IsApproved(m, u)
    requires m.currentParticipants < m.maxParticipants.value
    ensures MesaSound(Admitted(m, u, scoreInitial, now))
    ensures forall v :: IsApproved(Admitted(m, u, scoreInitial, now), v) <==> v == u || IsApproved(m, v)
  {
    hide Admitted, IsApproved, TermsSound, TotalsSound, EntriesSound, CountApproved;
    AdmittedSeats(m, u, scoreInitial, now);
    AdmittedForm(m, Admitted(m, u, scoreInitial, now));
    AdmittedPool(m, u, scoreInitial, now);
    AdmittedEntries(m, u, scoreInitial, now);
  }

  /** The fee row of an entry, in the books of its Mesa. */
  lemma FeeBooked(id: MesaId, m: Mesa, n: Mesa, ledger: seq<LedgerEntry>, u: UserId)
    requires BooksSound(id, m, ledger) && m.settledAt.None? && n.settledAt.None? && m.category == n.category == Paid
    requires n.grossCollected == m.grossCollected + Cost(m)
    requires forall v :: IsApproved(n, v) <==> v == u || IsApproved(m, v)
    ensures BooksSound(id, n, ledger + [LedgerEntry(u, Debit, Cost(m), Entry(id))])
  {
    var e := LedgerEntry(u, Debit, Cost(m), Entry(id));
    OriginNetAppend(ledger, e, Entry(id));
    OriginNetAppend(ledger, e, Prize(id));
    forall v ensures KeyTaken(ledger + [e], v, Entry(id)) <==> IsApproved(n, v) {
      KeyTakenAppend(ledger, e, v, Entry(id));
    }
    forall v ensures !KeyTaken(ledger + [e], v, Prize(id)) {
      KeyTakenAppend(ledger, e, v, Prize(id));
    }
  }

  /** A change that moves no money leaves the books as they were. */
  lemma SameBooks(id: MesaId, m: Mesa, n: Mesa, ledger: seq<LedgerEntry>)
    requires BooksSound(id, m, ledger) && m.settledAt.None? && n.settledAt.None?
    requires n.category == m.category && n.grossCollected == m.grossCollected
    requires m.category == Paid ==> forall v :: IsApproved(n, v) <==> IsApproved(m, v)
    ensures BooksSound(id, n, ledger)
  {
  }

  /** A paid entry: the fee leaves the wallet and the Mesa takes it in. */
  lemma PaidEntrySound(money: Money, id: MesaId, m: Mesa, u: UserId, n: Mesa, next: Money)
    requires Sound(money) && id in money.mesas && m == money.mesas[id] && m.category == Paid && m.settledAt.None?
    requires MesaSound(n) && n.category == Paid && n.settledAt.None? && n.grossCollected == m.grossCollected + Cost(m)
    requires forall v :: IsApproved(n, v) <==> v == u || IsApproved(m, v)
    requires DebitStep(money.bank, u, Cost(m), Entry(id)) == Ok(next.bank)
    requires next == money.(bank := next.bank, mesas := money.mesas[id := n])
    ensures Sound(next)
  {
    hide Sound, MesaSound, BooksSound, BankSound;
    MesaIsSound(money, id);
    BankIsSound(money);
    WalletStepsSound(money.bank, u, Cost(m), Entry(id));
    FeeBooked(id, m, n, money.bank.ledger, u);
    MesaChanged(money, id, n, next.bank, [LedgerEntry(u, Debit, Cost(m), Entry(id))], next);
  }

  /** A free entry moves no coins. */
  lemma FreeEntrySound(money: Money, id: MesaId, m: Mesa, u: UserId, n: Mesa, next: Money)
    requires Sound(money) && id in money.mesas && m == money.mesas[id] && m.category != Paid && m.settledAt.None?
    requires MesaSound(n) && n.category != Paid && n.settledAt.None? && n.grossCollected == m.grossCollected
    requires forall v :: IsApproved(n, v) <==> v == u || IsApproved(m, v)
    requires next == money.(mesas := money.mesas[id := n])
    ensures Sound(next)
  {
    hide Sound, MesaSound, BooksSound;
    MesaIsSound(money, id);
    SameBooks(id, m, n, money.bank.ledger);
    MesaChangedAlone(money, id, n, next);
  }

  /** What an admission that commits wrote. */
  lemma AdmitWrites(money: Money, g: GameTables.Tables, id: MesaId, u: UserId, now: Time, next: Money) returns (n: Mesa)
    requires id in money.mesas && AdmitStep(money, g, id, u, now) == Ok(next)
    ensures n == Admitted(money.mesas[id], u, ScoreTotalBefore(g, u, BaselineAt(money.mesas[id], now)), now)
    ensures next == money.(bank := next.bank, mesas := money.mesas[id := n])
    ensures money.mesas[id].category == Paid ==>
              DebitStep(money.bank, u, Cost(money.mesas[id]), Entry(id)) == Ok(next.bank)
    ensures money.mesas[id].category != Paid ==> next.bank == money.bank
  {
    n := next.mesas[id];
  }

  /** Admitting a user who is not in yet keeps everything sound, and the user is in. */
  lemma AdmitSound(money: Money, g: GameTables.Tables, id: MesaId, u: UserId, now: Time, next: Money)
    requires Sound(money) && id in money.mesas && money.mesas[id].status == Active && !IsApproved(money.mesas[id], u)
    requires money.mesas[id].currentParticipants < money.mesas[id].maxParticipants.value
    requires AdmitStep(money, g, id, u, now) == Ok(next)
    ensures Sound(next) && id in next.mesas && IsApproved(next.mesas[id], u)
  {
    var m := money.mesas[id];
    var n := AdmitWrites(money, g, id, u, now, next);
    MesaIsSound(money, id);
    AdmittedSound(m, u, ScoreTotalBefore(g, u, BaselineAt(m, now)), now);
    if m.category == Paid {
      PaidEntrySound(money, id, m, u, n, next);
    } else {
      FreeEntrySound(money, id, m, u, n, next);
    }
  }

  /** In a sound state an entry is refused for lack of balance only: its key is always free. */
  lemma EntryKeyIsFree(money: Money, id: MesaId, u: UserId)
    requires Sound(money) && id in money.mesas && !IsApproved(money.mesas[id], u)
    ensures !KeyTaken(money.bank.ledger, u, Entry(id))
    ensures FeeStep(money.bank, id, money.mesas[id], u).Err? <==>
              money.mesas[id].category == Paid
              && (u !in money.bank.wallets || money.bank.wallets[u] < Cost(money.mesas[id]))
  {
    assert BooksSound(id, money.mesas[id], money.bank.ledger);
    assert MesaSound(money.mesas[id]);
  }

  /** What a join that commits had to meet. */
  lemma JoinAccepted(money: Money, g: GameTables.Tables, id: MesaId, u: UserId, now: Time, next: Money)
    requires JoinStep(money, g, id, u, now) == Ok(next)
    ensures id in money.mesas && money.mesas[id].status == Active && !IsApproved(money.mesas[id], u)
    ensures money.mesas[id].maxParticipants.Some?
              && money.mesas[id].currentParticipants < money.mesas[id].maxParticipants.value
    ensures AdmitStep(money, g, id, u, now) == Ok(next)
  {
  }

  lemma JoinSound(money: Money, g: GameTables.Tables, id: MesaId, u: UserId, now: Time, next: Money)
    requires Sound(money) && JoinStep(money, g, id, u, now) == Ok(next)
    ensures Sound(next) && id in money.mesas && !IsApproved(money.mesas[id], u) && id in next.mesas
              && IsApproved(next.mesas[id], u)
  {
    JoinAccepted(money, g, id, u, now, next);
    AdmitSound(money, g, id, u, now, next);
  }

  // ---------- review, requests, invites, creation ----------

  /** Replacing the participants by rows with the same approvals keeps the Mesa. */
  lemma SameApprovals(money: Money, id: MesaId, m: Mesa, ps: seq<Participant>, next: Money)
    requires Sound(money) && id in money.mesas && m == money.mesas[id] && m.status != Closed
    requires EntriesSound(ps, m.category, m.entryFee) && CountApproved(ps) == CountApproved(m.participants)
    requires forall v :: IsApproved(m.(participants := ps), v) <==> IsApproved(m, v)
    requires next == money.(mesas := money.mesas[id := m.(participants := ps)])
    ensures Sound(next)
  {
    hide Sound, BooksSound;
    MesaIsSound(money, id);
    SameBooks(id, m, m.(participants := ps), money.bank.ledger);
    MesaChangedAlone(money, id, m.(participants := ps), next);
  }

  /** Rejecting a pending request changes no approval. */
  lemma RejectedRow(m: Mesa, u: UserId, i: nat, ps: seq<Participant>)
    requires EntriesSound(m.participants, m.category, m.entryFee) && IndexOf(m.participants, u) == Some(i)
    requires m.participants[i].status == Pending
    requires ps == m.participants[i := m.participants[i].(status := Rejected)]
    ensures EntriesSound(ps, m.category, m.entryFee) && CountApproved(ps) == CountApproved(m.participants)
    ensures forall v :: IsApproved(m.(participants := ps), v) <==> IsApproved(m, v)
  {
    hide EntriesSound;
    PendingIsUnpaid(m.participants, i, m.category, m.entryFee);
    RowReplaced(m.participants, i, m.participants[i].(status := Rejected), m.category, m.entryFee);
    CountApprovedUpdate(m.participants, i, m.participants[i].(status := Rejected));
  }

  lemma PendingIsUnpaid(ps: seq<Participant>, i: nat, category: Category, cost: int)
    requires EntriesSound(ps, category, cost) && i < |ps| && ps[i].status == Pending
    ensures EntrySound(ps[i].(status := Rejected), category, cost)
  {
    assert EntrySound(ps[i], category, cost);
  }

  lemma RejectSound(money: Money, id: MesaId, u: UserId, next: Money)
    requires Sound(money) && id in money.mesas
    requires money.mesas[id].status == Active && IndexOf(money.mesas[id].participants, u).Some?
    requires money.mesas[id].participants[IndexOf(money.mesas[id].participants, u).value].status == Pending
    requires next == money.(mesas := money.mesas[id := RejectedIn(money.mesas[id], u)])
    ensures Sound(next)
  {
    hide Sound, IsApproved, EntriesSound, CountApproved;
    var m := money.mesas[id];
    var i := IndexOf(m.participants, u).value;
    var ps := m.participants[i := m.participants[i].(status := Rejected)];
    MesaIsSound(money, id);
    RejectedRow(m, u, i, ps);
    SameApprovals(money, id, m, ps, next);
  }

  lemma ReviewSound(money: Money, g: GameTables.Tables, id: MesaId, u: UserId, reviewer: UserId, approve: bool,
                    now: Time, next: Money)
    requires Sound(money) && ReviewStep(money, g, id, u, reviewer, approve, now) == Ok(next)
    ensures Sound(next)
  {
    hide Sound;
    if approve {
      AdmitSound(money, g, id, u, now, next);
    } else {
      RejectSound(money, id, u, next);
    }
  }

  lemma RowAdds(money: Money, id: MesaId, m: Mesa, p: Participant, next: Money)
    requires Sound(money) && id in money.mesas && m == money.mesas[id] && m.status != Closed
    requires IndexOf(m.participants, p.userId).None? && p.status == Pending && p.entryPaidAt.None?
               && p.entryFeePaid == 0
    requires next == money.(mesas := money.mesas[id := m.(participants := m.participants + [p])])
    ensures Sound(next)
  {
    MesaIsSound(money, id);
    RowAdded(m.participants, p, m.category, m.entryFee);
    assert (m.participants + [p])[..|m.participants|] == m.participants;
    SameApprovals(money, id, m, m.participants + [p], next);
  }

  lemma RequestSound(money: Money, id: MesaId, u: UserId, next: Money)
    requires Sound(money) && next == RequestStep(money, id, u)
    ensures Sound(next)
  {
    if next != money {
      RowAdds(money, id, money.mesas[id], Participant(u, Pending, 0, 0, None, 0, 0, 0, None), next);
    }
  }

  lemma UseCountAppend(uses: seq<InviteUse>, use: InviteUse, c: InviteCode)
    ensures UseCount(uses + [use], c) == UseCount(uses, c) + (if use.code == c then 1 else 0)
  {
    assert (uses + [use])[..|uses|] == uses;
  }

  lemma {:induction false} NoUses(uses: seq<InviteUse>, c: InviteCode)
    requires forall k | 0 <= k < |uses| :: uses[k].code != c
    ensures UseCount(uses, c) == 0
  {
    if |uses| > 0 {
      NoUses(uses[..|uses| - 1], c);
    }
  }

  /** A booked use keeps count and limit. */
  lemma UseCounted(invites: map<InviteCode, Invite>, uses: seq<InviteUse>, code: InviteCode, u: UserId)
    requires CountsSound(invites, uses) && code in invites
    requires invites[code].maxUses.Some? ==> invites[code].usedCount < invites[code].maxUses.value
    ensures CountsSound(invites[code := invites[code].(usedCount := invites[code].usedCount + 1)],
              uses + [InviteUse(code, u)])
  {
    var next := invites[code := invites[code].(usedCount := invites[code].usedCount + 1)];
    forall c | c in next ensures CountSound(next[c], UseCount(uses + [InviteUse(code, u)], c)) {
      UseCountAppend(uses, InviteUse(code, u), c);
    }
  }

  lemma UseBooked(uses: seq<InviteUse>, invites: map<InviteCode, Invite>, mesas: map<MesaId, Mesa>, use: InviteUse)
    requires UsesSound(uses, invites, mesas) && UsesDistinct(uses) && UseSound(use, invites, mesas) && use !in uses
    ensures UsesSound(uses + [use], invites, mesas) && UsesDistinct(uses + [use])
  {
  }

  /** A use that is booked with its entry. */
  lemma BookUseSound(invites: map<InviteCode, Invite>, uses: seq<InviteUse>, mesas: map<MesaId, Mesa>,
                     code: InviteCode, u: UserId,
                     others: map<InviteCode, Invite>)
    requires InvitesSound(invites, uses, mesas) && code in invites && IsApproved(mesas[invites[code].mesa], u)
    requires invites[code].maxUses.Some? ==> invites[code].usedCount < invites[code].maxUses.value
    requires InviteUse(code, u) !in uses
    requires others == invites[code := invites[code].(usedCount := invites[code].usedCount + 1)]
    ensures InvitesSound(others, uses + [InviteUse(code, u)], mesas)
  {
    UseCounted(invites, uses, code, u);
    UsesFrame(uses, invites, mesas, others, mesas);
    UseBooked(uses, others, mesas, InviteUse(code, u));
  }

  /** Who is not approved never used an invite of the Mesa before. */
  lemma UnusedBefore(invites: map<InviteCode, Invite>, uses: seq<InviteUse>, mesas: map<MesaId, Mesa>,
                     code: InviteCode, u: UserId)
    requires UsesSound(uses, invites, mesas) && code in invites && invites[code].mesa in mesas
    requires !IsApproved(mesas[invites[code].mesa], u)
    ensures InviteUse(code, u) !in uses
  {
    forall k | 0 <= k < |uses| ensures uses[k] != InviteUse(code, u) {
      assert UseSound(uses[k], invites, mesas);
    }
  }

  /** A use that lets its user in is an entry with the use booked. */
  lemma UseIsJoin(money: Money, g: GameTables.Tables, code: InviteCode, u: UserId, now: Time, next: Money)
                  returns (joined: Money)
    requires UseInviteStep(money, g, code, u, now) == Ok((next, Joined))
    ensures code in money.invites && JoinStep(money, g, money.invites[code].mesa, u, now) == Ok(joined)
    ensures money.invites[code].maxUses.Some? ==> money.invites[code].usedCount < money.invites[code].maxUses.value
    ensures joined.invites == money.invites && joined.inviteUses == money.inviteUses
    ensures next == joined.(
              invites := money.invites[code := money.invites[code].(usedCount := money.invites[code].usedCount + 1)],
              inviteUses := money.inviteUses + [InviteUse(code, u)])
  {
    joined := JoinStep(money, g, money.invites[code].mesa, u, now).value;
  }

  lemma ReuseChangesNothing(money: Money, g: GameTables.Tables, code: InviteCode, u: UserId, now: Time, next: Money)
    requires UseInviteStep(money, g, code, u, now) == Ok((next, AlreadyApproved))
    ensures next == money
  {
  }

  lemma BookedSound(money: Money, joined: Money, code: InviteCode, u: UserId, next: Money)
    requires Sound(joined) && InviteUse(code, u) !in money.inviteUses
    requires joined.invites == money.invites && joined.inviteUses == money.inviteUses
    requires code in money.invites && money.invites[code].mesa in joined.mesas
               && IsApproved(joined.mesas[money.invites[code].mesa], u)
    requires money.invites[code].maxUses.Some? ==> money.invites[code].usedCount < money.invites[code].maxUses.value
    requires next == joined.(
               invites := money.invites[code := money.invites[code].(usedCount := money.invites[code].usedCount + 1)],
               inviteUses := money.inviteUses + [InviteUse(code, u)])
    ensures Sound(next)
  {
    BookUseSound(money.invites, money.inviteUses, joined.mesas, code, u, next.invites);
  }

  lemma UseInviteSound(money: Money, g: GameTables.Tables, code: InviteCode, u: UserId, now: Time, next: Money,
                       r: InviteResult)
    requires Sound(money) && UseInviteStep(money, g, code, u, now) == Ok((next, r))
    ensures Sound(next)
  {
    if r == Joined {
      var joined := UseIsJoin(money, g, code, u, now, next);
      JoinSound(money, g, money.invites[code].mesa, u, now, joined);
      UnusedBefore(money.invites, money.inviteUses, money.mesas, code, u);
      BookedSound(money, joined, code, u, next);
    } else {
      ReuseChangesNothing(money, g, code, u, now, next);
    }
  }

  lemma NewInviteSound(invites: map<InviteCode, Invite>, uses: seq<InviteUse>, mesas: map<MesaId, Mesa>,
                       code: InviteCode, i: Invite)
    requires InvitesSound(invites, uses, mesas) && code !in invites && i.mesa in mesas
    requires i.usedCount == 0 && (i.maxUses.Some? ==> i.maxUses.value >= 0)
    ensures InvitesSound(invites[code := i], uses, mesas)
  {
    forall k | 0 <= k < |uses| ensures uses[k].code != code {
      assert UseSound(uses[k], invites, mesas);
    }
    NoUses(uses, code);
    UsesFrame(uses, invites, mesas, invites[code := i], mesas);
  }

  lemma CreateInviteSound(money: Money, code: InviteCode, id: MesaId, maxUses: Option<int>, expiresAt: Option<Time>,
                          creator: UserId, now: Time, next: Money)
    requires Sound(money) && code !in money.invites
    requires CreateInviteStep(money, code, id, maxUses, expiresAt, creator, now) == Ok(next)
    ensures Sound(next)
  {
    NewInviteSound(money.invites, money.inviteUses, money.mesas, code, Invite(id, maxUses, 0, expiresAt, true));
  }

  lemma {:induction false} NoOriginRows(ledger: seq<LedgerEntry>, o: Origin)
    requires forall k | 0 <= k < |ledger| :: ledger[k].origin != o
    ensures OriginNet(ledger, o) == 0
  {
    if |ledger| > 0 {
      NoOriginRows(ledger[..|ledger| - 1], o);
    }
  }

  lemma NewMesaSound(p: Proposal, terms: Terms, creator: UserId)
    requires ValidDistribution(p.prizeDistribution) && RulesAccepted(p.description) && terms.maxParticipants > 0
    requires terms.category == Paid ==> terms.accessCost > 0 && terms.sponsorPrizePool == 0
    requires terms.category == SponsoredFree ==> terms.accessCost == 0 && terms.sponsorPrizePool > 0
    ensures MesaSound(NewMesa(p, terms, creator))
  {
    TrimEndHasText(TrimStart(p.description));
  }

  lemma NewMesaBooks(id: MesaId, m: Mesa, ledger: seq<LedgerEntry>)
    requires forall k | 0 <= k < |ledger| && Keyed(ledger[k].origin) :: ledger[k].origin.mesa != id
    requires m.participants == [] && m.grossCollected == 0 && m.settledAt.None?
    ensures BooksSound(id, m, ledger)
  {
    NoOriginRows(ledger, Entry(id));
    NoOriginRows(ledger, Prize(id));
  }

  lemma NoRowsYet(money: Money, id: MesaId)
    requires Sound(money) && id !in money.mesas
    ensures forall k | 0 <= k < |money.bank.ledger| && Keyed(money.bank.ledger[k].origin) ::
              money.bank.ledger[k].origin.mesa != id
  {
  }

  lemma NewMesaAdded(money: Money, id: MesaId, p: Proposal, terms: Terms, creator: UserId, next: Money)
    requires Sound(money) && id !in money.mesas
    requires ValidDistribution(p.prizeDistribution) && RulesAccepted(p.description) && terms.maxParticipants > 0
    requires terms.category == Paid ==> terms.accessCost > 0 && terms.sponsorPrizePool == 0
    requires terms.category == SponsoredFree ==> terms.accessCost == 0 && terms.sponsorPrizePool > 0
    requires next == money.(mesas := money.mesas[id := NewMesa(p, terms, creator)])
    ensures Sound(next)
  {
    hide Sound, MesaSound, BooksSound;
    NewMesaSound(p, terms, creator);
    NoRowsYet(money, id);
    NewMesaBooks(id, NewMesa(p, terms, creator), money.bank.ledger);
    MesaChangedAlone(money, id, NewMesa(p, terms, creator), next);
  }

  /** What creation accepted. */
  lemma CreatedTerms(money: Money, g: GameTables.Tables, id: MesaId, p: Proposal, creator: UserId, now: Time,
                     next: Money) returns (terms: Terms)
    requires CreateStep(money, g, id, p, creator, now) == Ok(next)
    ensures next == money.(mesas := money.mesas[id := NewMesa(p, terms, creator)])
    ensures ValidDistribution(p.prizeDistribution) && RulesAccepted(p.description) && terms.maxParticipants > 0
    ensures terms.category == Paid ==> terms.accessCost > 0 && terms.sponsorPrizePool == 0
    ensures terms.category == SponsoredFree ==> terms.accessCost == 0 && terms.sponsorPrizePool > 0
  {
    terms := ValidateTerms(p.category, p.accessCost, p.entryFee, p.sponsorPrizePool, p.maxParticipants).value;
  }

  lemma CreateSound(money: Money, g: GameTables.Tables, id: MesaId, p: Proposal, creator: UserId, now: Time,
                    next: Money)
    requires Sound(money) && id !in money.mesas
    requires CreateStep(money, g, id, p, creator, now) == Ok(next)
    ensures Sound(next)
  {
    var terms := CreatedTerms(money, g, id, p, creator, now, next);
    NewMesaAdded(money, id, p, terms, creator, next);
  }
}
