/**
 From the entry of a participant to the score the close freezes: the baseline captured on entry
 (src/services/bolao/join-bolao.service.ts:123-133), any run of the game and of the money services,
 and the ranking of the close (src/services/ranking/close-ranking.service.ts:63-79).
 */
module FrozenScores {
  import opened Common
  import opened GameTables
  import opened GameInvariant
  import opened Columns
  import opened HitLedger
  import opened RankingTiebreak
  import opened RankingWindowScore
  import GameRuns
  import MoneyTables
  import MesaIntegrity
  import MesaEntry
  import MesaClose
  import MesaInvariant
  import MesaSettlement
  import MoneyRuns

  // ---------- the baseline, and what was scored after it ----------

  predicate ScoredIn(t: Tables, r: int) {
    0 <= r < |t.rounds| && t.rounds[r].status == Scored
  }

  /** Rounds closing before the start and scored only later. */
  function Late(before: Tables, after: Tables, start: Time): int -> bool {
    r => 0 <= r < |after.rounds| && after.rounds[r].closeAt < start && !ScoredIn(before, r)
  }

  ghost predicate Continues(before: Tables, after: Tables) {
    && |before.rounds| <= |after.rounds|
    && forall r | ScoredIn(before, r) :: after.rounds[r] == before.rounds[r]
  }

  lemma RunContinues(before: Tables, actions: seq<GameRuns.Action>)
    requires Sound(before)
    ensures Continues(before, GameRuns.Run(before, actions))
  {
    var after := GameRuns.Run(before, actions);
    forall r | ScoredIn(before, r) ensures r < |after.rounds| && after.rounds[r] == before.rounds[r] {
      GameRuns.ScoredIsFinal(before, actions, r);
    }
    RoundsOnlyGrow(before, actions);
  }

  lemma {:induction false} RoundsOnlyGrow(t: Tables, actions: seq<GameRuns.Action>)
    requires Sound(t)
    ensures |t.rounds| <= |GameRuns.Run(t, actions).rounds|
  {
    if |actions| > 0 {
      var n := |actions| - 1;
      RoundsOnlyGrow(t, actions[..n]);
      GameRuns.RunSound(t, actions[..n]);
      GameRuns.LifecycleSafe(GameRuns.Run(t, actions[..n]), actions[n]);
    }
  }

  /** Rounds before the start are those scored already and those scored late. */
  lemma {:induction false} LateSplit(before: Tables, after: Tables, u: UserId, start: Time, n: nat)
    requires Continues(before, after) && n <= |after.rounds|
    ensures var m := if n <= |before.rounds| then n else |before.rounds|;
            SelectedRounds(after.rounds, u, Score, Accepted(after.rounds, (x: Time) => x < start), n) ==
            SelectedRounds(before.rounds, u, Score, Accepted(before.rounds, (x: Time) => x < start), m)
            + SelectedRounds(after.rounds, u, Score, Late(before, after, start), n)
  {
    if n > 0 {
      LateSplit(before, after, u, start, n - 1);
    }
  }

  /** The baseline read from sound tables, in whatever order they were scored. */
  lemma BaselineIs(t: Tables, u: UserId, start: Time)
    requires LedgerSound(t)
    ensures ScoreTotalBefore(t, u, start) ==
            SelectedRounds(t.rounds, u, Score, Accepted(t.rounds, (x: Time) => x < start), |t.rounds|)
            + Misplaced(Rows(t.histories, u), t.rounds, Score, (x: Time) => x < start)
  {
    SoundUserRows(t, u);
    RowsBaseline(t, u, Rows(t.histories, u), start);
  }

  lemma RowsBaseline(t: Tables, u: UserId, rows: seq<History>, start: Time)
    requires UserRows(t, u, rows)
    ensures ScoreTotalBefore(t, u, start) ==
            SelectedRounds(t.rounds, u, Score, Accepted(t.rounds, (x: Time) => x < start), |t.rounds|)
            + Misplaced(rows, t.rounds, Score, (x: Time) => x < start)
  {
    BaselineCarried(t, u, start);
    LatestCarriesExactly(rows, t.rounds, Score, (x: Time) => x < start);
    RowsAddUpRounds(rows, t.rounds, u, Score, Accepted(t.rounds, (x: Time) => x < start));
  }

  lemma EndIs(t: Tables, u: UserId, rows: seq<History>, start: Time, end: Time)
    requires UserRows(t, u, rows) && start <= end
    ensures CarriedOr0(Latest(rows, t.rounds, (x: Time) => x <= end), Score) ==
            SelectedRounds(t.rounds, u, Score, Accepted(t.rounds, (x: Time) => x < start), |t.rounds|)
            + SelectedRounds(t.rounds, u, Score, InWindow(t.rounds, start, end), |t.rounds|)
            + Misplaced(rows, t.rounds, Score, (x: Time) => x <= end)
  {
    ColumnExactly(rows, t.rounds, u, Score, start, end);
    LatestCarriesExactly(rows, t.rounds, Score, (x: Time) => x < start);
    RowsAddUpRounds(rows, t.rounds, u, Score, Accepted(t.rounds, (x: Time) => x < start));
  }

  /** A user without a row up to the end had no baseline either. */
  lemma NoRowNoBaseline(before: Tables, after: Tables, u: UserId, start: Time, end: Time)
    requires LedgerSound(before) && LedgerSound(after) && Continues(before, after) && start <= end
    requires Latest(Rows(after.histories, u), after.rounds, (x: Time) => x <= end) == None
    ensures ScoreTotalBefore(before, u, start) == 0
  {
    var accepts := (x: Time) => x < start;
    var k := LatestIndex(Rows(before.histories, u), before.rounds, accepts);
    if k.Some? {
      RowCarriesOver(before, after, u, k.value, end);
    }
  }

  lemma RowCarriesOver(before: Tables, after: Tables, u: UserId, k: nat, end: Time)
    requires LedgerSound(before) && LedgerSound(after) && Continues(before, after)
    requires k < |Rows(before.histories, u)| && CloseAt(Rows(before.histories, u)[k], before.rounds) <= end
    ensures Latest(Rows(after.histories, u), after.rounds, (x: Time) => x <= end) != None
  {
    hide Latest, LatestIndex, AllBacked, Rows;
    var h := Rows(before.histories, u)[k];
    RowIsBacked(before, u, k);
    RoundHasRow(after, u, h.roundId);
    var none := LatestIndex(Rows(after.histories, u), after.rounds, (x: Time) => x <= end);
  }

  lemma EndedReads(t: Tables, start: Time, end: Time, e: Entrant, now: Time)
    requires end < now
    ensures Latest(Rows(t.histories, e.userId), t.rounds, (x: Time) => x <= end) == None ==>
              WindowRowOf(t, Window(Some(start), Some(end)), e, now).score == 0
    ensures Latest(Rows(t.histories, e.userId), t.rounds, (x: Time) => x <= end) != None ==>
              WindowRowOf(t, Window(Some(start), Some(end)), e, now).score ==
              CarriedOr0(Latest(Rows(t.histories, e.userId), t.rounds, (x: Time) => x <= end), Score) - e.scoreInitial
  {
    EndedScore(t, start, end, e, now);
  }

  /** What an ended window has too much over the rounds that close inside it, if the baseline was captured earlier. */
  function Excess(before: Tables, after: Tables, u: UserId, start: Time, end: Time): int {
    SelectedRounds(after.rounds, u, Score, Late(before, after, start), |after.rounds|)
    + Misplaced(Rows(after.histories, u), after.rounds, Score, (x: Time) => x <= end)
    - Misplaced(Rows(before.histories, u), before.rounds, Score, (x: Time) => x < start)
  }

  lemma EndedScoreSinceRows(before: Tables, after: Tables, old_: seq<History>, rows: seq<History>, start: Time,
                            end: Time, e: Entrant)
    requires UserRows(before, e.userId, old_) && UserRows(after, e.userId, rows) && Continues(before, after)
    requires start <= end && e.scoreInitial == ScoreTotalBefore(before, e.userId, start)
    ensures CarriedOr0(Latest(rows, after.rounds, (x: Time) => x <= end), Score) - e.scoreInitial ==
            SelectedRounds(after.rounds, e.userId, Score, InWindow(after.rounds, start, end), |after.rounds|)
            + Excess(before, after, e.userId, start, end)
  {
    RowsBaseline(before, e.userId, old_, start);
    LateSplit(before, after, e.userId, start, |after.rounds|);
    EndIs(after, e.userId, rows, start, end);
  }

  /** After any run of the game the score is what the rounds closing inside the window earned, and that excess. */
  lemma EndedScoreSince(before: Tables, after: Tables, start: Time, end: Time, e: Entrant, now: Time)
    requires LedgerSound(before) && LedgerSound(after) && Continues(before, after)
    requires start <= end < now && e.scoreInitial == ScoreTotalBefore(before, e.userId, start)
    ensures WindowRowOf(after, Window(Some(start), Some(end)), e, now).score ==
            SelectedRounds(after.rounds, e.userId, Score, InWindow(after.rounds, start, end), |after.rounds|)
            + Excess(before, after, e.userId, start, end)
  {
    SoundUserRows(before, e.userId);
    SoundUserRows(after, e.userId);
    if Latest(Rows(after.histories, e.userId), after.rounds, (x: Time) => x <= end) == None {
      NoRowNoBaseline(before, after, e.userId, start, end);
    }
    EndedScoreSinceRows(before, after, Rows(before.histories, e.userId), Rows(after.histories, e.userId), start, end,
      e);
    EndedReads(after, start, end, e, now);
  }

  // ---------- the entry stays until the close ----------

  /** An approved participant with the baseline captured on entry, in a Mesa with fixed dates. */
  ghost predicate Entered(m: MoneyTables.Mesa, u: UserId, start: Option<Time>, end: Option<Time>, initial: int) {
    && m.startDate == start && m.endDate == end && MesaEntry.IsApproved(m, u)
    && m.participants[MesaEntry.IndexOf(m.participants, u).value].scoreInitial == initial
  }

  ghost predicate EnteredIn(money: MoneyTables.Money, id: MoneyTables.MesaId, u: UserId, start: Option<Time>,
                            end: Option<Time>, initial: int) {
    id in money.mesas && Entered(money.mesas[id], u, start, end, initial)
  }

  lemma {:induction false} FirstIndex(ps: seq<MoneyTables.Participant>, u: UserId, k: nat)
    requires k < |ps| && ps[k].userId == u && forall j | 0 <= j < k :: ps[j].userId != u
    ensures MesaEntry.IndexOf(ps, u) == Some(k)
    decreases |ps|
  {
    var n := |ps| - 1;
    if k < n {
      FirstIndex(ps[..n], u, k);
    }
  }

  lemma {:induction false} IndexIsFirst(ps: seq<MoneyTables.Participant>, u: UserId)
    requires MesaEntry.IndexOf(ps, u).Some?
    ensures forall j | 0 <= j < MesaEntry.IndexOf(ps, u).value :: ps[j].userId != u
  {
    var n := |ps| - 1;
    if MesaEntry.IndexOf(ps[..n], u).Some? {
      IndexIsFirst(ps[..n], u);
    }
  }

  lemma AppendKeepsIndex(ps: seq<MoneyTables.Participant>, p: MoneyTables.Participant, u: UserId)
    requires MesaEntry.IndexOf(ps, u).Some?
    ensures MesaEntry.IndexOf(ps + [p], u) == MesaEntry.IndexOf(ps, u)
  {
    IndexIsFirst(ps, u);
    FirstIndex(ps + [p], u, MesaEntry.IndexOf(ps, u).value);
  }

  lemma UpdateKeepsIndex(ps: seq<MoneyTables.Participant>, k: nat, p: MoneyTables.Participant, u: UserId)
    requires MesaEntry.IndexOf(ps, u).Some? && k < |ps| && p.userId == ps[k].userId
    ensures MesaEntry.IndexOf(ps[k := p], u) == MesaEntry.IndexOf(ps, u)
  {
    IndexIsFirst(ps, u);
    FirstIndex(ps[k := p], u, MesaEntry.IndexOf(ps, u).value);
  }

  lemma EnrolledKeepsEntry(ps: seq<MoneyTables.Participant>, v: UserId, scoreInitial: int, fee: int,
                           paidAt: Option<Time>, u: UserId)
    requires u != v && MesaEntry.IndexOf(ps, u).Some?
    ensures var qs := MesaEntry.Enrolled(ps, v, scoreInitial, fee, paidAt);
            var i := MesaEntry.IndexOf(ps, u);
            MesaEntry.IndexOf(qs, u) == i && qs[i.value] == ps[i.value]
  {
    var j, row := MesaEntry.IndexOf(ps, v), MesaEntry.ApprovedRow(None, v, scoreInitial, fee, paidAt);
    if j.Some? {
      UpdateKeepsIndex(ps, j.value, MesaEntry.ApprovedRow(Some(ps[j.value]), v, scoreInitial, fee, paidAt), u);
    } else {
      AppendKeepsIndex(ps, row, u);
    }
  }

  lemma AdmittedKeepsEntry(m: MoneyTables.Mesa, v: UserId, scoreInitial: int, now: Time, u: UserId,
                           start: Option<Time>, end: Option<Time>, initial: int)
    requires Entered(m, u, start, end, initial) && u != v
    ensures Entered(MesaEntry.Admitted(m, v, scoreInitial, now), u, start, end, initial)
  {
    EnrolledKeepsEntry(m.participants, v, scoreInitial,
      if m.category == MoneyTables.Paid then MesaIntegrity.Cost(m) else 0,
                       if m.category == MoneyTables.Paid then Some(now) else None, u);
  }

  lemma AdmitKeepsEntered(money: MoneyTables.Money, g: Tables, at: MoneyTables.MesaId, v: UserId, now: Time,
                          next: MoneyTables.Money,
                          id: MoneyTables.MesaId, u: UserId, start: Option<Time>, end: Option<Time>, initial: int)
    requires EnteredIn(money, id, u, start, end, initial)
    requires at in money.mesas && MesaEntry.AdmitStep(money, g, at, v, now) == Ok(next) && (at == id ==> v != u)
    ensures EnteredIn(next, id, u, start, end, initial)
  {
    var n := MesaInvariant.AdmitWrites(money, g, at, v, now, next);
    if at == id {
      AdmittedKeepsEntry(money.mesas[id], v, ScoreTotalBefore(g, v, MesaEntry.BaselineAt(money.mesas[id], now)), now,
        u, start, end, initial);
    }
  }

  lemma JoinKeepsEntered(money: MoneyTables.Money, g: Tables, at: MoneyTables.MesaId, v: UserId, now: Time,
                         next: MoneyTables.Money,
                         id: MoneyTables.MesaId, u: UserId, start: Option<Time>, end: Option<Time>, initial: int)
    requires EnteredIn(money, id, u, start, end, initial) && MesaEntry.JoinStep(money, g, at, v, now) == Ok(next)
    ensures EnteredIn(next, id, u, start, end, initial)
  {
    MesaInvariant.JoinAccepted(money, g, at, v, now, next);
    AdmitKeepsEntered(money, g, at, v, now, next, id, u, start, end, initial);
  }

  lemma RejectedKeepsEntry(m: MoneyTables.Mesa, v: UserId, u: UserId, start: Option<Time>, end: Option<Time>,
                           initial: int)
    requires Entered(m, u, start, end, initial) && u != v
    ensures Entered(MesaEntry.RejectedIn(m, v), u, start, end, initial)
  {
    var j := MesaEntry.IndexOf(m.participants, v);
    if j.Some? {
      UpdateKeepsIndex(m.participants, j.value, m.participants[j.value].(status := MoneyTables.Rejected), u);
    }
  }

  lemma ReviewKeepsEntered(money: MoneyTables.Money, g: Tables, at: MoneyTables.MesaId, v: UserId, reviewer: UserId,
                           approve: bool, now: Time,
                           next: MoneyTables.Money, id: MoneyTables.MesaId, u: UserId, start: Option<Time>,
                           end: Option<Time>, initial: int)
    requires EnteredIn(money, id, u, start, end, initial)
               && MesaEntry.ReviewStep(money, g, at, v, reviewer, approve, now) == Ok(next)
    ensures EnteredIn(next, id, u, start, end, initial)
  {
    if approve {
      AdmitKeepsEntered(money, g, at, v, now, next, id, u, start, end, initial);
    } else if at == id {
      RejectedKeepsEntry(money.mesas[id], v, u, start, end, initial);
    }
  }

  lemma UseKeepsEntered(money: MoneyTables.Money, g: Tables, code: MoneyTables.InviteCode, v: UserId, now: Time,
                        next: MoneyTables.Money,
                        r: MesaEntry.InviteResult, id: MoneyTables.MesaId, u: UserId, start: Option<Time>,
                        end: Option<Time>, initial: int)
    requires EnteredIn(money, id, u, start, end, initial)
               && MesaEntry.UseInviteStep(money, g, code, v, now) == Ok((next, r))
    ensures EnteredIn(next, id, u, start, end, initial)
  {
    if r == MesaEntry.Joined {
      var joined := MesaInvariant.UseIsJoin(money, g, code, v, now, next);
      JoinKeepsEntered(money, g, money.invites[code].mesa, v, now, joined, id, u, start, end, initial);
    } else {
      MesaInvariant.ReuseChangesNothing(money, g, code, v, now, next);
    }
  }

  lemma RequestKeepsEntered(money: MoneyTables.Money, at: MoneyTables.MesaId, v: UserId, next: MoneyTables.Money,
                            id: MoneyTables.MesaId, u: UserId, start: Option<Time>, end: Option<Time>, initial: int)
    requires EnteredIn(money, id, u, start, end, initial) && next == MesaEntry.RequestStep(money, at, v)
    ensures EnteredIn(next, id, u, start, end, initial)
  {
    if next != money && at == id {
      AppendKeepsIndex(money.mesas[id].participants,
        MoneyTables.Participant(v, MoneyTables.Pending, 0, 0, None, 0, 0, 0, None), u);
    }
  }

  lemma EntryKeepsEntered(money: MoneyTables.Money, e: MoneyRuns.Entry, g: Tables, now: Time, next: MoneyTables.Money,
                          id: MoneyTables.MesaId, u: UserId, start: Option<Time>, end: Option<Time>, initial: int)
    requires EnteredIn(money, id, u, start, end, initial) && next == MoneyRuns.ApplyEntry(money, e, g, now)
    ensures EnteredIn(next, id, u, start, end, initial)
  {
    if next != money {
      match e
      case RequestEntry(at, v) => RequestKeepsEntered(money, at, v, next, id, u, start, end, initial);
      case JoinMesa(at, v) => JoinKeepsEntered(money, g, at, v, now, next, id, u, start, end, initial);
      case ReviewEntry(at, v, reviewer, approve) =>
        ReviewKeepsEntered(money, g, at, v, reviewer, approve, now, next, id, u, start, end, initial);
      case UseCode(code, v) =>
        UseKeepsEntered(money, g, code, v, now, next, MesaEntry.UseInviteStep(money, g, code, v, now).value.1, id, u,
          start, end, initial);
    }
  }

  lemma FreezeKeepsEntry(m: MoneyTables.Mesa, rows: seq<Ranked<WindowRow>>, u: UserId, start: Option<Time>,
                         end: Option<Time>, initial: int)
    requires Entered(m, u, start, end, initial)
    ensures Entered(m.(participants := MesaClose.Freeze(m.participants, rows)), u, start, end, initial)
  {
    MesaSettlement.FreezeKeepsEntries(m.participants, rows);
    MesaSettlement.SameEntriesSameCounts(m.participants, MesaClose.Freeze(m.participants, rows));
    var i := MesaEntry.IndexOf(m.participants, u);
    assert MesaSettlement.SameEntry(m.participants[i.value], MesaClose.Freeze(m.participants, rows)[i.value]);
  }

  lemma SettledKeepsEntry(m: MoneyTables.Mesa, now: Time, u: UserId, start: Option<Time>, end: Option<Time>,
                          initial: int)
    requires Entered(m, u, start, end, initial)
    ensures Entered(MesaClose.Settled(m, now).(status := MoneyTables.Closed), u, start, end, initial)
  {
  }

  lemma CloseKeepsEntered(money: MoneyTables.Money, g: Tables, at: MoneyTables.MesaId, now: Time, force: bool,
                          next: MoneyTables.Money,
                          id: MoneyTables.MesaId, u: UserId, start: Option<Time>, end: Option<Time>, initial: int)
    requires MesaInvariant.Sound(money) && EnteredIn(money, id, u, start, end, initial)
    requires next == MoneyRuns.Committed(money, MesaClose.CloseStep(money, g, at, now, force))
    ensures EnteredIn(next, id, u, start, end, initial)
  {
    if MesaClose.CloseStep(money, g, at, now, force).Ok? {
      MesaSettlement.CloseEffect(money, g, at, now, force, next);
      if at == id {
        var m, rows := money.mesas[id], MesaClose.RowsOf(money.mesas[id], g, now);
        FreezeKeepsEntry(m, rows, u, start, end, initial);
        SettledKeepsEntry(m.(participants := MesaClose.Freeze(m.participants, rows)), now, u, start, end, initial);
      }
    }
  }

  lemma RecalculateKeepsEntered(money: MoneyTables.Money, g: Tables, at: MoneyTables.MesaId, now: Time,
                                next: MoneyTables.Money,
                                id: MoneyTables.MesaId, u: UserId, start: Option<Time>, end: Option<Time>, initial: int)
    requires EnteredIn(money, id, u, start, end, initial) && next == MesaClose.RecalculateStep(money, g, at, now)
    ensures EnteredIn(next, id, u, start, end, initial)
  {
    if next != money && at == id {
      FreezeKeepsEntry(money.mesas[id], MesaClose.RowsOf(money.mesas[id], g, now), u, start, end, initial);
    }
  }

  lemma OpeningKeepsEntered(money: MoneyTables.Money, d: MoneyRuns.Desk, g: Tables, now: Time, next: MoneyTables.Money,
                            id: MoneyTables.MesaId, u: UserId, start: Option<Time>, end: Option<Time>, initial: int)
    requires EnteredIn(money, id, u, start, end, initial) && next == MoneyRuns.ApplyDesk(money, d, g, now)
    requires d.CreateMesa? || d.InviteTo?
    ensures EnteredIn(next, id, u, start, end, initial)
  {
    hide Entered, MesaEntry.CreateStep, MesaEntry.CreateInviteStep;
    match d
    case CreateMesa(at, p, creator) =>
      if next != money {
        CreateKeepsEntered(money, g, at, p, creator, now, next, id, u, start, end, initial);
      }
    case InviteTo(code, at, maxUses, expiresAt, creator) =>
      if next != money {
        InviteKeepsMesas(money, code, at, maxUses, expiresAt, creator, now, next);
      }
  }

  lemma CreateKeepsEntered(money: MoneyTables.Money, g: Tables, at: MoneyTables.MesaId, p: MesaEntry.Proposal,
                           creator: UserId, now: Time, next: MoneyTables.Money,
                           id: MoneyTables.MesaId, u: UserId, start: Option<Time>, end: Option<Time>, initial: int)
    requires EnteredIn(money, id, u, start, end, initial) && at !in money.mesas
    requires MesaEntry.CreateStep(money, g, at, p, creator, now) == Ok(next)
    ensures EnteredIn(next, id, u, start, end, initial)
  {
    hide Entered, MesaEntry.CreateStep;
    var terms := MesaInvariant.CreatedTerms(money, g, at, p, creator, now, next);
  }

  lemma InviteKeepsMesas(money: MoneyTables.Money, code: MoneyTables.InviteCode, id: MoneyTables.MesaId,
                         maxUses: Option<int>, expiresAt: Option<Time>, creator: UserId, now: Time,
                         next: MoneyTables.Money)
    requires MesaEntry.CreateInviteStep(money, code, id, maxUses, expiresAt, creator, now) == Ok(next)
    ensures next.mesas == money.mesas
  {
  }

  lemma DeskKeepsEntered(money: MoneyTables.Money, d: MoneyRuns.Desk, g: Tables, now: Time, next: MoneyTables.Money,
                         id: MoneyTables.MesaId, u: UserId, start: Option<Time>, end: Option<Time>, initial: int)
    requires MesaInvariant.Sound(money) && EnteredIn(money, id, u, start, end, initial)
               && next == MoneyRuns.ApplyDesk(money, d, g, now)
    ensures EnteredIn(next, id, u, start, end, initial)
  {
    match d
    case CloseMesa(at, force) => CloseKeepsEntered(money, g, at, now, force, next, id, u, start, end, initial);
    case RecalculateMesa(at) => RecalculateKeepsEntered(money, g, at, now, next, id, u, start, end, initial);
    case _ => OpeningKeepsEntered(money, d, g, now, next, id, u, start, end, initial);
  }

  lemma EventKeepsEntered(money: MoneyTables.Money, e: MoneyRuns.Event, next: MoneyTables.Money,
                          id: MoneyTables.MesaId, u: UserId, start: Option<Time>, end: Option<Time>, initial: int)
    requires MesaInvariant.Sound(money) && EnteredIn(money, id, u, start, end, initial)
               && next == MoneyRuns.Apply(money, e)
    ensures EnteredIn(next, id, u, start, end, initial)
  {
    hide MesaInvariant.Sound, Entered, MoneyRuns.ApplyEntry, MoneyRuns.ApplyDesk, MoneyRuns.ApplyTransfer;
    match e.action
    case Enter(entry) => EntryKeepsEntered(money, entry, e.game, e.now, next, id, u, start, end, initial);
    case Manage(desk) => DeskKeepsEntered(money, desk, e.game, e.now, next, id, u, start, end, initial);
    case Move(transfer) => TransferKeepsMesas(money, transfer, e.now);
  }

  lemma TransferKeepsMesas(money: MoneyTables.Money, t: MoneyRuns.Transfer, now: Time)
    ensures MoneyRuns.ApplyTransfer(money, t, now).mesas == money.mesas
  {
  }

  /** Through any run of the money services the baseline captured on entry stays. */
  lemma {:induction false} RunKeepsEntered(money: MoneyTables.Money, events: seq<MoneyRuns.Event>,
                                           id: MoneyTables.MesaId, u: UserId, start: Option<Time>, end: Option<Time>,
                                           initial: int)
    requires MoneyRuns.AllSound(money) && EnteredIn(money, id, u, start, end, initial)
    ensures EnteredIn(MoneyRuns.Run(money, events), id, u, start, end, initial)
  {
    if |events| > 0 {
      var n := |events| - 1;
      RunKeepsEntered(money, events[..n], id, u, start, end, initial);
      MoneyRuns.RunKeeps(money, events[..n]);
      EventKeepsEntered(MoneyRuns.Run(money, events[..n]), events[n], MoneyRuns.Run(money, events), id, u, start,
        end, initial);
    }
  }

  // ---------- the row the close ranks ----------

  lemma {:induction false} EntrantListed(ps: seq<MoneyTables.Participant>, k: nat)
    requires k < |ps| && ps[k].status == MoneyTables.Approved
    ensures Entrant(ps[k].userId, ps[k].scoreInitial) in MesaClose.Entrants(ps)
    decreases |ps|
  {
    var n := |ps| - 1;
    if k < n {
      EntrantListed(ps[..n], k);
    }
  }

  /** The ranking has the row of every approved participant, measured from the baseline of the entry. */
  lemma RankedRow(m: MoneyTables.Mesa, g: Tables, now: Time, u: UserId, start: Option<Time>, end: Option<Time>,
                  initial: int) returns (k: nat)
    requires Entered(m, u, start, end, initial)
    ensures k < |MesaClose.RowsOf(m, g, now)|
    ensures MesaClose.RowsOf(m, g, now)[k].row == WindowRowOf(g, Window(start, end), Entrant(u, initial), now)
  {
    var entrants := MesaClose.Entrants(m.participants);
    EntrantListed(m.participants, MesaEntry.IndexOf(m.participants, u).value);
    var j :| 0 <= j < |entrants| && entrants[j] == Entrant(u, initial);
    var raw := WindowRows(g, Window(start, end), entrants, now);
    k := RankHasRow(raw, j);
  }

  lemma RankHasRow(raw: seq<WindowRow>, j: nat) returns (k: nat)
    requires j < |raw|
    ensures k < |raw| && RankRows(raw, RowMetrics)[k].row == raw[j]
  {
    var sorted := SortRows(raw, RowMetrics);
    SortRowsSorts(raw, RowMetrics);
    assert raw[j] in multiset(raw);
    assert raw[j] in sorted;
    k :| 0 <= k < |sorted| && sorted[k] == raw[j];
  }

  /** What a participant holds of a row of the ranking. */
  predicate Holds(p: MoneyTables.Participant, row: WindowRow) {
    p.score == row.score && p.doubleHits == row.doubleHits && p.superDoubleHits == row.superDoubleHits
  }

  /** The score and the hits a committed close leaves with a participant. */
  lemma FrozenIsRead(money: MoneyTables.Money, g: Tables, id: MoneyTables.MesaId, now: Time, force: bool,
                     next: MoneyTables.Money,
                     u: UserId, start: Option<Time>, end: Option<Time>, initial: int)
    requires MesaInvariant.Sound(money) && MesaClose.CloseStep(money, g, id, now, force) == Ok(next)
    requires EnteredIn(money, id, u, start, end, initial)
    ensures EnteredIn(next, id, u, start, end, initial)
    ensures Holds(next.mesas[id].participants[MesaEntry.IndexOf(next.mesas[id].participants, u).value],
              WindowRowOf(g, Window(start, end), Entrant(u, initial), now))
  {
    var m, rows := money.mesas[id], MesaClose.RowsOf(money.mesas[id], g, now);
    CloseKeepsEntered(money, g, id, now, force, next, id, u, start, end, initial);
    MesaSettlement.CloseEffect(money, g, id, now, force, next);
    var k := RankedRow(m, g, now, u, start, end, initial);
    MesaInvariant.MesaIsSound(money, id);
    MesaSettlement.RowsAreRanked(m, g, now);
    MesaSettlement.FreezeWritesEachRow(m.participants, rows, k);
    MesaSettlement.FreezeKeepsEntries(m.participants, rows);
    MesaSettlement.SameEntriesSameCounts(m.participants, MesaClose.Freeze(m.participants, rows));
  }

  /** An admission captures the running total before the start. */
  lemma AdmissionEnters(money: MoneyTables.Money, g: Tables, id: MoneyTables.MesaId, u: UserId, now: Time,
                        joined: MoneyTables.Money, start: Time)
    requires id in money.mesas && MesaEntry.AdmitStep(money, g, id, u, now) == Ok(joined)
               && money.mesas[id].startDate == Some(start)
    ensures EnteredIn(joined, id, u, Some(start), money.mesas[id].endDate, ScoreTotalBefore(g, u, start))
  {
    var m := money.mesas[id];
    var n := MesaInvariant.AdmitWrites(money, g, id, u, now, joined);
    EnrolledEnters(m.participants, u, ScoreTotalBefore(g, u, start),
      if m.category == MoneyTables.Paid then MesaIntegrity.Cost(m) else 0,
                   if m.category == MoneyTables.Paid then Some(now) else None);
  }

  lemma EnrolledEnters(ps: seq<MoneyTables.Participant>, u: UserId, initial: int, fee: int, paidAt: Option<Time>)
    ensures var qs := MesaEntry.Enrolled(ps, u, initial, fee, paidAt);
            var i := MesaEntry.IndexOf(qs, u);
            i.Some? && qs[i.value].status == MoneyTables.Approved && qs[i.value].scoreInitial == initial
  {
    var i := MesaEntry.IndexOf(ps, u);
    if i.Some? {
      UpdateKeepsIndex(ps, i.value, MesaEntry.ApprovedRow(Some(ps[i.value]), u, initial, fee, paidAt), u);
    } else {
      FirstIndex(ps + [MesaEntry.ApprovedRow(None, u, initial, fee, paidAt)], u, |ps|);
    }
  }

  /**
   The course of an entry: a user is admitted to a Mesa with fixed dates, the money services and the
   game run on in any way, and a close of the Mesa commits.
   */
  datatype Course = Course(
    money: MoneyTables.Money, id: MoneyTables.MesaId, start: Time, end: Option<Time>,
    user: UserId, entry: Time, joined: MoneyTables.Money,
    events: seq<MoneyRuns.Event>, due: MoneyTables.Money, before: Tables, actions: seq<GameRuns.Action>, after: Tables,
    now: Time, force: bool, closed: MoneyTables.Money)

  ghost predicate Taken(c: Course) {
    && c.id in c.money.mesas
    && c.money.mesas[c.id].startDate == Some(c.start) && c.money.mesas[c.id].endDate == c.end
    && Sound(c.before) && MesaEntry.AdmitStep(c.money, c.before, c.id, c.user, c.entry) == Ok(c.joined)
    && MoneyRuns.AllSound(c.joined) && c.due == MoneyRuns.Run(c.joined, c.events)
    && c.after == GameRuns.Run(c.before, c.actions)
    && MesaClose.CloseStep(c.due, c.after, c.id, c.now, c.force) == Ok(c.closed)
  }

  /** What is stored for a user in a Mesa. */
  function Stored(money: MoneyTables.Money, id: MoneyTables.MesaId, u: UserId): Option<MoneyTables.Participant> {
    if id !in money.mesas then None
    else
      var i := MesaEntry.IndexOf(money.mesas[id].participants, u);
      if i.None? then None else Some(money.mesas[id].participants[i.value])
  }

  /** The window row the close reads for the user. */
  function FinalRow(c: Course): WindowRow {
    WindowRowOf(c.after, Window(Some(c.start), c.end), Entrant(c.user, ScoreTotalBefore(c.before, c.user, c.start)),
      c.now)
  }

  lemma EntryIsRead(c: Course)
    requires Taken(c)
    ensures Stored(c.closed, c.id, c.user).Some? && Holds(Stored(c.closed, c.id, c.user).value, FinalRow(c))
  {
    hide Sound, MoneyRuns.AllSound, MesaInvariant.Sound, Holds, Entered, WindowRowOf, MesaEntry.AdmitStep,
      MesaClose.CloseStep;
    var initial := ScoreTotalBefore(c.before, c.user, c.start);
    AdmissionEnters(c.money, c.before, c.id, c.user, c.entry, c.joined, c.start);
    RunKeepsEntered(c.joined, c.events, c.id, c.user, Some(c.start), c.end, initial);
    MoneyRuns.RunKeeps(c.joined, c.events);
    StillSound(c.due);
    FrozenIsRead(c.due, c.after, c.id, c.now, c.force, c.closed, c.user, Some(c.start), c.end, initial);
    EnteredIsStored(c.closed, c.id, c.user, Some(c.start), c.end, initial);
  }

  lemma StillSound(money: MoneyTables.Money)
    requires MoneyRuns.AllSound(money)
    ensures MesaInvariant.Sound(money)
  {
  }

  lemma EnteredIsStored(money: MoneyTables.Money, id: MoneyTables.MesaId, u: UserId, start: Option<Time>,
                        end: Option<Time>, initial: int)
    requires EnteredIn(money, id, u, start, end, initial)
    ensures id in money.mesas && MesaEntry.IndexOf(money.mesas[id].participants, u).Some?
    ensures Stored(money, id, u) ==
            Some(money.mesas[id].participants[MesaEntry.IndexOf(money.mesas[id].participants, u).value])
  {
  }

  lemma RunScores(before: Tables, actions: seq<GameRuns.Action>, after: Tables, start: Time, end: Time, e: Entrant,
                  now: Time)
    requires Sound(before) && after == GameRuns.Run(before, actions)
    requires start <= end < now && e.scoreInitial == ScoreTotalBefore(before, e.userId, start)
    ensures WindowRowOf(after, Window(Some(start), Some(end)), e, now).score ==
            SelectedRounds(after.rounds, e.userId, Score, InWindow(after.rounds, start, end), |after.rounds|)
            + Excess(before, after, e.userId, start, end)
  {
    RunContinues(before, actions);
    GameRuns.RunSound(before, actions);
    EndedScoreSince(before, after, start, end, e, now);
  }

  /** How far a baseline moves over a run of the game: by what is scored late, and by what is misplaced since. */
  lemma BaselineMoves(before: Tables, actions: seq<GameRuns.Action>, after: Tables, u: UserId, start: Time)
    requires Sound(before) && after == GameRuns.Run(before, actions)
    ensures ScoreTotalBefore(after, u, start) ==
            ScoreTotalBefore(before, u, start)
              + SelectedRounds(after.rounds, u, Score, Late(before, after, start), |after.rounds|)
            + Misplaced(Rows(after.histories, u), after.rounds, Score, (x: Time) => x < start)
            - Misplaced(Rows(before.histories, u), before.rounds, Score, (x: Time) => x < start)
  {
    RunContinues(before, actions);
    GameRuns.RunSound(before, actions);
    BaselineIs(before, u, start);
    BaselineIs(after, u, start);
    LateSplit(before, after, u, start, |after.rounds|);
  }

  /**
   A close after the end: the frozen score is what the rounds closing inside the window earned, and
   what was scored late before the start, or out of closing order, comes on top.
   */
  lemma FrozenScoreExactly(c: Course, end: Time)
    requires Taken(c) && c.end == Some(end) && c.start <= end < c.now
    ensures Stored(c.closed, c.id, c.user).Some?
    ensures Stored(c.closed, c.id, c.user).value.score ==
            SelectedRounds(c.after.rounds, c.user, Score, InWindow(c.after.rounds, c.start, end), |c.after.rounds|)
            + Excess(c.before, c.after, c.user, c.start, end)
  {
    hide Sound, Excess, SelectedRounds, WindowRowOf;
    EntryIsRead(c);
    RunScores(c.before, c.actions, c.after, c.start, end,
      Entrant(c.user, ScoreTotalBefore(c.before, c.user, c.start)), c.now);
  }

  // ---------- a close that does not come after the end ----------

  /** Rounds closing before the start and rounds closing from it on are all rounds. */
  lemma LiveSplits(t: Tables, u: UserId, start: Time)
    requires LedgerSound(t)
    ensures LiveTotalOf(t, u) ==
            SelectedRounds(t.rounds, u, Score, Accepted(t.rounds, (x: Time) => x < start), |t.rounds|)
            + SelectedRounds(t.rounds, u, Score, Accepted(t.rounds, (x: Time) => x >= start), |t.rounds|)
  {
    hide LedgerSound, SelectedRows, SelectedRounds;
    var rows := Rows(t.histories, u);
    LiveTotal(t, u);
    SoundUserRows(t, u);
    RestExactly(t, u, rows, start);
    BaselineIs(t, u, start);
  }

  /** What a live score has too much over the rounds that close from the start on. */
  function LiveExcess(before: Tables, after: Tables, u: UserId, start: Time): int {
    SelectedRounds(after.rounds, u, Score, Late(before, after, start), |after.rounds|)
    - Misplaced(Rows(before.histories, u), before.rounds, Score, (x: Time) => x < start)
  }

  lemma RunLive(before: Tables, actions: seq<GameRuns.Action>, after: Tables, u: UserId, start: Time)
    requires Sound(before) && after == GameRuns.Run(before, actions)
    ensures LiveTotalOf(after, u) - ScoreTotalBefore(before, u, start) ==
            SelectedRounds(after.rounds, u, Score, Accepted(after.rounds, (x: Time) => x >= start), |after.rounds|)
            + LiveExcess(before, after, u, start)
  {
    hide LedgerSound, SelectedRounds, Misplaced;
    RunContinues(before, actions);
    GameRuns.RunSound(before, actions);
    BaselineIs(before, u, start);
    LiveSplits(after, u, start);
    LateSplit(before, after, u, start, |after.rounds|);
  }

  /**
   A forced close before the end, or a close at the very end, freezes the live total: the frozen score
   is what all rounds closing from the start on have earned by then, those after the end included.
   */
  lemma FrozenLiveExactly(c: Course)
    requires Taken(c) && (c.end.Some? ==> c.now <= c.end.value)
    ensures Stored(c.closed, c.id, c.user).Some?
    ensures Stored(c.closed, c.id, c.user).value.score ==
            SelectedRounds(c.after.rounds, c.user, Score, Accepted(c.after.rounds, (x: Time) => x >= c.start),
                           |c.after.rounds|)
            + LiveExcess(c.before, c.after, c.user, c.start)
  {
    hide Sound, LiveExcess, SelectedRounds, WindowRowOf;
    EntryIsRead(c);
    RunLive(c.before, c.actions, c.after, c.user, c.start);
    LiveScoreIs(c.after, c.start, c.end, Entrant(c.user, ScoreTotalBefore(c.before, c.user, c.start)), c.now);
  }

  // ---------- the hits ----------

  /**
   The frozen hits, whenever the close came: those of the rounds closing inside the window exactly when
   as much is off at its end as before its start.
   */
  lemma FrozenHitsExactly(c: Course, end: Time)
    requires Taken(c) && HitsSound(c.before) && c.end == Some(end) && c.start <= end
    ensures Stored(c.closed, c.id, c.user).Some?
    ensures var p, rows := Stored(c.closed, c.id, c.user).value, Rows(c.after.histories, c.user);
            var inside := InWindow(c.after.rounds, c.start, end);
            && (p.doubleHits == SelectedRounds(c.after.rounds, c.user, Doubles, inside, |c.after.rounds|) <==>
                SameHitsOff(rows, c.after.rounds, Doubles, c.start, end))
            && (p.superDoubleHits == SelectedRounds(c.after.rounds, c.user, Supers, inside, |c.after.rounds|) <==>
                SameHitsOff(rows, c.after.rounds, Supers, c.start, end))
  {
    hide LedgerSound, HitsSound, SameHitsOff, SelectedRounds, WindowRowOf;
    EntryIsRead(c);
    GameRuns.RunSound(c.before, c.actions);
    GameRuns.RunHits(c.before, c.actions);
    WindowHitsExactly(c.after, c.start, end, Entrant(c.user, ScoreTotalBefore(c.before, c.user, c.start)), c.now);
  }

  /** In closing order, and with nothing before the start scored late, there is no excess. */
  lemma NoExcess(before: Tables, after: Tables, u: UserId, start: Time, end: Time)
    requires LedgerSound(before) && LedgerSound(after)
    requires CloseOrder(Rows(before.histories, u), before.rounds) && CloseOrder(Rows(after.histories, u), after.rounds)
    requires forall r | Late(before, after, start)(r) :: Earned(after.rounds[r], u, Score) == 0
    ensures Excess(before, after, u, start, end) == 0 && LiveExcess(before, after, u, start) == 0
  {
    ScoreColumnCumulative(before, u);
    ScoreColumnCumulative(after, u);
    NothingMisplaced(Rows(before.histories, u), before.rounds, Score, (x: Time) => x < start);
    NothingMisplaced(Rows(after.histories, u), after.rounds, Score, (x: Time) => x <= end);
    NothingLate(before, after, u, start, |after.rounds|);
  }

  lemma {:induction false} NothingLate(before: Tables, after: Tables, u: UserId, start: Time, n: nat)
    requires n <= |after.rounds| && forall r | Late(before, after, start)(r) :: Earned(after.rounds[r], u, Score) == 0
    ensures SelectedRounds(after.rounds, u, Score, Late(before, after, start), n) == 0
  {
    if n > 0 {
      NothingLate(before, after, u, start, n - 1);
    }
  }
}
