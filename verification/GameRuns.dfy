/**
 Runs of the game services: any sequence of registrations, round openings, results, tickets,
 closes, scorings, cancellations, rebuilds, purchases and credits of units, each a transaction of its own.
 */
module GameRuns {
  import opened Common
  import opened GameTables
  import opened ScoreLedger
  import opened GameInvariant
  import opened Columns
  import opened HitLedger
  import ScoreRound
  import Rounds
  import Benefits
  import Recompute

  datatype Action =
    | Register(user: UserId, createdAt: Time)
    | CreateRound(openAt: Time, closeAt: Time)
    | OpenRound(roundId: nat, pro: set<UserId>)
    | SetResult(roundId: nat, result: seq<string>)
    | SubmitTicket(user: UserId, roundId: nat, prediction: seq<string>, multipliers: seq<int>, now: Time)
    | CloseRound(roundId: nat)
    | CancelRound(roundId: nat, now: Time)
    | ScoreClosed(roundId: nat)
    | CloseAndScore(roundId: nat)
    | RecomputeScores
    | StockUp(user: UserId, package: Benefits.Package)
    | MarkOpen(roundId: nat)
    | GrantFree(roundId: nat, pro: set<UserId>)
    | MarkClosed(roundId: nat)
    | ExpireFree(roundId: nat)
    | CreditFree(user: UserId, roundId: nat, benefit: BenefitType, amount: int)
    | CreditPaid(user: UserId, benefit: BenefitType, amount: int)
    | DebitPaid(user: UserId, benefit: BenefitType, amount: int)

  function Committed<E>(t: Tables, r: Result<Tables, E>): Tables {
    match r
    case Ok(next) => next
    case Err(_) => t
  }

  function AfterScoring<E>(t: Tables, r: Result<(Tables, bool), E>): Tables {
    match r
    case Ok(next) => next.0
    case Err(_) => t
  }

  /** What one transaction leaves. */
  function Apply(t: Tables, a: Action): Tables {
    match a
    case Register(u, createdAt) => RegisterStep(t, u, createdAt)
    case CreateRound(openAt, closeAt) => Rounds.CreateStep(t, openAt, closeAt)
    case OpenRound(r, pro) => Committed(t, Rounds.OpenStep(t, r, pro))
    case SetResult(r, result) => Committed(t, Rounds.SetResultStep(t, r, result))
    case SubmitTicket(u, r, prediction, multipliers, now) =>
      Committed(t, Benefits.SubmitStep(t, u, r, prediction, multipliers, now))
    case CloseRound(r) => Committed(t, Rounds.CloseStep(t, r))
    case CancelRound(r, now) => Committed(t, Rounds.CancelStep(t, r, now))
    case ScoreClosed(r) => AfterScoring(t, ScoreRound.Step(t, r))
    case CloseAndScore(r) => Rounds.AdminCloseStep(t, r).0
    case RecomputeScores => Recompute.Step(t).0
    case StockUp(u, p) => Benefits.StockStep(t, u, p)
    case MarkOpen(r) => Committed(t, Rounds.MarkOpenStep(t, r))
    case GrantFree(r, pro) => Committed(t, Rounds.GrantStep(t, r, pro))
    case MarkClosed(r) => Committed(t, Rounds.MarkClosedStep(t, r))
    case ExpireFree(r) => Committed(t, Rounds.ExpireStep(t, r))
    case CreditFree(u, r, b, amount) => Committed(t, Benefits.CreditFreeStep(t, u, r, b, amount))
    case CreditPaid(u, b, amount) => Committed(t, Benefits.CreditPaidStep(t, u, b, amount))
    case DebitPaid(u, b, amount) => Committed(t, Benefits.DebitPaidStep(t, u, b, amount))
  }

  function Run(t: Tables, actions: seq<Action>): Tables {
    if |actions| == 0 then t else Apply(Run(t, actions[..|actions| - 1]), actions[|actions| - 1])
  }

  // ---------- operations in parts ----------

  lemma {:induction false} RunAppend(t: Tables, a: seq<Action>, b: seq<Action>)
    ensures Run(t, a + b) == Run(Run(t, a), b)
  {
    if |b| == 0 {
      assert a + b == a;
    } else {
      assert (a + b)[..|a + b| - 1] == a + b[..|b| - 1];
      RunAppend(t, a, b[..|b| - 1]);
    }
  }

  lemma RunNone(t: Tables)
    ensures Run(t, []) == t
  {
  }

  lemma RunOne(t: Tables, a: Action)
    ensures Run(t, [a]) == Apply(t, a)
  {
    assert [a][..0] == [];
    assert Run(t, []) == t;
  }

  /**
   What the program commits one after another where an action above is one step: the status and then
   the grant of an opening, the status and then the expiry of a close, the close and then the scoring.
   */
  function Parts(t: Tables, a: Action): seq<Action> {
    match a
    case OpenRound(r, pro) =>
      if Rounds.MarkOpenStep(t, r).Ok? then [MarkOpen(r), GrantFree(r, pro)]
      else if r < |t.rounds| && t.rounds[r].status == Open then [GrantFree(r, pro)]
      else []
    case CloseRound(r) => if Rounds.MarkClosedStep(t, r).Ok? then [MarkClosed(r), ExpireFree(r)] else []
    case CloseAndScore(r) =>
      if Rounds.MarkClosedStep(t, r).Err? then [ScoreClosed(r)]
      else if t.rounds[r].result.None? then []
      else [MarkClosed(r), ExpireFree(r), ScoreClosed(r)]
    case _ => [a]
  }

  function AllParts(t: Tables, actions: seq<Action>): seq<Action> {
    if |actions| == 0 then []
    else
      var before := actions[..|actions| - 1];
      AllParts(t, before) + Parts(Run(t, before), actions[|actions| - 1])
  }

  lemma RunTwo(t: Tables, a: Action, b: Action)
    ensures Run(t, [a, b]) == Apply(Apply(t, a), b)
  {
    assert [a] + [b] == [a, b];
    RunAppend(t, [a], [b]);
    RunOne(t, a);
    RunOne(Apply(t, a), b);
  }

  lemma OpenInParts(t: Tables, r: nat, pro: set<UserId>)
    ensures Run(t, Parts(t, OpenRound(r, pro))) == Apply(t, OpenRound(r, pro))
  {
    hide Run;
    RunNone(t);
    RunOne(t, GrantFree(r, pro));
    RunTwo(t, MarkOpen(r), GrantFree(r, pro));
  }

  lemma CloseInParts(t: Tables, r: nat)
    ensures Run(t, Parts(t, CloseRound(r))) == Apply(t, CloseRound(r))
  {
    hide Run;
    RunNone(t);
    RunTwo(t, MarkClosed(r), ExpireFree(r));
  }

  lemma CloseAndScoreInParts(t: Tables, r: nat)
    ensures Run(t, Parts(t, CloseAndScore(r))) == Apply(t, CloseAndScore(r))
  {
    hide Run;
    RunNone(t);
    RunOne(t, ScoreClosed(r));
    RunTwo(t, MarkClosed(r), ExpireFree(r));
    RunOne(Run(t, [MarkClosed(r), ExpireFree(r)]), ScoreClosed(r));
    RunAppend(t, [MarkClosed(r), ExpireFree(r)], [ScoreClosed(r)]);
    assert [MarkClosed(r), ExpireFree(r)] + [ScoreClosed(r)] == [MarkClosed(r), ExpireFree(r), ScoreClosed(r)];
  }

  lemma ActionInParts(t: Tables, a: Action)
    ensures Run(t, Parts(t, a)) == Apply(t, a)
  {
    hide Run, Apply;
    match a
    case OpenRound(r, pro) => OpenInParts(t, r, pro);
    case CloseRound(r) => CloseInParts(t, r);
    case CloseAndScore(r) => CloseAndScoreInParts(t, r);
    case _ => RunOne(t, a);
  }

  predicate IsPart(a: Action) { !a.OpenRound? && !a.CloseRound? && !a.CloseAndScore? }

  lemma PartsAreParts(t: Tables, a: Action)
    ensures forall k | 0 <= k < |Parts(t, a)| :: IsPart(Parts(t, a)[k])
  {
  }

  /** Every run is a run of what the program commits: opening, closing and scoring in one step hide no state. */
  lemma {:induction false} RunInParts(t: Tables, actions: seq<Action>)
    ensures Run(t, AllParts(t, actions)) == Run(t, actions)
    ensures forall k | 0 <= k < |AllParts(t, actions)| :: IsPart(AllParts(t, actions)[k])
  {
    hide Apply, Parts, IsPart;
    if |actions| > 0 {
      var before, last := actions[..|actions| - 1], actions[|actions| - 1];
      RunInParts(t, before);
      PartsAreParts(Run(t, before), last);
      ActionInParts(Run(t, before), last);
      RunAppend(t, AllParts(t, before), Parts(Run(t, before), last));
    }
  }

  // ---------- soundness ----------

  /** The two halves of opening and closing, and the credits of units. */
  predicate PartAction(a: Action) {
    || a.MarkOpen? || a.GrantFree? || a.MarkClosed? || a.ExpireFree?
    || a.StockUp? || a.CreditFree? || a.CreditPaid? || a.DebitPaid?
  }

  lemma PartSound(t: Tables, a: Action)
    requires Sound(t) && PartAction(a)
    ensures Sound(Apply(t, a))
  {
    hide Sound;
    var s := Apply(t, a);
    if s != t {
      match a
      case StockUp(u, p) => StockSound(t, u, p);
      case MarkOpen(r) => MarkOpenSound(t, r, s);
      case GrantFree(r, pro) => GrantSound(t, r, pro);
      case MarkClosed(r) => MarkClosedSound(t, r, s);
      case ExpireFree(r) => ExpireSound(t, r, s);
      case CreditFree(u, r, b, amount) => CreditFreeSound(t, u, r, b, amount, s);
      case CreditPaid(u, b, amount) => InventorySound(t, u, b, amount, s);
      case DebitPaid(u, b, amount) => InventorySound(t, u, b, amount, s);
    }
  }

  lemma ApplySound(t: Tables, a: Action)
    requires Sound(t)
    ensures Sound(Apply(t, a))
  {
    hide Sound;
    match a
    case Register(u, createdAt) => RegisterSound(t, u, createdAt);
    case CreateRound(openAt, closeAt) => CreateSound(t, openAt, closeAt);
    case OpenRound(r, pro) => if Rounds.OpenStep(t, r, pro).Ok? { OpenSound(t, r, pro); }
    case SetResult(r, result) => if Rounds.SetResultStep(t, r, result).Ok? { SetResultSound(t, r, result); }
    case SubmitTicket(u, r, prediction, multipliers, now) =>
      if Benefits.SubmitStep(t, u, r, prediction, multipliers, now).Ok? {
        SubmitSound(t, u, r, prediction, multipliers, now);
      }
    case CloseRound(r) => if Rounds.CloseStep(t, r).Ok? { CloseSound(t, r); }
    case CancelRound(r, now) => if Rounds.CancelStep(t, r, now).Ok? { CancelSound(t, r, now); }
    case ScoreClosed(r) => if ScoreRound.Step(t, r).Ok? { ScoreSound(t, r); }
    case CloseAndScore(r) => AdminCloseSound(t, r);
    case RecomputeScores => Recompute.RecomputeKeepsSoundTotals(t);
    case _ => PartSound(t, a);
  }

  lemma {:induction false} RunSound(t: Tables, actions: seq<Action>)
    requires Sound(t)
    ensures Sound(Run(t, actions))
  {
    hide Sound;
    if |actions| > 0 {
      RunSound(t, actions[..|actions| - 1]);
      ApplySound(Run(t, actions[..|actions| - 1]), actions[|actions| - 1]);
    }
  }

  /**
   In every reachable state a user's total is the sum of the user's history rows and of what the
   user's tickets in SCORED rounds earn under the current results.
   */
  lemma TotalsAgree(actions: seq<Action>, u: UserId)
    ensures var t := Run(EMPTY, actions);
            u in t.users ==>
              && t.users[u].scoreTotal == RoundSum(Rows(t.histories, u))
              && t.users[u].scoreTotal == RoundsPoints(t.rounds, u)
  {
    EmptySound();
    RunSound(EMPTY, actions);
  }

  /**
   In every reachable state: one OPEN round at most, results on SCORED rounds, no tickets on CANCELLED
   ones, histories for SCORED rounds only.
   */
  lemma RoundsStaySound(actions: seq<Action>)
    ensures var t := Run(EMPTY, actions);
            && AtMostOneOpen(t.rounds)
            && (forall r | 0 <= r < |t.rounds| ::
                  && (t.rounds[r].status == Scored ==>
                        t.rounds[r].result.Some?
                          && t.rounds[r].tickets == ScoredTickets(t.rounds[r].tickets, t.rounds[r].result.value))
                  && (t.rounds[r].status == Cancelled ==> t.rounds[r].tickets == []))
            && (forall k | 0 <= k < |t.histories| ::
                  t.histories[k].roundId < |t.rounds| && t.rounds[t.histories[k].roundId].status == Scored)
  {
    EmptySound();
    RunSound(EMPTY, actions);
    var t := Run(EMPTY, actions);
    forall r | 0 <= r < |t.rounds| ensures RoundSound(t.rounds[r], t.users.Keys) {
    }
    forall k | 0 <= k < |t.histories| ensures RowBacked(t.histories[k], t.rounds, t.users.Keys) {
    }
  }

  // ---------- life of a round ----------

  /** One status after another. */
  predicate Follows(a: RoundStatus, b: RoundStatus) {
    || (a == Draft && (b == Open || b == Cancelled))
    || (a == Open && (b == Closed || b == Cancelled))
    || (a == Closed && b == Scored)
  }

  /** A status stays, moves on by one, or by two where a round is closed and scored in one go. */
  predicate MovesOn(a: RoundStatus, b: RoundStatus, action: Action) {
    a == b || Follows(a, b) || (action.CloseAndScore? && a == Open && b == Scored)
  }

  /** SCORED and CANCELLED end the life of a round, and a SCORED round never changes. */
  ghost predicate MovedOn(before: Round, after: Round, action: Action) {
    && MovesOn(before.status, after.status, action)
    && (before.status == Cancelled ==> after.status == Cancelled && after.tickets == before.tickets)
    && (before.status == Scored ==> after == before)
  }

  ghost predicate RoundsMoveOn(rounds: seq<Round>, others: seq<Round>, action: Action) {
    |rounds| <= |others| && forall r | 0 <= r < |rounds| :: MovedOn(rounds[r], others[r], action)
  }

  lemma OneRoundMoves(rounds: seq<Round>, r: nat, round: Round, action: Action)
    requires r < |rounds| && MovedOn(rounds[r], round, action)
    ensures RoundsMoveOn(rounds, rounds[r := round], action)
  {
  }

  lemma OpenMoves(t: Tables, r: nat, pro: set<UserId>)
    ensures RoundsMoveOn(t.rounds, Committed(t, Rounds.OpenStep(t, r, pro)).rounds, OpenRound(r, pro))
  {
    if r < |t.rounds| && t.rounds[r].status == Draft {
      OneRoundMoves(t.rounds, r, t.rounds[r].(status := Open), OpenRound(r, pro));
    }
  }

  lemma ResultMoves(t: Tables, r: nat, result: seq<string>)
    ensures RoundsMoveOn(t.rounds, Committed(t, Rounds.SetResultStep(t, r, result)).rounds, SetResult(r, result))
  {
    if r < |t.rounds| && t.rounds[r].status != Scored {
      OneRoundMoves(t.rounds, r, t.rounds[r].(result := Some(result)), SetResult(r, result));
    }
  }

  lemma CloseMoves(t: Tables, r: nat)
    ensures RoundsMoveOn(t.rounds, Committed(t, Rounds.CloseStep(t, r)).rounds, CloseRound(r))
  {
    if r < |t.rounds| && t.rounds[r].status == Open {
      OneRoundMoves(t.rounds, r, t.rounds[r].(status := Closed), CloseRound(r));
    }
  }

  lemma CancelMoves(t: Tables, r: nat, now: Time)
    ensures RoundsMoveOn(t.rounds, Committed(t, Rounds.CancelStep(t, r, now)).rounds, CancelRound(r, now))
  {
    var s := Committed(t, Rounds.CancelStep(t, r, now));
    if s != t {
      OneRoundMoves(t.rounds, r, s.rounds[r], CancelRound(r, now));
    }
  }

  lemma SpendKeepsGame(t: Tables, u: UserId, r: nat, b: BenefitType, quantity: nat, s: Tables)
    requires Benefits.ConsumeIfAny(t, u, r, b, quantity) == Ok(s)
    ensures s.histories == t.histories && s.users == t.users && s.rounds == t.rounds
  {
  }

  lemma SubmitKeepsScored(t: Tables, u: UserId, r: nat, prediction: seq<string>, multipliers: seq<int>, now: Time,
                          s: Tables)
    requires Benefits.SubmitStep(t, u, r, prediction, multipliers, now) == Ok(s)
    ensures s.histories == t.histories && s.users == t.users && |s.rounds| == |t.rounds|
    ensures r < |t.rounds| && t.rounds[r].status == Open
    ensures s.rounds == t.rounds[r := t.rounds[r].(tickets := t.rounds[r].tickets
              + [Ticket(u, prediction, multipliers, 0, Awaiting)])]
  {
    var t1 := Benefits.ConsumeIfAny(t, u, r, Double, Benefits.Count(multipliers, 2)).value;
    SpendKeepsGame(t, u, r, Double, Benefits.Count(multipliers, 2), t1);
    var t2 := Benefits.ConsumeIfAny(t1, u, r, SuperDouble, Benefits.Count(multipliers, 4)).value;
    SpendKeepsGame(t1, u, r, SuperDouble, Benefits.Count(multipliers, 4), t2);
  }

  lemma SubmitMoves(t: Tables, u: UserId, r: nat, prediction: seq<string>, multipliers: seq<int>, now: Time)
    ensures RoundsMoveOn(t.rounds, Committed(t, Benefits.SubmitStep(t, u, r, prediction, multipliers, now)).rounds,
                         SubmitTicket(u, r, prediction, multipliers, now))
  {
    var next := Benefits.SubmitStep(t, u, r, prediction, multipliers, now);
    if next.Ok? {
      SubmitKeepsScored(t, u, r, prediction, multipliers, now, next.value);
    }
  }

  lemma ScoreMoves(t: Tables, r: nat)
    ensures RoundsMoveOn(t.rounds, AfterScoring(t, ScoreRound.Step(t, r)).rounds, ScoreClosed(r))
  {
    var s := AfterScoring(t, ScoreRound.Step(t, r));
    if s != t {
      OneRoundMoves(t.rounds, r, s.rounds[r], ScoreClosed(r));
    }
  }

  lemma AdminCloseMoves(t: Tables, r: nat)
    ensures RoundsMoveOn(t.rounds, Rounds.AdminCloseStep(t, r).0.rounds, CloseAndScore(r))
  {
    var s := Rounds.AdminCloseStep(t, r).0;
    if s != t {
      assert s.rounds == t.rounds[r := s.rounds[r]];
      OneRoundMoves(t.rounds, r, s.rounds[r], CloseAndScore(r));
    }
  }

  lemma PartMoves(t: Tables, a: Action)
    requires PartAction(a)
    ensures RoundsMoveOn(t.rounds, Apply(t, a).rounds, a)
  {
    match a
    case MarkOpen(r) =>
      if Apply(t, a) != t {
        OneRoundMoves(t.rounds, r, t.rounds[r].(status := Open), a);
      }
    case MarkClosed(r) =>
      if Apply(t, a) != t {
        OneRoundMoves(t.rounds, r, t.rounds[r].(status := Closed), a);
      }
    case _ =>
  }

  /** Every transaction moves every round along its life. */
  lemma LifecycleSafe(t: Tables, a: Action)
    requires Sound(t)
    ensures RoundsMoveOn(t.rounds, Apply(t, a).rounds, a)
  {
    match a
    case Register(_, _) =>
    case CreateRound(_, _) =>
    case OpenRound(r, pro) => OpenMoves(t, r, pro);
    case SetResult(r, result) => ResultMoves(t, r, result);
    case SubmitTicket(u, r, prediction, multipliers, now) => SubmitMoves(t, u, r, prediction, multipliers, now);
    case CloseRound(r) => CloseMoves(t, r);
    case CancelRound(r, now) => CancelMoves(t, r, now);
    case ScoreClosed(r) => ScoreMoves(t, r);
    case CloseAndScore(r) => AdminCloseMoves(t, r);
    case RecomputeScores => Recompute.RecomputeKeepsSoundTotals(t);
    case _ => PartMoves(t, a);
  }

  /** A SCORED round stays as it is through every run. */
  lemma {:induction false} ScoredIsFinal(t: Tables, actions: seq<Action>, r: nat)
    requires Sound(t) && r < |t.rounds| && t.rounds[r].status == Scored
    ensures r < |Run(t, actions).rounds| && Run(t, actions).rounds[r] == t.rounds[r]
  {
    if |actions| > 0 {
      var n := |actions| - 1;
      ScoredIsFinal(t, actions[..n], r);
      RunSound(t, actions[..n]);
      LifecycleSafe(Run(t, actions[..n]), actions[n]);
      assert MovedOn(Run(t, actions[..n]).rounds[r], Run(t, actions).rounds[r], actions[n]);
    }
  }

  /** Scoring a SCORED round again changes nothing at all. */
  lemma ScoringAgainChangesNothing(t: Tables, r: nat)
    requires r < |t.rounds| && t.rounds[r].status == Scored
    ensures Apply(t, ScoreClosed(r)) == t && Apply(t, CloseAndScore(r)) == t
  {
  }

  // ---------- hit columns ----------

  lemma {:induction false} ReplayHits(s: Tables, rounds: seq<Round>, n: nat)
    requires Sound(s) && HitsSound(s) && n <= |rounds|
    ensures Sound(Recompute.ReplayTo(s, rounds, n)) && HitsSound(Recompute.ReplayTo(s, rounds, n))
  {
    hide Sound, HitsSound, Recompute.ReplayNext;
    if n > 0 {
      ReplayHits(s, rounds, n - 1);
      NextHits(Recompute.ReplayTo(s, rounds, n - 1), n - 1, rounds[n - 1]);
    }
  }

  lemma NextHits(b: Tables, n: nat, round: Round)
    requires Sound(b) && HitsSound(b)
    ensures Sound(Recompute.ReplayNext(b, n, round)) && HitsSound(Recompute.ReplayNext(b, n, round))
  {
    hide Sound, HitsSound, ScoreRound.Step;
    if Recompute.Counts(round) && ScoreRound.Step(b, n).Ok? {
      ScoreSound(b, n);
      ScoreKeepsHits(b, n);
    }
  }

  lemma RecomputeHits(t: Tables)
    requires Sound(t) && HitsSound(t)
    ensures HitsSound(Recompute.Step(t).0)
  {
    if Recompute.AnyCounts(t.rounds) {
      Recompute.SoundInputs(t);
      Recompute.RecomputeIsReplay(t);
      Recompute.UnscoreSound(t);
      var s := Recompute.Unscore(t);
      NoRowsChained(s.rounds);
      forall u | u in s.users ensures HitsChained(s.histories, s.rounds, u) {
        assert Rows(s.histories, u) == [];
      }
      ReplayHits(s, t.rounds, |t.rounds|);
    }
  }

  /** The actions that touch neither histories nor scores. */
  predicate Quiet(a: Action) { !a.ScoreClosed? && !a.CloseAndScore? && !a.RecomputeScores? }

  lemma QuietKeepsHistories(t: Tables, a: Action)
    requires Quiet(a)
    ensures Apply(t, a).histories == t.histories && t.users.Keys <= Apply(t, a).users.Keys
  {
    match a
    case SubmitTicket(u, r, prediction, multipliers, now) =>
      var next := Benefits.SubmitStep(t, u, r, prediction, multipliers, now);
      if next.Ok? {
        SubmitKeepsScored(t, u, r, prediction, multipliers, now, next.value);
      }
    case _ =>
  }

  lemma QuietHits(t: Tables, a: Action)
    requires Sound(t) && HitsSound(t) && Quiet(a)
    ensures HitsSound(Apply(t, a))
  {
    var s := Apply(t, a);
    LifecycleSafe(t, a);
    QuietKeepsHistories(t, a);
    forall r | 0 <= r < |t.rounds| && t.rounds[r].status == Scored ensures s.rounds[r] == t.rounds[r] {
      assert MovedOn(t.rounds[r], s.rounds[r], a);
    }
    HitsFrame(t, s);
  }

  lemma ScoreHits(t: Tables, r: nat, s: Tables)
    requires Sound(t) && HitsSound(t) && s == AfterScoring(t, ScoreRound.Step(t, r))
    ensures HitsSound(s)
  {
    if ScoreRound.Step(t, r).Ok? {
      ScoreKeepsHits(t, r);
    }
  }

  /** Closing and scoring in one go is nothing, or a close if one is due and then a scoring. */
  lemma AdminCloseIsTwoSteps(t: Tables, r: nat, s: Tables) returns (closed: Tables)
    requires s == Rounds.AdminCloseStep(t, r).0
    ensures closed == t || closed == Apply(t, CloseRound(r))
    ensures s == t || s == AfterScoring(closed, ScoreRound.Step(closed, r))
  {
    closed := if r < |t.rounds| && t.rounds[r].status == Open then Apply(t, CloseRound(r)) else t;
  }

  lemma AdminCloseHits(t: Tables, r: nat, s: Tables)
    requires Sound(t) && HitsSound(t) && s == Rounds.AdminCloseStep(t, r).0
    ensures HitsSound(s)
  {
    if s != t {
      var closed := AdminCloseIsTwoSteps(t, r, s);
      if closed != t {
        QuietHits(t, CloseRound(r));
        ApplySound(t, CloseRound(r));
      }
      ScoreHits(closed, r, s);
    }
  }

  lemma ApplyHits(t: Tables, a: Action)
    requires Sound(t) && HitsSound(t)
    ensures HitsSound(Apply(t, a))
  {
    match a
    case ScoreClosed(r) => ScoreHits(t, r, Apply(t, a));
    case CloseAndScore(r) => AdminCloseHits(t, r, Apply(t, a));
    case RecomputeScores => RecomputeHits(t);
    case _ => QuietHits(t, a);
  }

  /** In every reachable state every row continues the row of the highest round before it. */
  lemma {:induction false} RunHits(t: Tables, actions: seq<Action>)
    requires Sound(t) && HitsSound(t)
    ensures HitsSound(Run(t, actions))
  {
    if |actions| > 0 {
      var n := |actions| - 1;
      RunHits(t, actions[..n]);
      RunSound(t, actions[..n]);
      ApplyHits(Run(t, actions[..n]), actions[n]);
    }
  }

  /**
   In every reachable state, in whatever order rounds were scored: a user's hit column is a running
   sum exactly when nothing was hit in the rows written after the highest round so far.
   */
  lemma RunHitsExactly(actions: seq<Action>, u: UserId, c: Column)
    requires u in Run(EMPTY, actions).users && IsHit(c)
    ensures var t := Run(EMPTY, actions);
            Cumulative(Rows(t.histories, u), t.rounds, c) <==> NothingSkipped(Rows(t.histories, u), t.rounds, c)
  {
    hide Cumulative, NothingSkipped, Chained;
    EmptySound();
    RunHits(EMPTY, actions);
    var t := Run(EMPTY, actions);
    assert HitsChained(t.histories, t.rounds, u);
    CumulativeExactly(Rows(t.histories, u), t.rounds, c);
  }
}
