/**
 A run of the game in which a round is scored after a later one: what a window then reads
 (src/services/ranking/ranking-window-score.service.ts:116-142), and which hit the next row loses
 (src/services/score/score-round.service.ts:63-85).
 */
module LateRounds {
  import opened Common
  import opened TicketScore
  import opened GameTables
  import opened GameInvariant
  import opened GameRuns
  import opened Columns
  import opened RankingWindowScore
  import ScoreRound
  import PeriodRanking
  import Benefits

  /** The home side in every match, a result with three home wins, and a stake on the first match. */
  function Home(): seq<string> { seq(MATCH_COUNT, i => "1") }

  function Outcome(): seq<string> { seq(MATCH_COUNT, i => if i < 3 then "1" else "2") }

  function Stakes(first: int): seq<int> { seq(MATCH_COUNT, i => if i == 0 then first else 1) }

  function Slip(first: int): Ticket { Ticket(0, Home(), Stakes(first), 0, Awaiting) }

  function Played(closeAt: Time, first: int): Round { Round(Closed, 0, closeAt, Some(Outcome()), [Slip(first)]) }

  // ---------- what a slip costs and earns ----------

  lemma {:induction false} SlipSoFar(first: int, n: nat)
    requires (first == 1 || first == 2) && n <= MATCH_COUNT
    ensures Points(Home(), Outcome(), Stakes(first), n) == if n == 0 then 0 else if n < 3 then first + n - 1
              else first + 2
    ensures Tally(Home(), Outcome(), Stakes(first), 2, true, n) == if n > 0 && first == 2 then 1 else 0
    ensures Tally(Home(), Outcome(), Stakes(first), 4, true, n) == 0
    ensures Benefits.Count(Stakes(first)[..n], 2) == if n > 0 && first == 2 then 1 else 0
    ensures Benefits.Count(Stakes(first)[..n], 4) == 0
  {
    if n > 0 {
      SlipSoFar(first, n - 1);
      assert Stakes(first)[..n][..n - 1] == Stakes(first)[..n - 1];
    }
  }

  /** Three hits: the first at the stake, the others at one. */
  lemma SlipEarns(first: int)
    requires first == 1 || first == 2
    ensures Scorable(Home(), Outcome(), Stakes(first))
    ensures ScoreOf(Slip(first), Outcome()) == first + 2
    ensures HitsOf(Slip(first), Outcome(), 2) == first - 1 && HitsOf(Slip(first), Outcome(), 4) == 0
    ensures Benefits.Count(Stakes(first), 2) == first - 1 && Benefits.Count(Stakes(first), 4) == 0
  {
    SlipSoFar(first, MATCH_COUNT);
    assert Stakes(first)[..MATCH_COUNT] == Stakes(first);
  }

  // ---------- the run ----------

  function Play(roundId: nat, first: int): seq<Action> {
    [OpenRound(roundId, {}), SubmitTicket(0, roundId, Home(), Stakes(first), 0), CloseRound(roundId),
      SetResult(roundId, Outcome())]
  }

  /** Three rounds closing at 10, 20 and 30, each with one ticket; the second is scored before the first. */
  function LateScoring(): seq<Action> {
    [Register(0, 0), CreateRound(0, 10), CreateRound(0, 20), CreateRound(0, 30)]
    + Play(0, 2) + Play(1, 1) + Play(2, 1) + [ScoreClosed(1), ScoreClosed(0)]
  }

  lemma RunFour(t: Tables, a: Action, b: Action, c: Action, d: Action)
    ensures Run(t, [a, b, c, d]) == Apply(Apply(Apply(Apply(t, a), b), c), d)
  {
    RunAppend(t, [a, b, c], [d]);
    RunAppend(t, [a, b], [c]);
    RunAppend(t, [a], [b]);
    RunOne(t, a);
    RunOne(Run(t, [a]), b);
    RunOne(Run(t, [a, b]), c);
    RunOne(Run(t, [a, b, c]), d);
    assert [a] + [b] == [a, b] && [a, b] + [c] == [a, b, c] && [a, b, c] + [d] == [a, b, c, d];
  }

  /** Everything but the benefits. */
  ghost predicate Game(t: Tables, total: int, rounds: seq<Round>, histories: seq<History>) {
    t.users == map[0 := User(0, total)] && t.rounds == rounds && t.histories == histories
  }

  lemma Started()
    ensures var t := Run(EMPTY, [Register(0, 0), CreateRound(0, 10), CreateRound(0, 20), CreateRound(0, 30)]);
            && Game(t, 0, [Round(Draft, 0, 10, None, []), Round(Draft, 0, 20, None, []),
              Round(Draft, 0, 30, None, [])], [])
            && t.freeBenefits == map[]
  {
    RunFour(EMPTY, Register(0, 0), CreateRound(0, 10), CreateRound(0, 20), CreateRound(0, 30));
  }

  ghost predicate NoneOpen(rounds: seq<Round>) {
    forall k | 0 <= k < |rounds| :: rounds[k].status != Open
  }

  lemma Opened(t: Tables, r: nat, closeAt: Time)
    requires r < |t.rounds| && t.rounds[r] == Round(Draft, 0, closeAt, None, []) && NoneOpen(t.rounds)
    requires 0 in t.users && (0, r) !in t.freeBenefits
    ensures var s := Apply(t, OpenRound(r, {}));
            && s.users == t.users && s.histories == t.histories
            && s.rounds == t.rounds[r := Round(Open, 0, closeAt, None, [])]
            && (0, r) in s.freeBenefits && s.freeBenefits[(0, r)] == FreeBenefit(2, 0)
            && (forall k | k in s.freeBenefits :: k in t.freeBenefits || k.1 == r)
  {
  }

  lemma SlipAllowed(t: Tables, r: nat, closeAt: Time, first: int)
    requires r < |t.rounds| && t.rounds[r] == Round(Open, 0, closeAt, None, []) && closeAt > 0
               && (first == 1 || first == 2) && 0 in t.users
    ensures Benefits.SubmissionError(t, 0, r, Home(), Stakes(first), 0) == None
  {
    SlipEarns(first);
  }

  lemma Slipped(t: Tables, r: nat, closeAt: Time, first: int)
    requires r < |t.rounds| && t.rounds[r] == Round(Open, 0, closeAt, None, []) && closeAt > 0
               && (first == 1 || first == 2)
    requires 0 in t.users && (0, r) in t.freeBenefits && t.freeBenefits[(0, r)] == FreeBenefit(2, 0)
    ensures var s := Apply(t, SubmitTicket(0, r, Home(), Stakes(first), 0));
            && s.users == t.users && s.histories == t.histories && s.freeBenefits.Keys == t.freeBenefits.Keys
            && s.rounds == t.rounds[r := Round(Open, 0, closeAt, None, [Slip(first)])]
  {
    hide Outcome, Benefits.SubmissionError;
    SlipEarns(first);
    SlipAllowed(t, r, closeAt, first);
    assert [] + [Slip(first)] == [Slip(first)];
    SubmitKeepsScored(t, 0, r, Home(), Stakes(first), 0, Apply(t, SubmitTicket(0, r, Home(), Stakes(first), 0)));
  }

  lemma Finished(t: Tables, r: nat, closeAt: Time, first: int)
    requires r < |t.rounds| && t.rounds[r] == Round(Open, 0, closeAt, None, [Slip(first)])
    ensures var s := Apply(Apply(t, CloseRound(r)), SetResult(r, Outcome()));
            && s.users == t.users && s.histories == t.histories && s.freeBenefits.Keys == t.freeBenefits.Keys
            && s.rounds == t.rounds[r := Played(closeAt, first)]
  {
  }

  lemma RoundPlayed(t: Tables, r: nat, closeAt: Time, first: int, total: int, rounds: seq<Round>)
    requires Game(t, total, rounds, []) && r < |rounds| && rounds[r] == Round(Draft, 0, closeAt, None, [])
               && NoneOpen(rounds)
    requires closeAt > 0 && (first == 1 || first == 2) && forall k | k in t.freeBenefits :: k.1 < r
    ensures var s := Run(t, Play(r, first));
            Game(s, total, rounds[r := Played(closeAt, first)], []) && forall k | k in s.freeBenefits :: k.1 < r + 1
  {
    RunFour(t, OpenRound(r, {}), SubmitTicket(0, r, Home(), Stakes(first), 0), CloseRound(r), SetResult(r, Outcome()));
    Opened(t, r, closeAt);
    var ready := Apply(t, OpenRound(r, {}));
    Slipped(ready, r, closeAt, first);
    Finished(Apply(ready, SubmitTicket(0, r, Home(), Stakes(first), 0)), r, closeAt, first);
  }

  lemma OneTicketPass(p: ScoreRound.Pass, r: nat, ticket: Ticket, lookup: ScoreRound.Lookup)
    requires p.tickets == [] && ScoreRound.Accepts(p.users, p.histories, r, Outcome(), ticket)
    ensures ScoreRound.ScoreTickets(p, r, Outcome(), [ticket], lookup)
         == Some(ScoreRound.ScoreTicket(p, r, Outcome(), ticket, lookup))
  {
    assert [ticket][..0] == [];
    assert ScoreRound.ScoreTickets(p, r, Outcome(), [], lookup) == Some(p);
  }

  function Row(total: int, histories: seq<History>, r: nat, first: int): History {
    ScoreRound.NextRow(User(0, total), histories, r, Outcome(), Slip(first), ScoreRound.ByRoundNumber)
  }

  lemma RowTotal(total: int, histories: seq<History>, r: nat, first: int)
    requires first == 1 || first == 2
    ensures var row := Row(total, histories, r, first);
            var last := ScoreRound.LastHistory(histories, ScoreRound.ByRoundNumber);
            row == History(0, r, first + 2, total + first + 2,
              (if last.Some? then last.value.totalDoubles else 0) + first - 1,
                           if last.Some? then last.value.totalSuperDoubles else 0)
  {
    SlipEarns(first);
  }

  lemma SlipScored(p: ScoreRound.Pass, r: nat, first: int, total: int)
    requires p.users == map[0 := User(0, total)] && p.tickets == [] && (first == 1 || first == 2)
    requires Rows(p.histories, 0) == p.histories
    ensures ScoreRound.ScoreTicket(p, r, Outcome(), Slip(first), ScoreRound.ByRoundNumber)
         == ScoreRound.Pass(map[0 := User(0, total + first + 2)], p.histories + [Row(total, p.histories, r, first)],
                            [ScoredTicket(Slip(first), Outcome())])
  {
    RowTotal(total, p.histories, r, first);
    ScoreIntoOne(p, r, Slip(first), total, Row(total, p.histories, r, first));
  }

  lemma ScoreIntoOne(p: ScoreRound.Pass, r: nat, ticket: Ticket, total: int, row: History)
    requires p.users == map[0 := User(0, total)] && p.tickets == [] && ticket.userId == 0
    requires row == ScoreRound.NextRow(User(0, total), Rows(p.histories, 0), r, Outcome(), ticket,
               ScoreRound.ByRoundNumber)
    ensures ScoreRound.ScoreTicket(p, r, Outcome(), ticket, ScoreRound.ByRoundNumber)
         == ScoreRound.Pass(map[0 := User(0, row.scoreTotal)], p.histories + [row], [ScoredTicket(ticket, Outcome())])
  {
  }

  function ScoredRound(closeAt: Time, first: int): Round {
    Played(closeAt, first).(status := RoundStatus.Scored, tickets := [ScoredTicket(Slip(first), Outcome())])
  }

  /** Scoring a played round writes its row and adds its points. */
  lemma RoundScored(t: Tables, r: nat, closeAt: Time, first: int, total: int, rounds: seq<Round>,
                    histories: seq<History>)
    requires Game(t, total, rounds, histories) && r < |rounds| && rounds[r] == Played(closeAt, first)
               && (first == 1 || first == 2)
    requires forall k | 0 <= k < |histories| :: histories[k].userId == 0 && histories[k].roundId != r
    ensures Game(Apply(t, ScoreClosed(r)), total + first + 2, rounds[r := ScoredRound(closeAt, first)],
                 histories + [Row(total, histories, r, first)])
  {
    var start := ScoreRound.Pass(t.users, t.histories, []);
    SlipEarns(first);
    OwnRows(histories);
    OneTicketPass(start, r, Slip(first), ScoreRound.ByRoundNumber);
    SlipScored(start, r, first, total);
    var p := ScoreRound.ScoreTicket(start, r, Outcome(), Slip(first), ScoreRound.ByRoundNumber);
    PlayedStep(t, r, closeAt, first, p);
  }

  lemma PlayedStep(t: Tables, r: nat, closeAt: Time, first: int, p: ScoreRound.Pass)
    requires r < |t.rounds| && t.rounds[r] == Played(closeAt, first)
    requires ScoreRound.ScoreTickets(ScoreRound.Pass(t.users, t.histories, []), r, Outcome(), [Slip(first)],
                                     ScoreRound.ByRoundNumber) == Some(p)
    ensures Apply(t, ScoreClosed(r)) == ScoreRound.Finish(t, r, p)
  {
  }

  lemma {:induction false} OwnRows(histories: seq<History>)
    requires forall k | 0 <= k < |histories| :: histories[k].userId == 0
    ensures Rows(histories, 0) == histories
  {
    if |histories| > 0 {
      var n := |histories| - 1;
      OwnRows(histories[..n]);
      assert histories == histories[..n] + [histories[n]];
    }
  }

  // ---------- out of order ----------

  /** The tables after the run: the later round's row stands first. */
  lemma LateScored()
    ensures var t := Run(EMPTY, LateScoring());
            && t.users == map[0 := User(0, 7)]
            && t.rounds == [ScoredRound(10, 2), ScoredRound(20, 1), Played(30, 1)]
            && t.histories == [History(0, 1, 3, 3, 0, 0), History(0, 0, 4, 7, 1, 0)]
  {
    hide ScoredRound, Slip, Play, NoneOpen;
    var start := [Register(0, 0), CreateRound(0, 10), CreateRound(0, 20), CreateRound(0, 30)];
    var drafts := [Round(Draft, 0, 10, None, []), Round(Draft, 0, 20, None, []), Round(Draft, 0, 30, None, [])];
    var t0 := Run(EMPTY, start);
    Started();
    var t1, t2 := Run(t0, Play(0, 2)), Run(Run(t0, Play(0, 2)), Play(1, 1));
    RoundPlayed(t0, 0, 10, 2, 0, drafts);
    RoundPlayed(t1, 1, 20, 1, 0, drafts[0 := Played(10, 2)]);
    RoundPlayed(t2, 2, 30, 1, 0, [Played(10, 2), Played(20, 1), drafts[2]]);
    var t3 := Run(t2, Play(2, 1));
    BothScored(t3);
    RunAppend(EMPTY, start, Play(0, 2));
    RunAppend(EMPTY, start + Play(0, 2), Play(1, 1));
    RunAppend(EMPTY, start + Play(0, 2) + Play(1, 1), Play(2, 1));
    RunAppend(EMPTY, start + Play(0, 2) + Play(1, 1) + Play(2, 1), [ScoreClosed(1), ScoreClosed(0)]);
  }

  lemma BothScored(t: Tables)
    requires Game(t, 0, [Played(10, 2), Played(20, 1), Played(30, 1)], [])
    ensures Game(Run(t, [ScoreClosed(1), ScoreClosed(0)]), 7, [ScoredRound(10, 2), ScoredRound(20, 1), Played(30, 1)],
                 [History(0, 1, 3, 3, 0, 0), History(0, 0, 4, 7, 1, 0)])
  {
    RunAppend(t, [ScoreClosed(1)], [ScoreClosed(0)]);
    RunOne(t, ScoreClosed(1));
    RunOne(Apply(t, ScoreClosed(1)), ScoreClosed(0));
    assert [ScoreClosed(1)] + [ScoreClosed(0)] == [ScoreClosed(1), ScoreClosed(0)];
    LaterScored(t);
    EarlierScored(Apply(t, ScoreClosed(1)));
  }

  lemma LaterScored(t: Tables)
    requires Game(t, 0, [Played(10, 2), Played(20, 1), Played(30, 1)], [])
    ensures Game(Apply(t, ScoreClosed(1)), 3, [Played(10, 2), ScoredRound(20, 1), Played(30, 1)],
              [History(0, 1, 3, 3, 0, 0)])
  {
    hide ScoredRound, Played;
    var rounds := [Played(10, 2), Played(20, 1), Played(30, 1)];
    RoundScored(t, 1, 20, 1, 0, rounds, []);
    RowTotal(0, [], 1, 1);
    assert rounds[1 := ScoredRound(20, 1)] == [Played(10, 2), ScoredRound(20, 1), Played(30, 1)];
  }

  lemma EarlierRow(late: History)
    requires late == History(0, 1, 3, 3, 0, 0)
    ensures Row(3, [late], 0, 2) == History(0, 0, 4, 7, 1, 0)
  {
    assert [late][..0] == [];
    assert ScoreRound.LastHistory([late], ScoreRound.ByRoundNumber) == Some(late);
    RowTotal(3, [late], 0, 2);
  }

  lemma EarlierScored(t: Tables)
    requires Game(t, 3, [Played(10, 2), ScoredRound(20, 1), Played(30, 1)], [History(0, 1, 3, 3, 0, 0)])
    ensures Game(Apply(t, ScoreClosed(0)), 7, [ScoredRound(10, 2), ScoredRound(20, 1), Played(30, 1)],
                 [History(0, 1, 3, 3, 0, 0), History(0, 0, 4, 7, 1, 0)])
  {
    hide ScoredRound, Played;
    var rounds, late := [Played(10, 2), ScoredRound(20, 1), Played(30, 1)], History(0, 1, 3, 3, 0, 0);
    EarlierRow(late);
    RoundScored(t, 0, 10, 2, 3, rounds, [late]);
    assert rounds[0 := ScoredRound(10, 2)] == [ScoredRound(10, 2), ScoredRound(20, 1), Played(30, 1)];
  }

  /**
   The window from 15 to 25 then reads 3 - 7, though the round that closes inside it earned 3: the
   running total of the row at 20 lacks the row at 10, which the baseline takes off.
   */
  lemma OutOfOrderMisreads()
    ensures var t := Run(EMPTY, LateScoring());
            var e := Entrant(0, ScoreTotalBefore(t, 0, 15));
            && Sound(t)
            && WindowRowOf(t, Window(Some(15), Some(25)), e, 26).score == -4
            && SelectedRounds(t.rounds, 0, Score, InWindow(t.rounds, 15, 25), |t.rounds|) == 3
  {
    var t := Run(EMPTY, LateScoring());
    EmptySound();
    RunSound(EMPTY, LateScoring());
    LateScored();
    LateWindow(t);
    LateWindowEarned(t);
  }

  lemma LateWindow(t: Tables)
    requires t.rounds == [ScoredRound(10, 2), ScoredRound(20, 1), Played(30, 1)]
    requires t.histories == [History(0, 1, 3, 3, 0, 0), History(0, 0, 4, 7, 1, 0)]
    ensures ScoreTotalBefore(t, 0, 15) == 7
    ensures WindowRowOf(t, Window(Some(15), Some(25)), Entrant(0, 7), 26).score == -4
  {
    hide ScoredTicket, Slip;
    var late, early := History(0, 1, 3, 3, 0, 0), History(0, 0, 4, 7, 1, 0);
    OwnRows(t.histories);
    assert [late, early][..1] == [late] && [late][..0] == [];
    assert Latest([late], t.rounds, (x: Time) => x <= 25) == Some(late);
    assert Latest([late], t.rounds, (x: Time) => x < 15) == None;
  }

  lemma ScoredEarned(closeAt: Time, first: int)
    requires first == 1 || first == 2
    ensures Earned(ScoredRound(closeAt, first), 0, Score) == first + 2
    ensures Earned(ScoredRound(closeAt, first), 0, Doubles) == first - 1
  {
    SlipEarns(first);
    var tickets := ScoredRound(closeAt, first).tickets;
    assert tickets[..0] == [];
    assert ScoreOf(tickets[0], Outcome()) == ScoreOf(Slip(first), Outcome());
    assert HitsOf(tickets[0], Outcome(), 2) == HitsOf(Slip(first), Outcome(), 2);
    assert TicketsEarn(tickets, Outcome(), 0, Score) == ScoreOf(tickets[0], Outcome());
    assert TicketsEarn(tickets, Outcome(), 0, Doubles) == HitsOf(tickets[0], Outcome(), 2);
  }

  lemma LateWindowEarned(t: Tables)
    requires t.rounds == [ScoredRound(10, 2), ScoredRound(20, 1), Played(30, 1)]
    ensures SelectedRounds(t.rounds, 0, Score, InWindow(t.rounds, 15, 25), |t.rounds|) == 3
  {
    ScoredEarned(20, 1);
    var selected := InWindow(t.rounds, 15, 25);
    assert SelectedRounds(t.rounds, 0, Score, selected, 1) == 0;
    assert SelectedRounds(t.rounds, 0, Score, selected, 2) == 3;
  }

  /**
   Scoring the last round, the new row continues the row of the highest round and not the newest: it
   carries no double hit, though the user hit one.
   */
  lemma LateHitIsLost()
    ensures var t := Run(EMPTY, LateScoring());
            var s := Apply(t, ScoreClosed(2));
            && |s.histories| == 3 && s.histories[2].roundId == 2 && s.histories[2].totalDoubles == 0
            && SelectedRounds(s.rounds, 0, Doubles, r => true, |s.rounds|) == 1
  {
    hide ScoredRound, Played, Play;
    LateScored();
    var t := Run(EMPTY, LateScoring());
    var late, early := History(0, 1, 3, 3, 0, 0), History(0, 0, 4, 7, 1, 0);
    RoundScored(t, 2, 30, 1, 7, t.rounds, t.histories);
    RowTotal(7, t.histories, 2, 1);
    assert [late, early][..1] == [late] && [late][..0] == [];
    assert ScoreRound.LastHistory([late], ScoreRound.ByRoundNumber) == Some(late);
    assert ScoreRound.LastHistory(t.histories, ScoreRound.ByRoundNumber) == Some(late);
    LateDoubles(Apply(t, ScoreClosed(2)).rounds);
  }

  lemma LateDoubles(rounds: seq<Round>)
    requires rounds == [ScoredRound(10, 2), ScoredRound(20, 1), ScoredRound(30, 1)]
    ensures SelectedRounds(rounds, 0, Doubles, r => true, 3) == 1
  {
    ScoredEarned(10, 2);
    ScoredEarned(20, 1);
    ScoredEarned(30, 1);
    assert SelectedRounds(rounds, 0, Doubles, r => true, 1) == 1;
    assert SelectedRounds(rounds, 0, Doubles, r => true, 2) == 1;
  }

  // ---------- a round that closes at the very end ----------

  /** The first of three rounds, closing at 10, is played and scored. */
  function OneScoring(): seq<Action> {
    [Register(0, 0), CreateRound(0, 10), CreateRound(0, 20), CreateRound(0, 30)] + Play(0, 2) + [ScoreClosed(0)]
  }

  lemma OneScored()
    ensures Game(Run(EMPTY, OneScoring()), 4,
                 [ScoredRound(10, 2), Round(Draft, 0, 20, None, []), Round(Draft, 0, 30, None, [])],
                 [History(0, 0, 4, 4, 1, 0)])
  {
    hide ScoredRound, Played, Slip, Play, Run, Apply;
    var start := [Register(0, 0), CreateRound(0, 10), CreateRound(0, 20), CreateRound(0, 30)];
    var t := Run(Run(EMPTY, start), Play(0, 2));
    Started();
    RoundPlayed(Run(EMPTY, start), 0, 10, 2, 0,
                [Round(Draft, 0, 10, None, []), Round(Draft, 0, 20, None, []), Round(Draft, 0, 30, None, [])]);
    FirstScored(t);
    RunOne(t, ScoreClosed(0));
    RunAppend(EMPTY, start, Play(0, 2));
    RunAppend(EMPTY, start + Play(0, 2), [ScoreClosed(0)]);
  }

  lemma FirstScored(t: Tables)
    requires Game(t, 0, [Played(10, 2), Round(Draft, 0, 20, None, []), Round(Draft, 0, 30, None, [])], [])
    ensures Game(Apply(t, ScoreClosed(0)), 4,
                 [ScoredRound(10, 2), Round(Draft, 0, 20, None, []), Round(Draft, 0, 30, None, [])],
                 [History(0, 0, 4, 4, 1, 0)])
  {
    hide ScoredRound, Played, Apply;
    RoundScored(t, 0, 10, 2, 0, t.rounds, []);
    RowTotal(0, [], 0, 2);
  }

  /**
   From 5 to 10, the instant at which the round closed: the window reads its 4 points, and the period
   with the same bounds has no row at all.
   */
  lemma EndIsReadOnce()
    ensures var t := Run(EMPTY, OneScoring());
            var e := Entrant(0, ScoreTotalBefore(t, 0, 5));
            && Sound(t)
            && WindowRowOf(t, Window(Some(5), Some(10)), e, 11).score == 4
            && PeriodRanking.Query(t.histories, t.rounds, PeriodRanking.InPeriod(5, 10)) == []
  {
    var t := Run(EMPTY, OneScoring());
    EmptySound();
    RunSound(EMPTY, OneScoring());
    OneScored();
    EndWindow(t);
  }

  lemma EndWindow(t: Tables)
    requires t.histories == [History(0, 0, 4, 4, 1, 0)]
    requires |t.rounds| > 0 && t.rounds[0].status == RoundStatus.Scored && t.rounds[0].closeAt == 10
    ensures ScoreTotalBefore(t, 0, 5) == 0
    ensures WindowRowOf(t, Window(Some(5), Some(10)), Entrant(0, 0), 11).score == 4
    ensures PeriodRanking.Query(t.histories, t.rounds, PeriodRanking.InPeriod(5, 10)) == []
  {
    var row := t.histories[0];
    OwnRows(t.histories);
    assert [row][..0] == [];
    assert Latest([row], t.rounds, (x: Time) => x <= 10) == Some(row);
    assert Latest([row], t.rounds, (x: Time) => x < 5) == None;
  }
}
