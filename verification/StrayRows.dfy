/**
 A history row that the rebuild of scores keeps
 (src/services/score/recompute-scored-rounds.service.ts:54-60): one of a round that is not SCORED.
 No service leaves such a row; here a SCORED round was set back to CLOSED by hand, its rows left.
 */
module StrayRows {
  import opened Common
  import opened TicketScore
  import opened GameTables
  import opened GameInvariant
  import opened GameRuns
  import opened LateRounds
  import opened Recompute
  import ScoreRound

  /** Two rounds played and scored, the second with a double hit. */
  function BothScoring(): seq<Action> {
    [Register(0, 0), CreateRound(0, 10), CreateRound(0, 20), CreateRound(0, 30)]
    + Play(0, 1) + Play(1, 2) + [ScoreClosed(0), ScoreClosed(1)]
  }

  /** The second round set back. */
  function SetBack(): Tables {
    var t := Run(EMPTY, BothScoring());
    if |t.rounds| > 1 then t.(rounds := t.rounds[1 := Played(20, 2)]) else t
  }

  const FIRST := History(0, 0, 3, 3, 0, 0)
  const STRAY := History(0, 1, 4, 7, 1, 0)

  lemma SecondRow()
    ensures Row(3, [FIRST], 1, 2) == STRAY
  {
    assert [FIRST][..0] == [];
    assert ScoreRound.LastHistory([FIRST], ScoreRound.ByRoundNumber) == Some(FIRST);
    RowTotal(3, [FIRST], 1, 2);
  }

  lemma BothRoundsScored()
    ensures Game(Run(EMPTY, BothScoring()), 7,
                 [ScoredRound(10, 1), ScoredRound(20, 2), Round(Draft, 0, 30, None, [])], [FIRST, STRAY])
  {
    hide ScoredRound, Slip, Play;
    var start := [Register(0, 0), CreateRound(0, 10), CreateRound(0, 20), CreateRound(0, 30)];
    var drafts := [Round(Draft, 0, 10, None, []), Round(Draft, 0, 20, None, []), Round(Draft, 0, 30, None, [])];
    var t0, t1 := Run(EMPTY, start), Run(Run(EMPTY, start), Play(0, 1));
    var t2 := Run(t1, Play(1, 2));
    Started();
    RoundPlayed(t0, 0, 10, 1, 0, drafts);
    RoundPlayed(t1, 1, 20, 2, 0, drafts[0 := Played(10, 1)]);
    BothPlayed(t2);
    RunAppend(EMPTY, start, Play(0, 1));
    RunAppend(EMPTY, start + Play(0, 1), Play(1, 2));
    RunAppend(EMPTY, start + Play(0, 1) + Play(1, 2), [ScoreClosed(0), ScoreClosed(1)]);
  }

  lemma BothPlayed(t: Tables)
    requires Game(t, 0, [Played(10, 1), Played(20, 2), Round(Draft, 0, 30, None, [])], [])
    ensures Game(Run(t, [ScoreClosed(0), ScoreClosed(1)]), 7,
                 [ScoredRound(10, 1), ScoredRound(20, 2), Round(Draft, 0, 30, None, [])], [FIRST, STRAY])
  {
    hide ScoredRound, Played, Apply;
    var draft := Round(Draft, 0, 30, None, []);
    RunTwo(t, ScoreClosed(0), ScoreClosed(1));
    RoundScored(t, 0, 10, 1, 0, [Played(10, 1), Played(20, 2), draft], []);
    RowTotal(0, [], 0, 1);
    RoundScored(Apply(t, ScoreClosed(0)), 1, 20, 2, 3, [ScoredRound(10, 1), Played(20, 2), draft], [FIRST]);
    SecondRow();
  }

  lemma PlayedIsUnscored(first: int)
    ensures Unscored(ScoredRound(20, first)) == Played(20, first) == Unscored(Played(20, first))
  {
    assert Unscored(ScoredRound(20, first)).tickets == [Slip(first)];
  }

  /** What users and admins entered is as sound as before the round was set back. */
  lemma SetBackInputs(t: Tables, s: Tables, draft: Round)
    requires Sound(t) && t.rounds == [ScoredRound(10, 1), ScoredRound(20, 2), draft]
    requires s == t.(rounds := [ScoredRound(10, 1), Played(20, 2), draft])
    ensures InputsSound(s)
  {
    hide ScoredRound, Sound;
    SoundInputs(t);
    PlayedIsUnscored(2);
    forall r | 0 <= r < |s.rounds| ensures Unscored(s.rounds[r]) == Unscored(t.rounds[r]) {
    }
    forall i, j | 0 <= i < j < |s.rounds| ensures s.rounds[i].status != Open || s.rounds[j].status != Open {
      assert t.rounds[i].status != Open || t.rounds[j].status != Open;
    }
  }

  lemma StrayKept(rounds: seq<Round>, draft: Round)
    requires rounds == [ScoredRound(10, 1), Played(20, 2), draft]
    ensures Kept([FIRST, STRAY], rounds) == [STRAY] && AnyCounts(rounds)
  {
    assert [FIRST, STRAY][..1] == [FIRST] && [FIRST][..0] == [];
    assert Counts(rounds[0]) && !Counts(rounds[1]);
    assert Kept([], rounds) == [] && Dropped(FIRST, rounds) && !Dropped(STRAY, rounds);
    assert Kept([FIRST], rounds) == [];
  }

  /** Scored again beside the stray row, the first round takes over its double hit. */
  lemma HitTakenOver(t: Tables, round: Round)
    requires round == ScoredRound(10, 1) && t.users == map[0 := User(0, 0)] && t.histories == [STRAY]
    ensures Counts(round)
    ensures RoundPass(t, 0, round) ==
            Some(ScoreRound.Pass(map[0 := User(0, 3)], [STRAY, History(0, 0, 3, 3, 1, 0)], round.tickets))
  {
    hide Slip, Outcome, ScoreOf, HitsOf;
    var ticket, start := ScoredTicket(Slip(1), Outcome()), ScoreRound.Pass(t.users, t.histories, []);
    SlipEarns(1);
    OwnRows(t.histories);
    TicketOverStray(ticket);
    ScoredAgain(1);
    OneTicketPass(start, 0, ticket, ScoreRound.ByCreation);
    assert map[0 := User(0, 0)][0 := User(0, 3)] == map[0 := User(0, 3)];
    assert [STRAY] + [History(0, 0, 3, 3, 1, 0)] == [STRAY, History(0, 0, 3, 3, 1, 0)];
    assert [] + [ticket] == round.tickets;
  }

  lemma ScoredAgain(first: int)
    ensures Slip(first).userId == 0 && ScoredTicket(ScoredTicket(Slip(first), Outcome()), Outcome()) ==
            ScoredTicket(Slip(first), Outcome())
  {
  }

  lemma TicketOverStray(ticket: Ticket)
    requires ticket == ScoredTicket(Slip(1), Outcome())
    ensures ScoreRound.NextRow(User(0, 0), [STRAY], 0, Outcome(), ticket, ScoreRound.ByCreation) ==
            History(0, 0, 3, 3, 1, 0)
    ensures Scorable(ticket.prediction, Outcome(), ticket.multipliers)
  {
    SlipEarns(1);
    assert [STRAY][..0] == [];
    assert ScoreRound.LastHistory([STRAY], ScoreRound.ByCreation) == Some(STRAY);
  }

  lemma OneRoundRebuilt(t: Tables, draft: Round)
    requires t.rounds == [ScoredRound(10, 1), Played(20, 2), draft] && !Counts(draft)
    requires t.users == map[0 := User(0, 0)] && t.histories == [STRAY]
    ensures RebuildTo(t, 3).0.histories == [STRAY, History(0, 0, 3, 3, 1, 0)]
  {
    hide ScoredRound, RoundPass, Slip;
    HitTakenOver(t, t.rounds[0]);
    assert RebuildTo(t, 0) == (t, true);
    assert RebuildTo(t, 1) == NextRound((t, true), 0, t.rounds[0]);
    assert RebuildTo(t, 2) == RebuildTo(t, 1);
    assert RebuildTo(t, 3) == RebuildTo(t, 2);
  }

  /** The tables after the round was set back. */
  lemma SetBackTables(t: Tables, draft: Round)
    requires t == SetBack() && draft == Round(Draft, 0, 30, None, [])
    ensures InputsSound(t) && Zeroed(t.users) == map[0 := User(0, 0)]
    ensures t.rounds == [ScoredRound(10, 1), Played(20, 2), draft] && t.histories == [FIRST, STRAY]
  {
    hide Sound, InputsSound, ScoredRound, Played, Apply;
    EmptySound();
    RunSound(EMPTY, BothScoring());
    BothRoundsScored();
    SetBackInputs(Run(EMPTY, BothScoring()), t, draft);
  }

  /**
   The rebuild keeps the row of the round set back and reads it: the first round's row, scored again,
   carries the other round's double hit. A replay does not, and the ledger is not restored.
   */
  lemma StrayRowIsKept()
    ensures var t := SetBack();
            && InputsSound(t) && AnyCounts(t.rounds)
            && Step(t).1 && Step(t).0.histories == [STRAY, History(0, 0, 3, 3, 1, 0)]
            && Step(t).0 != Replay(t) && !Sound(Step(t).0)
  {
    hide SetBack, Sound, InputsSound, ScoredRound, Played, Replay, RebuildTo, Kept, AnyCounts, Zeroed, Beside;
    var t, draft := SetBack(), Round(Draft, 0, 30, None, []);
    SetBackTables(t, draft);
    StrayKept(t.rounds, draft);
    RecomputeIsReplay(t);
    RecomputeRepairsExactly(t);
    OneRoundRebuilt(Clear(t), draft);
  }
}
