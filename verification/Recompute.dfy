/**
 Rebuilding the ledger of scores (src/services/score/recompute-scored-rounds.service.ts): the
 histories of SCORED rounds and every total are dropped, and the rounds scored again in number order.
 */
module Recompute {
  import opened Common
  import opened GameTables
  import opened ScoreRound
  import opened ScoreLedger
  import opened GameInvariant

  /** The rounds the job fetches. */
  predicate Counts(round: Round) { round.status == Scored && round.result.Some? }

  predicate AnyCounts(rounds: seq<Round>) {
    exists k :: 0 <= k < |rounds| && Counts(rounds[k])
  }

  predicate Dropped(h: History, rounds: seq<Round>) {
    h.roundId < |rounds| && Counts(rounds[h.roundId])
  }

  /** What the deletion leaves of the histories. */
  function Kept(histories: seq<History>, rounds: seq<Round>): (kept: seq<History>) {
    if |histories| == 0 then []
    else
      var last := histories[|histories| - 1];
      Kept(histories[..|histories| - 1], rounds) + (if Dropped(last, rounds) then [] else [last])
  }

  lemma {:induction false} KeptExactly(histories: seq<History>, rounds: seq<Round>, h: History)
    ensures h in Kept(histories, rounds) <==> h in histories && !Dropped(h, rounds)
  {
    if |histories| > 0 {
      var n := |histories| - 1;
      assert histories == histories[..n] + [histories[n]];
      KeptExactly(histories[..n], rounds, h);
    }
  }

  lemma KeptRows(histories: seq<History>, rounds: seq<Round>)
    ensures forall k | 0 <= k < |Kept(histories, rounds)| :: !Dropped(Kept(histories, rounds)[k], rounds)
  {
    forall k | 0 <= k < |Kept(histories, rounds)| ensures !Dropped(Kept(histories, rounds)[k], rounds) {
      KeptExactly(histories, rounds, Kept(histories, rounds)[k]);
    }
  }

  function Zeroed(users: map<UserId, User>): map<UserId, User> {
    map u | u in users :: users[u].(scoreTotal := 0)
  }

  function Clear(t: Tables): Tables {
    t.(users := Zeroed(t.users), histories := Kept(t.histories, t.rounds))
  }

  /** The pass over the tickets of one round. */
  function RoundPass(s: Tables, n: nat, round: Round): (p: Option<Pass>)
    requires Counts(round)
  {
    ScoreTickets(Pass(s.users, s.histories, []), n, round.result.value, round.tickets, ByCreation)
  }

  /** One round rebuilt, unless an earlier transaction failed or the round does not count. */
  function NextRound(x: (Tables, bool), n: nat, round: Round): (y: (Tables, bool))
    requires n < |x.0.rounds|
    ensures |y.0.rounds| == |x.0.rounds|
  {
    if !x.1 || !Counts(round) then x
    else
      var p := RoundPass(x.0, n, round);
      if p.None? then (x.0, false) else (Finish(x.0, n, p.value), true)
  }

  /** The rebuild after the rounds below `n`, and whether every transaction so far committed. */
  function RebuildTo(t: Tables, n: nat): (x: (Tables, bool))
    requires n <= |t.rounds|
    ensures |x.0.rounds| == |t.rounds|
  {
    if n == 0 then (t, true) else NextRound(RebuildTo(t, n - 1), n - 1, t.rounds[n - 1])
  }

  function Step(t: Tables): (Tables, bool) {
    if !AnyCounts(t.rounds) then (t, true) else RebuildTo(Clear(t), |t.rounds|)
  }

  /** One round's transaction. */
  method RebuildRound(db: GameDb, roundId: nat, round: Round) returns (ok: bool)
    requires roundId < |db.rounds| && Counts(round)
    modifies db`users, db`rounds, db`histories
    ensures var p := RoundPass(old(db.View()), roundId, round);
            && ok == p.Some?
            && db.View() == (if p.None? then old(db.View()) else Finish(old(db.View()), roundId, p.value))
  {
    var users, histories := db.users, db.histories;
    var tickets;
    ok, tickets := ScoreAll(db, roundId, round.result.value, round.tickets, ByCreation);
    if !ok {
      db.users, db.histories := users, histories;
      return;
    }
    db.rounds := db.rounds[roundId := db.rounds[roundId].(tickets := tickets, status := Scored)];
  }

  method Execute(db: GameDb) returns (ok: bool)
    modifies db`users, db`rounds, db`histories
    ensures (db.View(), ok) == Step(old(db.View()))
  {
    var rounds := db.rounds;
    if !AnyCounts(rounds) {
      return true;
    }
    db.histories := Kept(db.histories, rounds);
    db.users := Zeroed(db.users);
    ghost var start := db.View();
    ok := true;
    for n := 0 to |rounds|
      invariant ok && (db.View(), ok) == RebuildTo(start, n)
    {
      if Counts(rounds[n]) {
        ok := RebuildRound(db, n, rounds[n]);
        if !ok {
          RebuildStops(start, n + 1, |rounds|);
          return;
        }
      }
    }
  }

  lemma {:induction false} RebuildStops(t: Tables, n: nat, m: nat)
    requires n <= m <= |t.rounds| && !RebuildTo(t, n).1
    ensures RebuildTo(t, m) == RebuildTo(t, n)
  {
    if n < m {
      RebuildStops(t, n, m - 1);
    }
  }

  // ---------- scoring one by one ----------

  /** A round before it was scored. */
  function Unscored(round: Round): Round {
    if !Counts(round) then round
    else round.(status := Closed,
                tickets := seq(|round.tickets|, i requires 0 <= i < |round.tickets| =>
                                 round.tickets[i].(scoreRound := 0, status := Awaiting)))
  }

  /** The game before any scoring: nothing but what users and admins entered. */
  function Unscore(t: Tables): Tables {
    t.(users := Zeroed(t.users), histories := [],
       rounds := seq(|t.rounds|, r requires 0 <= r < |t.rounds| => Unscored(t.rounds[r])))
  }

  /** Scores round `n` if `round` says it was scored. */
  function ReplayNext(b: Tables, n: nat, round: Round): Tables {
    if Counts(round) && ScoreRound.Step(b, n).Ok? then ScoreRound.Step(b, n).value.0 else b
  }

  /** Scores, in number order, the rounds below `n` that `rounds` says were scored. */
  function ReplayTo(s: Tables, rounds: seq<Round>, n: nat): Tables
    requires n <= |rounds|
  {
    if n == 0 then s else ReplayNext(ReplayTo(s, rounds, n - 1), n - 1, rounds[n - 1])
  }

  function Replay(t: Tables): Tables {
    ReplayTo(Unscore(t), t.rounds, |t.rounds|)
  }

  // ---------- what users and admins entered ----------

  /** Rounds as the services write them, whatever was stored as scores. */
  ghost predicate InputsSound(t: Tables) {
    && (forall r | 0 <= r < |t.rounds| :: RoundSound(Unscored(t.rounds[r]), t.users.Keys))
    && (forall r | 0 <= r < |t.rounds| :: t.rounds[r].status == Scored ==> t.rounds[r].result.Some?)
    && AtMostOneOpen(t.rounds)
    && CountersNonNegative(t)
  }

  lemma UnscoredSound(round: Round, users: set<UserId>)
    requires RoundSound(round, users)
    ensures RoundSound(Unscored(round), users)
  {
    var u := Unscored(round);
    forall i | 0 <= i < |u.tickets| ensures TicketSound(u.tickets[i], users) {
      assert TicketSound(round.tickets[i], users);
    }
  }

  lemma SoundInputs(t: Tables)
    requires Sound(t)
    ensures InputsSound(t) && Kept(t.histories, t.rounds) == []
  {
    forall r | 0 <= r < |t.rounds| ensures RoundSound(Unscored(t.rounds[r]), t.users.Keys) {
      assert RoundSound(t.rounds[r], t.users.Keys);
      UnscoredSound(t.rounds[r], t.users.Keys);
    }
    forall r | 0 <= r < |t.rounds| ensures t.rounds[r].status == Scored ==> t.rounds[r].result.Some? {
      assert RoundSound(t.rounds[r], t.users.Keys);
    }
    AllDropped(t);
  }

  lemma AllDropped(t: Tables)
    requires AllBacked(t.histories, t.rounds, t.users.Keys)
    ensures Kept(t.histories, t.rounds) == []
  {
    forall h | h in t.histories ensures Dropped(h, t.rounds) {
      var k :| 0 <= k < |t.histories| && t.histories[k] == h;
      assert RowBacked(t.histories[k], t.rounds, t.users.Keys);
    }
    NothingKept(t.histories, t.rounds);
  }

  lemma {:induction false} NothingKept(histories: seq<History>, rounds: seq<Round>)
    requires forall h | h in histories :: Dropped(h, rounds)
    ensures Kept(histories, rounds) == []
  {
    if |histories| > 0 {
      var n := |histories| - 1;
      assert histories == histories[..n] + [histories[n]];
      NothingKept(histories[..n], rounds);
    }
  }

  lemma {:induction false} NoPointsUnscored(rounds: seq<Round>, u: UserId)
    requires forall r | 0 <= r < |rounds| :: rounds[r].status != Scored
    ensures RoundsPoints(rounds, u) == 0
  {
    if |rounds| > 0 {
      NoPointsUnscored(rounds[..|rounds| - 1], u);
    }
  }

  /** The game before scoring is sound. */
  lemma UnscoreSound(t: Tables)
    requires InputsSound(t)
    ensures Sound(Unscore(t))
  {
    var s := Unscore(t);
    forall r | 0 <= r < |s.rounds| ensures s.rounds[r].status != Scored && RoundSound(s.rounds[r], s.users.Keys) {
      assert RoundSound(Unscored(t.rounds[r]), t.users.Keys);
    }
    forall u | u in s.users {
      NoPointsUnscored(s.rounds, u);
    }
    forall i, j | 0 <= i < j < |s.rounds| ensures s.rounds[i].status != Open || s.rounds[j].status != Open {
      assert t.rounds[i].status != Open || t.rounds[j].status != Open;
    }
  }

  // ---------- the two lookups agree when rounds are scored in order ----------

  /** Rows in round order, none above `n`. */
  ghost predicate Ascending(rows: seq<History>, n: int) {
    && (forall i | 0 <= i < |rows| :: rows[i].roundId <= n)
    && (forall i, j | 0 <= i < j < |rows| :: rows[i].roundId <= rows[j].roundId)
  }

  lemma AscendingAppend(rows: seq<History>, h: History)
    requires Ascending(rows, h.roundId)
    ensures Ascending(rows + [h], h.roundId)
  {
  }

  lemma AscendingPrefix(rows: seq<History>, n: int)
    requires |rows| > 0 && Ascending(rows, n)
    ensures Ascending(rows[..|rows| - 1], rows[|rows| - 1].roundId) && rows[|rows| - 1].roundId <= n
  {
  }

  lemma AscendingWeaker(rows: seq<History>, m: int, n: int)
    requires Ascending(rows, m) && m <= n
    ensures Ascending(rows, n)
  {
  }

  lemma {:induction false} RowsAscending(histories: seq<History>, u: UserId, n: int)
    requires Ascending(histories, n)
    ensures Ascending(Rows(histories, u), n)
  {
    if |histories| > 0 {
      var before, last := histories[..|histories| - 1], histories[|histories| - 1];
      AscendingPrefix(histories, n);
      RowsAscending(before, u, last.roundId);
      assert histories == before + [last];
      RowsAppend(before, last, u);
      AscendingAppend(Rows(before, u), last);
      AscendingWeaker(Rows(histories, u), last.roundId, n);
    }
  }

  lemma LookupsAgree(rows: seq<History>, n: int, lookup: Lookup)
    requires Ascending(rows, n)
    ensures LastHistory(rows, lookup) == (if |rows| == 0 then None else Some(rows[|rows| - 1]))
  {
    if |rows| > 1 {
      assert LastHistory(rows[..|rows| - 1], lookup).value in rows[..|rows| - 1];
    }
  }

  lemma TicketsAgree(q: Pass, roundId: nat, result: seq<string>, a: Ticket, b: Ticket)
    requires Ascending(q.histories, roundId) && a.userId in q.users
    requires ScoredTicket(a, result) == ScoredTicket(b, result)
    ensures b.userId == a.userId
    ensures ScoreTicket(q, roundId, result, a, ByCreation) == ScoreTicket(q, roundId, result, b, ByRoundNumber)
    ensures Ascending(ScoreTicket(q, roundId, result, a, ByCreation).histories, roundId)
    ensures Accepts(q.users, q.histories, roundId, result, a) == Accepts(q.users, q.histories, roundId, result, b)
  {
    var rows := Rows(q.histories, a.userId);
    SameInputs(a, b, result);
    RowsAscending(q.histories, a.userId, roundId);
    LookupsAgree(rows, roundId, ByCreation);
    LookupsAgree(rows, roundId, ByRoundNumber);
    var row := NextRow(q.users[a.userId], rows, roundId, result, a, ByCreation);
    assert row == NextRow(q.users[a.userId], rows, roundId, result, b, ByRoundNumber);
    AscendingAppend(q.histories, row);
  }

  lemma SameInputs(a: Ticket, b: Ticket, result: seq<string>)
    requires ScoredTicket(a, result) == ScoredTicket(b, result)
    ensures a.userId == b.userId && a.prediction == b.prediction && a.multipliers == b.multipliers
  {
  }

  /** Tickets that differ in their stored scores only. */
  ghost predicate SameEntries(a: seq<Ticket>, b: seq<Ticket>, result: seq<string>) {
    |a| == |b| && forall i | 0 <= i < |a| :: ScoredTicket(a[i], result) == ScoredTicket(b[i], result)
  }

  /** Over histories in order, a pass does not depend on the lookup, nor on stored scores. */
  lemma {:induction false} PassesAgree(p: Pass, roundId: nat, result: seq<string>, a: seq<Ticket>, b: seq<Ticket>)
    requires Ascending(p.histories, roundId) && SameEntries(a, b, result)
    ensures ScoreTickets(p, roundId, result, a, ByCreation) == ScoreTickets(p, roundId, result, b, ByRoundNumber)
    ensures var q := ScoreTickets(p, roundId, result, a, ByCreation);
            q.Some? ==> Ascending(q.value.histories, roundId)
  {
    if |a| > 0 {
      var n := |a| - 1;
      PassesAgree(p, roundId, result, a[..n], b[..n]);
      var q := ScoreTickets(p, roundId, result, a[..n], ByCreation);
      assert ScoredTicket(a[n], result) == ScoredTicket(b[n], result);
      SameInputs(a[n], b[n], result);
      if q.Some? && a[n].userId in q.value.users {
        TicketsAgree(q.value, roundId, result, a[n], b[n]);
      }
    }
  }

  // ---------- the rows of leftover histories do not count ----------

  /** Rows that agree in all but their hit columns. */
  ghost predicate SameScores(a: seq<History>, b: seq<History>) {
    |a| == |b| && forall i | 0 <= i < |a| ::
      a[i] == b[i].(totalDoubles := a[i].totalDoubles, totalSuperDoubles := a[i].totalSuperDoubles)
  }

  /** The rebuilt rows stand behind those that were kept. */
  ghost predicate Beside(kept: seq<History>, a: seq<History>, b: seq<History>) {
    kept <= a && SameScores(a[|kept|..], b)
  }

  lemma BesideAppend(kept: seq<History>, a: seq<History>, b: seq<History>, x: History, y: History)
    requires Beside(kept, a, b) && SameScores([x], [y])
    ensures Beside(kept, a + [x], b + [y])
  {
    assert [x][0] == [y][0].(totalDoubles := x.totalDoubles, totalSuperDoubles := x.totalSuperDoubles);
    assert (a + [x])[|kept|..] == a[|kept|..] + [x];
  }

  lemma BesideAccepts(kept: seq<History>, a: seq<History>, b: seq<History>, users: map<UserId, User>, roundId: nat,
                      result: seq<string>, ticket: Ticket)
    requires Beside(kept, a, b) && forall k | 0 <= k < |kept| :: kept[k].roundId != roundId
    ensures Accepts(users, a, roundId, result, ticket) == Accepts(users, b, roundId, result, ticket)
  {
    assert forall i | 0 <= i < |b| :: a[|kept|..][i] == a[|kept| + i];
    assert forall k | |kept| <= k < |a| :: a[k] == a[|kept|..][k - |kept|];
    assert forall k | 0 <= k < |kept| :: a[k] == kept[k];
  }

  lemma RowBeside(user: User, before: seq<History>, others: seq<History>, roundId: nat, result: seq<string>,
                  a: Ticket, b: Ticket)
    requires ScoredTicket(a, result) == ScoredTicket(b, result)
    ensures SameScores([NextRow(user, before, roundId, result, a, ByCreation)],
              [NextRow(user, others, roundId, result, b, ByRoundNumber)])
  {
    SameInputs(a, b, result);
  }

  lemma TicketBeside(kept: seq<History>, p: Pass, q: Pass, roundId: nat, result: seq<string>, a: Ticket, b: Ticket)
    requires p.users == q.users && Beside(kept, p.histories, q.histories) && a.userId in p.users
    requires ScoredTicket(a, result) == ScoredTicket(b, result)
    ensures b.userId == a.userId
    ensures var x, y := ScoreTicket(p, roundId, result, a, ByCreation),
              ScoreTicket(q, roundId, result, b, ByRoundNumber);
            x.users == y.users && Beside(kept, x.histories, y.histories)
  {
    SameInputs(a, b, result);
    var user := p.users[a.userId];
    var x := NextRow(user, Rows(p.histories, a.userId), roundId, result, a, ByCreation);
    var y := NextRow(user, Rows(q.histories, a.userId), roundId, result, b, ByRoundNumber);
    RowBeside(user, Rows(p.histories, a.userId), Rows(q.histories, a.userId), roundId, result, a, b);
    BesideAppend(kept, p.histories, q.histories, x, y);
  }

  /** Kept rows, as long as none is of the round, change neither whether a pass succeeds nor any score. */
  lemma {:induction false} PassBeside(kept: seq<History>, p: Pass, q: Pass, roundId: nat, result: seq<string>,
                                      a: seq<Ticket>, b: seq<Ticket>)
    requires p.users == q.users && Beside(kept, p.histories, q.histories) && SameEntries(a, b, result)
    requires forall k | 0 <= k < |kept| :: kept[k].roundId != roundId
    ensures var x, y := ScoreTickets(p, roundId, result, a, ByCreation),
              ScoreTickets(q, roundId, result, b, ByRoundNumber);
            && x.Some? == y.Some?
            && (x.Some? ==> x.value.users == y.value.users && Beside(kept, x.value.histories, y.value.histories))
  {
    if |a| > 0 {
      var n := |a| - 1;
      PassBeside(kept, p, q, roundId, result, a[..n], b[..n]);
      var x, y := ScoreTickets(p, roundId, result, a[..n], ByCreation),
        ScoreTickets(q, roundId, result, b[..n], ByRoundNumber);
      assert ScoredTicket(a[n], result) == ScoredTicket(b[n], result);
      if x.Some? {
        SameInputs(a[n], b[n], result);
        BesideAccepts(kept, x.value.histories, y.value.histories, x.value.users, roundId, result, a[n]);
        if a[n].userId in x.value.users {
          TicketBeside(kept, x.value, y.value, roundId, result, a[n], b[n]);
        }
      }
    }
  }

  // ---------- recompute is the replay ----------

  /**
   The rebuild and the replay after the rounds below `n`: alike below `n`, as given above, with the
   same totals and scores throughout and, where no row was kept, the same hits.
   */
  ghost predicate InStep(t: Tables, n: nat, a: Tables, b: Tables) {
    && n <= |t.rounds| == |a.rounds| == |b.rounds|
    && b == a.(rounds := b.rounds, histories := b.histories) && a.users.Keys == t.users.Keys
    && HistoriesInStep(Kept(t.histories, t.rounds), n - 1, a.histories, b.histories)
    && (forall r | 0 <= r < n :: a.rounds[r] == b.rounds[r])
    && (forall r | n <= r < |t.rounds| :: a.rounds[r] == t.rounds[r] && b.rounds[r] == Unscored(t.rounds[r]))
  }

  ghost predicate HistoriesInStep(kept: seq<History>, n: int, a: seq<History>, b: seq<History>) {
    Beside(kept, a, b) && (kept == [] ==> a == b && Ascending(a, n))
  }

  lemma UnscoredTickets(round: Round)
    requires Counts(round)
    ensures SameEntries(round.tickets, Unscored(round).tickets, round.result.value)
  {
  }

  lemma RoundPassesAgree(kept: seq<History>, p: Pass, q: Pass, n: nat, round: Round)
    requires Counts(round) && p.users == q.users && p.tickets == q.tickets
               && HistoriesInStep(kept, n, p.histories, q.histories)
    requires forall k | 0 <= k < |kept| :: kept[k].roundId != n
    ensures var x := ScoreTickets(p, n, round.result.value, round.tickets, ByCreation);
            var y := ScoreTickets(q, n, round.result.value, Unscored(round).tickets, ByRoundNumber);
            && x.Some? == y.Some?
            && (x.Some? ==> && x.value == y.value.(histories := x.value.histories)
                            && HistoriesInStep(kept, n, x.value.histories, y.value.histories))
  {
    UnscoredTickets(round);
    PassBeside(kept, p, q, n, round.result.value, round.tickets, Unscored(round).tickets);
    if ScoreTickets(p, n, round.result.value, round.tickets, ByCreation).Some? {
      SameTickets(p, q, n, round.result.value, round.tickets, Unscored(round).tickets);
    }
    if kept == [] {
      PassesAgree(p, n, round.result.value, round.tickets, Unscored(round).tickets);
    }
  }

  lemma SameTickets(p: Pass, q: Pass, n: nat, result: seq<string>, a: seq<Ticket>, b: seq<Ticket>)
    requires p.tickets == q.tickets && SameEntries(a, b, result)
    requires ScoreTickets(p, n, result, a, ByCreation).Some? && ScoreTickets(q, n, result, b, ByRoundNumber).Some?
    ensures ScoreTickets(p, n, result, a, ByCreation).value.tickets ==
              ScoreTickets(q, n, result, b, ByRoundNumber).value.tickets
  {
    var x := PassRows(p, n, result, a, ByCreation);
    var y := PassRows(q, n, result, b, ByRoundNumber);
    assert ScoredTickets(a, result) == ScoredTickets(b, result);
  }

  /** Two passes written, one on each side. */
  lemma FinishInStep(t: Tables, n: nat, a: Tables, b: Tables, p: Pass, q: Pass)
    requires 0 < n <= |t.rounds| && InStep(t, n - 1, a, b) && Counts(t.rounds[n - 1])
    requires p.users.Keys == t.users.Keys && p == q.(histories := p.histories)
    requires HistoriesInStep(Kept(t.histories, t.rounds), n - 1, p.histories, q.histories)
    ensures InStep(t, n, Finish(a, n - 1, p), Finish(b, n - 1, q))
  {
  }

  lemma StepUnfolds(b: Tables, n: nat, round: Round, q: Option<Pass>)
    requires n < |b.rounds| && Counts(round) && b.rounds[n] == Unscored(round) && ScoreRound.Step(b, n).Ok?
    requires q == ScoreTickets(Pass(b.users, b.histories, []), n, round.result.value, Unscored(round).tickets,
               ByRoundNumber)
    ensures q.Some? && ScoreRound.Step(b, n) == Ok((Finish(b, n, q.value), true))
  {
  }

  lemma HistoriesWiden(kept: seq<History>, n: int, a: seq<History>, b: seq<History>)
    requires HistoriesInStep(kept, n - 1, a, b)
    ensures HistoriesInStep(kept, n, a, b)
  {
  }

  /** One counted round rebuilt, and scored. */
  lemma RoundInStep(t: Tables, n: nat, a: Tables, b: Tables) returns (p: Pass, q: Pass)
    requires 0 < n <= |t.rounds| && InStep(t, n - 1, a, b) && Counts(t.rounds[n - 1]) && ScoreRound.Step(b, n - 1).Ok?
    ensures RoundPass(a, n - 1, t.rounds[n - 1]) == Some(p)
    ensures ScoreRound.Step(b, n - 1) == Ok((Finish(b, n - 1, q), true))
    ensures InStep(t, n, Finish(a, n - 1, p), Finish(b, n - 1, q))
  {
    var round, kept := t.rounds[n - 1], Kept(t.histories, t.rounds);
    var start, again := Pass(a.users, a.histories, []), Pass(b.users, b.histories, []);
    KeptRows(t.histories, t.rounds);
    HistoriesWiden(kept, n - 1, a.histories, b.histories);
    RoundPassesAgree(kept, start, again, n - 1, round);
    var y := ScoreTickets(again, n - 1, round.result.value, Unscored(round).tickets, ByRoundNumber);
    StepUnfolds(b, n - 1, round, y);
    p, q := ScoreTickets(start, n - 1, round.result.value, round.tickets, ByCreation).value, y.value;
    FinishInStep(t, n, a, b, p, q);
  }

  lemma SkippedInStep(t: Tables, n: nat, a: Tables, b: Tables)
    requires 0 < n <= |t.rounds| && InStep(t, n - 1, a, b) && !Counts(t.rounds[n - 1])
    ensures InStep(t, n, a, b)
  {
    HistoriesWiden(Kept(t.histories, t.rounds), n - 1, a.histories, b.histories);
  }

  lemma StartInStep(t: Tables)
    ensures InStep(t, 0, Clear(t), Unscore(t))
  {
  }

  /** Scoring one round after another from a sound start leaves a sound state. */
  lemma {:induction false} ReplayToSound(s: Tables, rounds: seq<Round>, n: nat, b: Tables)
    requires Sound(s) && n <= |rounds| && b == ReplayTo(s, rounds, n)
    ensures Sound(b)
  {
    hide Sound;
    if n > 0 {
      var before := ReplayTo(s, rounds, n - 1);
      ReplayToSound(s, rounds, n - 1, before);
      ReplayNextSound(before, n - 1, rounds[n - 1], b);
    }
  }

  lemma ReplaySound(t: Tables, n: nat, b: Tables)
    requires InputsSound(t) && n <= |t.rounds| && b == ReplayTo(Unscore(t), t.rounds, n)
    ensures Sound(b)
  {
    UnscoreSound(t);
    ReplayToSound(Unscore(t), t.rounds, n, b);
  }

  lemma ReplayNextSound(b: Tables, n: nat, round: Round, next: Tables)
    requires Sound(b) && next == ReplayNext(b, n, round)
    ensures Sound(next)
  {
    if ScoreRound.Step(b, n).Ok? {
      ScoreSound(b, n);
    }
  }

  /** In the replay, scoring a round that counts does not fail. */
  lemma ReplayGoesOn(t: Tables, n: nat, b: Tables)
    requires InputsSound(t) && n < |t.rounds| == |b.rounds| && b == ReplayTo(Unscore(t), t.rounds, n)
    requires Counts(t.rounds[n]) && b.rounds[n] == Unscored(t.rounds[n])
    ensures ScoreRound.Step(b, n).Ok?
  {
    ReplaySound(t, n, b);
    ScoringSucceeds(b, n);
  }

  lemma CountedInStep(t: Tables, n: nat, a: Tables, b: Tables)
    requires 0 < n <= |t.rounds| && InStep(t, n - 1, a, b) && Counts(t.rounds[n - 1]) && ScoreRound.Step(b, n - 1).Ok?
    ensures NextRound((a, true), n - 1, t.rounds[n - 1]).1
    ensures InStep(t, n, NextRound((a, true), n - 1, t.rounds[n - 1]).0, ScoreRound.Step(b, n - 1).value.0)
  {
    var p, q := RoundInStep(t, n, a, b);
  }

  lemma {:induction false} RebuildInStep(t: Tables, n: nat, a: (Tables, bool), b: Tables)
    requires InputsSound(t) && n <= |t.rounds|
    requires RebuildTo(Clear(t), n) == a && ReplayTo(Unscore(t), t.rounds, n) == b
    ensures a.1 && InStep(t, n, a.0, b)
  {
    if n == 0 {
      StartInStep(t);
    } else {
      var before, replayed := RebuildTo(Clear(t), n - 1), ReplayTo(Unscore(t), t.rounds, n - 1);
      RebuildInStep(t, n - 1, before, replayed);
      assert Clear(t).rounds == t.rounds;
      if Counts(t.rounds[n - 1]) {
        ReplayGoesOn(t, n - 1, replayed);
        CountedInStep(t, n, before.0, replayed);
      } else {
        SkippedInStep(t, n, before.0, replayed);
      }
    }
  }

  /**
   Recompute equals scoring the SCORED rounds one by one in number order, from sound inputs and
   whatever histories and stored scores there were: the same totals, rounds and tickets, and for each
   row of the replay a row with the same scores. A row of another round that was kept does no more than
   enter hit columns; the states are equal exactly if none was.
   */
  lemma RecomputeIsReplay(t: Tables)
    requires InputsSound(t) && AnyCounts(t.rounds)
    ensures Sound(Replay(t)) && Step(t).1
    ensures Step(t).0 == Replay(t).(histories := Step(t).0.histories)
    ensures Beside(Kept(t.histories, t.rounds), Step(t).0.histories, Replay(t).histories)
    ensures Step(t).0 == Replay(t) <==> Kept(t.histories, t.rounds) == []
  {
    var a, b := RebuildTo(Clear(t), |t.rounds|), Replay(t);
    RebuildInStep(t, |t.rounds|, a, b);
    ReplaySound(t, |t.rounds|, b);
    assert a.0.rounds == b.rounds;
  }

  // ---------- recompute depends on what was entered only ----------

  /** The rebuild after `n` rounds has kept what was entered. */
  ghost predicate KeepsInputs(t: Tables, n: nat, a: Tables) {
    && n <= |t.rounds| == |a.rounds|
    && Zeroed(a.users) == Zeroed(t.users)
    && a.freeBenefits == t.freeBenefits && a.inventory == t.inventory
    && (forall r | 0 <= r < |t.rounds| ::
          Unscored(a.rounds[r]) == Unscored(t.rounds[r]) && Counts(a.rounds[r]) == Counts(t.rounds[r]))
    && (forall r | n <= r < |t.rounds| :: a.rounds[r] == t.rounds[r])
    && Kept(t.histories, t.rounds) <= a.histories
  }

  lemma ScoredKeepsInputs(round: Round)
    requires Counts(round)
    ensures Unscored(round.(status := Scored, tickets := ScoredTickets(round.tickets, round.result.value))) ==
              Unscored(round)
  {
    assert |ScoredTickets(round.tickets, round.result.value)| == |round.tickets|;
  }

  lemma PassKeepsUsers(p: Pass, roundId: nat, result: seq<string>, tickets: seq<Ticket>, lookup: Lookup)
    requires ScoreTickets(p, roundId, result, tickets, lookup).Some?
    ensures Zeroed(ScoreTickets(p, roundId, result, tickets, lookup).value.users) == Zeroed(p.users)
  {
    forall u | u in p.users {
      PassPoints(p, roundId, result, tickets, lookup, u);
    }
  }

  lemma RoundKeepsInputs(t: Tables, n: nat, a: Tables, p: Pass)
    requires n < |t.rounds| && KeepsInputs(t, n, a) && Counts(t.rounds[n]) && RoundPass(a, n, t.rounds[n]) == Some(p)
    ensures KeepsInputs(t, n + 1, Finish(a, n, p))
  {
    var round := t.rounds[n];
    var start := Pass(a.users, a.histories, []);
    PassKeepsUsers(start, n, round.result.value, round.tickets, ByCreation);
    var rows := PassRows(start, n, round.result.value, round.tickets, ByCreation);
    assert p.tickets == ScoredTickets(round.tickets, round.result.value);
    ScoredKeepsInputs(round);
  }

  lemma StartKeepsInputs(t: Tables)
    ensures KeepsInputs(t, 0, Clear(t))
  {
  }

  lemma NextKeepsInputs(t: Tables, n: nat, x: (Tables, bool))
    requires n < |t.rounds| && KeepsInputs(t, n, x.0)
    ensures KeepsInputs(t, n + 1, NextRound(x, n, t.rounds[n]).0)
  {
    if x.1 && Counts(t.rounds[n]) && RoundPass(x.0, n, t.rounds[n]).Some? {
      RoundKeepsInputs(t, n, x.0, RoundPass(x.0, n, t.rounds[n]).value);
    }
  }

  lemma {:induction false} RebuildKeeps(t: Tables, n: nat, a: Tables)
    requires n <= |t.rounds| && RebuildTo(Clear(t), n).0 == a
    ensures KeepsInputs(t, n, a)
  {
    hide KeepsInputs, NextRound, Kept, Zeroed;
    if n == 0 {
      StartKeepsInputs(t);
    } else {
      var before := RebuildTo(Clear(t), n - 1);
      assert Clear(t).rounds == t.rounds;
      RebuildKeeps(t, n - 1, before.0);
      NextKeepsInputs(t, n - 1, before);
    }
  }

  /** The rebuild keeps everything users and admins entered. */
  lemma RebuildKeepsInputs(t: Tables, n: nat)
    requires n <= |t.rounds|
    ensures KeepsInputs(t, n, RebuildTo(Clear(t), n).0)
  {
    RebuildKeeps(t, n, RebuildTo(Clear(t), n).0);
  }

  // ---------- running the job twice ----------

  lemma {:induction false} KeptAppend(histories: seq<History>, more: seq<History>, rounds: seq<Round>)
    requires forall k | 0 <= k < |more| :: Dropped(more[k], rounds)
    ensures Kept(histories + more, rounds) == Kept(histories, rounds)
  {
    if |more| == 0 {
      assert histories + more == histories;
    } else {
      var n := |more| - 1;
      assert (histories + more)[..|histories + more| - 1] == histories + more[..n];
      KeptAppend(histories, more[..n], rounds);
    }
  }

  lemma {:induction false} KeptOnly(kept: seq<History>, rounds: seq<Round>)
    requires forall k | 0 <= k < |kept| :: !Dropped(kept[k], rounds)
    ensures Kept(kept, rounds) == kept
  {
    if |kept| > 0 {
      KeptOnly(kept[..|kept| - 1], rounds);
    }
  }

  lemma {:induction false} KeptByCounts(histories: seq<History>, a: seq<Round>, b: seq<Round>)
    requires |a| == |b| && forall r | 0 <= r < |a| :: Counts(a[r]) == Counts(b[r])
    ensures Kept(histories, a) == Kept(histories, b)
  {
    if |histories| > 0 {
      KeptByCounts(histories[..|histories| - 1], a, b);
    }
  }

  /** What the rebuild adds to the histories, a second deletion takes away again. */
  lemma {:induction false} RebuiltRowsDropped(t: Tables, n: nat, a: Tables)
    requires n <= |t.rounds| && RebuildTo(Clear(t), n).0 == a
    ensures Kept(a.histories, t.rounds) == Kept(t.histories, t.rounds)
  {
    if n == 0 {
      KeptRows(t.histories, t.rounds);
      KeptOnly(Kept(t.histories, t.rounds), t.rounds);
    } else {
      var before, round := RebuildTo(Clear(t), n - 1), t.rounds[n - 1];
      RebuiltRowsDropped(t, n - 1, before.0);
      if before.1 && Counts(round) {
        RoundRowsDropped(before.0, t.rounds, n - 1, round);
      }
    }
  }

  lemma RoundRowsDropped(a: Tables, rounds: seq<Round>, n: nat, round: Round)
    requires n < |rounds| && Counts(rounds[n]) && Counts(round)
    ensures var p := RoundPass(a, n, round);
            p.Some? ==> Kept(p.value.histories, rounds) == Kept(a.histories, rounds)
  {
    var start := Pass(a.users, a.histories, []);
    if RoundPass(a, n, round).Some? {
      var rows := PassRows(start, n, round.result.value, round.tickets, ByCreation);
      forall k | 0 <= k < |rows| ensures Dropped(rows[k], rounds) {
        assert RowFor(rows[k], n, round.result.value, round.tickets[k]);
      }
      KeptAppend(a.histories, rows, rounds);
    }
  }

  lemma SameTicket(q: Pass, roundId: nat, result: seq<string>, a: Ticket, b: Ticket, lookup: Lookup)
    requires ScoredTicket(a, result) == ScoredTicket(b, result)
    ensures b.userId == a.userId
    ensures Accepts(q.users, q.histories, roundId, result, a) == Accepts(q.users, q.histories, roundId, result, b)
    ensures a.userId in q.users ==>
              ScoreTicket(q, roundId, result, a, lookup) == ScoreTicket(q, roundId, result, b, lookup)
  {
    SameInputs(a, b, result);
  }

  /** A pass reads nothing of a stored score. */
  lemma {:induction false} SamePass(p: Pass, roundId: nat, result: seq<string>, a: seq<Ticket>, b: seq<Ticket>,
                                    lookup: Lookup)
    requires SameEntries(a, b, result)
    ensures ScoreTickets(p, roundId, result, a, lookup) == ScoreTickets(p, roundId, result, b, lookup)
  {
    if |a| > 0 {
      var n := |a| - 1;
      var q := ScoreTickets(p, roundId, result, a[..n], lookup);
      SamePass(p, roundId, result, a[..n], b[..n], lookup);
      if q.Some? {
        SameTicket(q.value, roundId, result, a[n], b[n], lookup);
      }
    }
  }

  /** What the first run made of a round: scored, or left as it was. */
  ghost predicate RunOver(before: Round, after: Round) {
    after == before
    || (Counts(before) && after == before.(tickets := ScoredTickets(before.tickets, before.result.value)))
  }

  lemma RunOverEntries(before: Round, after: Round)
    requires Counts(before) && RunOver(before, after)
    ensures Counts(after) && after.result == before.result
    ensures SameEntries(before.tickets, after.tickets, before.result.value)
    ensures ScoredTickets(after.tickets, after.result.value) == ScoredTickets(before.tickets, before.result.value)
  {
    assert |ScoredTickets(before.tickets, before.result.value)| == |before.tickets|;
  }

  /** Later rounds leave a rebuilt round alone, and what is not yet rebuilt is as it was. */
  lemma {:induction false} RebuiltRound(t: Tables, n: nat, m: nat, r: nat)
    requires n <= m <= |t.rounds| && r < |t.rounds|
    ensures r < n ==> RebuildTo(t, m).0.rounds[r] == RebuildTo(t, n).0.rounds[r]
    ensures r >= m ==> RebuildTo(t, m).0.rounds[r] == t.rounds[r]
    decreases m
  {
    if n < m {
      RebuiltRound(t, n, m - 1, r);
    } else if m > 0 {
      RebuiltRound(t, n - 1, m - 1, r);
    }
  }

  /** The first run after `n` rounds, and the second run over the tables `s` the first one left. */
  ghost predicate Retraced(s: Tables, n: nat, x: (Tables, bool), y: (Tables, bool)) {
    n <= |s.rounds| == |x.0.rounds| && x.1 == y.1 && y.0 == x.0.(rounds := s.rounds)
  }

  /** A counted round once more: the same pass, and the round it writes is there already. */
  lemma RetraceRound(s: Tables, n: nat, x: Tables, y: Tables, before: Round)
    requires n < |s.rounds| == |x.rounds| && y == x.(rounds := s.rounds)
    requires Counts(before) && RunOver(before, s.rounds[n]) && Counts(s.rounds[n])
    requires s.rounds[n] == NextRound((x, true), n, before).0.rounds[n] && x.rounds[n] == before
    ensures Retraced(s, n + 1, NextRound((x, true), n, before), NextRound((y, true), n, s.rounds[n]))
  {
    RunOverEntries(before, s.rounds[n]);
    SamePass(Pass(x.users, x.histories, []), n, before.result.value, before.tickets, s.rounds[n].tickets, ByCreation);
    assert RoundPass(y, n, s.rounds[n]) == RoundPass(x, n, before);
  }

  lemma RetraceNext(s: Tables, n: nat, x: (Tables, bool), y: (Tables, bool), before: Round)
    requires n < |s.rounds| && Retraced(s, n, x, y) && RunOver(before, s.rounds[n]) && x.0.rounds[n] == before
    requires s.rounds[n] == NextRound(x, n, before).0.rounds[n]
    ensures Retraced(s, n + 1, NextRound(x, n, before), NextRound(y, n, s.rounds[n]))
  {
    if x.1 && Counts(before) {
      RunOverEntries(before, s.rounds[n]);
      RetraceRound(s, n, x.0, y.0, before);
    }
  }

  lemma RoundRunOver(x: (Tables, bool), n: nat)
    requires n < |x.0.rounds|
    ensures RunOver(x.0.rounds[n], NextRound(x, n, x.0.rounds[n]).0.rounds[n])
  {
    var round := x.0.rounds[n];
    if x.1 && Counts(round) && RoundPass(x.0, n, round).Some? {
      var rows := PassRows(Pass(x.0.users, x.0.histories, []), n, round.result.value, round.tickets, ByCreation);
    }
  }

  /** What the run makes of round `n`, it makes of it in the turn of that round. */
  lemma RunsOver(t: Tables, n: nat)
    requires n < |t.rounds|
    ensures RebuildTo(t, n).0.rounds[n] == t.rounds[n]
    ensures RebuildTo(t, |t.rounds|).0.rounds[n] == NextRound(RebuildTo(t, n), n, t.rounds[n]).0.rounds[n]
    ensures RunOver(t.rounds[n], RebuildTo(t, |t.rounds|).0.rounds[n])
  {
    RebuiltRound(t, n, n, n);
    RebuiltRound(t, n + 1, |t.rounds|, n);
    RoundRunOver(RebuildTo(t, n), n);
  }

  /** The second run, over the rounds the first run left, goes through the same tables. */
  lemma {:induction false} Retrace(start: Tables, s: Tables, n: nat)
    requires n <= |start.rounds| == |s.rounds| && s == RebuildTo(start, |start.rounds|).0
    ensures Retraced(s, n, RebuildTo(start, n), RebuildTo(start.(rounds := s.rounds), n))
  {
    if n > 0 {
      Retrace(start, s, n - 1);
      RunsOver(start, n - 1);
      RetraceNext(s, n - 1, RebuildTo(start, n - 1), RebuildTo(start.(rounds := s.rounds), n - 1), start.rounds[n - 1]);
    }
  }

  /** Both runs start from the same tables but for the scores stored in tickets. */
  lemma ClearedAlike(t: Tables, s: Tables)
    requires s == RebuildTo(Clear(t), |t.rounds|).0
    ensures Clear(s) == Clear(t).(rounds := s.rounds)
    ensures AnyCounts(t.rounds) ==> AnyCounts(s.rounds)
  {
    RebuildKeepsInputs(t, |t.rounds|);
    RebuiltRowsDropped(t, |t.rounds|, s);
    KeptByCounts(s.histories, s.rounds, t.rounds);
    if AnyCounts(t.rounds) {
      var k :| 0 <= k < |t.rounds| && Counts(t.rounds[k]);
      assert Counts(s.rounds[k]);
    }
  }

  /**
   Running the job twice is running it once, from whatever tables: leftover or duplicate history
   rows, wrong totals, malformed tickets, and a first run that broke off half way included.
   */
  lemma RecomputeIdempotent(t: Tables)
    ensures Step(Step(t).0) == Step(t)
  {
    if AnyCounts(t.rounds) {
      var first := RebuildTo(Clear(t), |t.rounds|);
      ClearedAlike(t, first.0);
      Retrace(Clear(t), first.0, |t.rounds|);
    }
  }

  /**
   Which states the job repairs: those with a SCORED round and no history row outside SCORED
   rounds. Without a SCORED round it returns early, and a wrong total stays wrong.
   */
  lemma RecomputeRepairsExactly(t: Tables)
    requires InputsSound(t)
    ensures Sound(Step(t).0) <==> if AnyCounts(t.rounds) then Kept(t.histories, t.rounds) == [] else Sound(t)
  {
    if AnyCounts(t.rounds) {
      if Kept(t.histories, t.rounds) == [] {
        RecomputeIsReplay(t);
      } else {
        RebuildKeepsInputs(t, |t.rounds|);
        var s := Step(t).0;
        var h := Kept(t.histories, t.rounds)[0];
        KeptExactly(t.histories, t.rounds, h);
        assert s.histories[0] == h;
        assert !RowBacked(s.histories[0], s.rounds, s.users.Keys);
      }
    }
  }

  lemma SameScoredRound(a: Round, b: Round, users: set<UserId>)
    requires RoundSound(a, users) && RoundSound(b, users)
    requires Unscored(a) == Unscored(b) && Counts(a) == Counts(b)
    ensures a == b
  {
    if Counts(a) {
      assert |a.tickets| == |Unscored(a).tickets| == |b.tickets|;
      forall i | 0 <= i < |a.tickets| ensures a.tickets[i] == b.tickets[i] {
        assert Unscored(a).tickets[i] == Unscored(b).tickets[i];
        assert a.tickets[i] == ScoredTicket(a.tickets[i], a.result.value);
        assert b.tickets[i] == ScoredTicket(b.tickets[i], b.result.value);
      }
    }
  }

  lemma ZeroedKeys(a: map<UserId, User>, b: map<UserId, User>)
    requires Zeroed(a) == Zeroed(b)
    ensures a.Keys == b.Keys
  {
    assert a.Keys == Zeroed(a).Keys == Zeroed(b).Keys == b.Keys;
  }

  lemma SameRounds(t: Tables, s: Tables)
    requires Sound(t) && Sound(s) && KeepsInputs(t, |t.rounds|, s)
    ensures s.users.Keys == t.users.Keys && s.rounds == t.rounds
  {
    ZeroedKeys(s.users, t.users);
    forall r | 0 <= r < |t.rounds| ensures s.rounds[r] == t.rounds[r] {
      assert RoundSound(s.rounds[r], s.users.Keys) && RoundSound(t.rounds[r], t.users.Keys);
      SameScoredRound(s.rounds[r], t.rounds[r], t.users.Keys);
    }
  }

  lemma SameUsers(a: map<UserId, User>, b: map<UserId, User>, rounds: seq<Round>)
    requires forall u | u in a :: a[u].scoreTotal == RoundsPoints(rounds, u)
    requires forall u | u in b :: b[u].scoreTotal == RoundsPoints(rounds, u)
    requires a.Keys == b.Keys && Zeroed(a) == Zeroed(b)
    ensures a == b
  {
    forall u | u in a ensures a[u] == b[u] {
      assert Zeroed(a)[u] == Zeroed(b)[u];
    }
  }

  /** On a sound ledger, however its rounds were ordered, the job changes no total and no ticket. */
  lemma RecomputeKeepsSoundTotals(t: Tables)
    requires Sound(t)
    ensures Step(t).0.users == t.users && Step(t).0.rounds == t.rounds
    ensures Step(t).1 && Sound(Step(t).0)
  {
    if AnyCounts(t.rounds) {
      SoundInputs(t);
      RecomputeIsReplay(t);
      RebuildKeepsInputs(t, |t.rounds|);
      SameRounds(t, Step(t).0);
      SameUsers(Step(t).0.users, t.users, t.rounds);
    }
  }

  lemma StepKeepsRounds(t: Tables)
    requires Sound(t)
    ensures Step(t).0.rounds == t.rounds
  {
    RecomputeKeepsSoundTotals(t);
  }

  /** The job touches no free benefit and no inventory. */
  lemma StepKeepsBenefits(t: Tables)
    ensures Step(t).0.freeBenefits == t.freeBenefits && Step(t).0.inventory == t.inventory
  {
    RebuildKeepsInputs(t, |t.rounds|);
  }
}
