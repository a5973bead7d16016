/**
 Paid Mesas at one coin, filled by real entries, whose close the ledger refuses because a prize
 comes out at zero coins (src/services/bolao/settle-bolao.service.ts:55-74).
 */
module SmallMesas {
  import opened Common
  import opened BolaoPrize
  import opened PrizeFairness
  import opened RankingTiebreak
  import opened RankingWindowScore
  import opened TieGroups
  import opened MoneyTables
  import opened MesaIntegrity
  import opened MesaEntry
  import opened MesaClose
  import opened MesaInvariant
  import opened MesaSettlement
  import opened MoneyRuns
  import GameTables

  const LIMIT := 100

  /** Accounts 0 to `n`, opened one after another, and no round played. */
  function Players(n: nat): GameTables.Tables {
    GameTables.EMPTY.(users := map u: nat | u <= n :: GameTables.User(u, 0))
  }

  function Offer(bands: seq<PrizeDistributionItem>): Proposal {
    Proposal("Mesa", "one coin each", 0, 10, Some(Paid), Some(1), None, None, LIMIT, bands)
  }

  /** A subscription, a coin, and the coin spent on the entry. */
  function Seat(g: GameTables.Tables, u: UserId): seq<Event> {
    [Event(Move(SyncSubscription(u, Subscription(SubActive, Monthly, 0, None))), 1, g),
     Event(Move(Adjust(u, Credit, 1)), 1, g),
     Event(Enter(JoinMesa(0, u)), 1, g)]
  }

  /** Account 0 opens Mesa 0, and accounts 1 to `n` join it. */
  function Fill(g: GameTables.Tables, bands: seq<PrizeDistributionItem>, n: nat): seq<Event> {
    if n == 0 then [Event(Manage(CreateMesa(0, Offer(bands), 0)), 1, g)] else Fill(g, bands, n - 1) + Seat(g, n)
  }

  // ---------- the Mesa once it is filled ----------

  function Seats(n: nat): (ps: seq<Participant>)
    ensures |ps| == n
  {
    if n == 0 then [] else Seats(n - 1) + [Participant(n, Approved, 0, 0, None, 0, 0, 1, Some(1))]
  }

  /** A Mesa as the offer opens it. */
  ghost predicate Opened(m: Mesa, bands: seq<PrizeDistributionItem>) {
    && m.status == Active && m.startDate == Some(0) && m.endDate == Some(10) && m.settledAt == None
    && m.category == Paid && m.entryFee == 1 && m.accessCost == Some(1) && m.maxParticipants == Some(LIMIT)
    && m.currentParticipants == 0 && m.participants == [] && m.createdByUserId == 0
    && m.prizeDistribution == bands && m.grossCollected == m.platformFee == m.prizePool == 0 && m.rewardPool == Some(0)
  }

  function Filled(m: Mesa, n: nat): Mesa {
    var totals := CalculatePool(n);
    m.(currentParticipants := n, participants := Seats(n), grossCollected := totals.grossCollected,
       platformFee := totals.platformFee, prizePool := totals.prizePool, rewardPool := Some(totals.prizePool))
  }

  /** Nobody above `n` has a wallet, a subscription or a ledger row. */
  ghost predicate Fresh(money: Money, n: nat) {
    && (forall u | u in money.bank.wallets :: u <= n)
    && (forall k | 0 <= k < |money.bank.ledger| :: money.bank.ledger[k].userId <= n)
  }

  ghost predicate FilledUp(money: Money, m: Mesa, n: nat) {
    0 in money.mesas && money.mesas[0] == Filled(m, n) && Fresh(money, n)
  }

  lemma {:induction false} SeatedBelow(n: nat)
    ensures forall k | 0 <= k < n :: Seats(n)[k] == Participant(k + 1, Approved, 0, 0, None, 0, 0, 1, Some(1))
  {
    if n > 0 {
      SeatedBelow(n - 1);
    }
  }

  lemma {:induction false} RunAppend(money: Money, a: seq<Event>, b: seq<Event>)
    ensures Run(money, a + b) == Run(Run(money, a), b)
  {
    if |b| == 0 {
      assert a + b == a;
    } else {
      assert (a + b)[..|a + b| - 1] == a + b[..|b| - 1];
      RunAppend(money, a, b[..|b| - 1]);
    }
  }

  lemma RunThree(money: Money, a: Event, b: Event, c: Event)
    ensures Run(money, [a, b, c]) == Apply(Apply(Apply(money, a), b), c)
  {
    assert [a, b, c][..2] == [a, b] && [a, b][..1] == [a] && [a][..0] == [];
    assert Run(money, []) == money;
    assert Run(money, [a]) == Apply(money, a);
    assert Run(money, [a, b]) == Apply(Apply(money, a), b);
  }

  lemma OfferAccepted(bands: seq<PrizeDistributionItem>)
    ensures Trim(Offer(bands).name) == "Mesa" && Trim(Offer(bands).description) == "one coin each"
  {
  }

  lemma OfferTaken(g: GameTables.Tables, bands: seq<PrizeDistributionItem>, m: Mesa)
    requires ValidDistribution(bands) && 0 in g.users && m == NewMesa(Offer(bands), Terms(Paid, 1, 0, LIMIT), 0)
    ensures CreateStep(NO_MONEY, g, 0, Offer(bands), 0, 1) == Ok(NO_MONEY.(mesas := map[0 := m]))
  {
    hide Trim;
    OfferAccepted(bands);
  }

  lemma MesaOpens(g: GameTables.Tables, bands: seq<PrizeDistributionItem>) returns (m: Mesa)
    requires ValidDistribution(bands) && 0 in g.users
    ensures Opened(m, bands) && FilledUp(Run(NO_MONEY, Fill(g, bands, 0)), m, 0)
  {
    hide CreateStep, ValidDistribution;
    m := NewMesa(Offer(bands), Terms(Paid, 1, 0, LIMIT), 0);
    var e := Event(Manage(CreateMesa(0, Offer(bands), 0)), 1, g);
    assert [e][..0] == [];
    assert Run(NO_MONEY, []) == NO_MONEY;
    OfferTaken(g, bands, m);
  }

  lemma NotSeatedYet(n: nat)
    ensures IndexOf(Seats(n), n + 1) == None
  {
    SeatedBelow(n);
  }

  /** The new participant pays a coin into the pool. */
  lemma SeatAdmitted(m: Mesa, bands: seq<PrizeDistributionItem>, n: nat)
    requires Opened(m, bands)
    ensures Admitted(Filled(m, n), n + 1, 0, 1) == Filled(m, n + 1)
  {
    NotSeatedYet(n);
  }

  lemma NoRowsScored(g: GameTables.Tables, u: UserId, at: Time)
    requires g.histories == []
    ensures ScoreTotalBefore(g, u, at) == 0
  {
  }

  lemma SeatIsFree(money: Money, g: GameTables.Tables, m: Mesa, bands: seq<PrizeDistributionItem>, n: nat)
    requires Opened(m, bands) && n < LIMIT && n + 1 in g.users && 0 in money.mesas && money.mesas[0] == Filled(m, n)
    requires n + 1 in money.subscriptions && money.subscriptions[n + 1] == Subscription(SubActive, Monthly, 0, None)
    ensures JoinError(money, g, 0, n + 1, 1) == None
  {
    NotSeatedYet(n);
  }

  /** A wallet with one coin, and no entry or prize paid from it or into it. */
  ghost predicate OneCoin(b: Bank, u: UserId) {
    && u in b.wallets && b.wallets[u] == 1
    && forall k | 0 <= k < |b.ledger| && b.ledger[k].userId == u :: !Keyed(b.ledger[k].origin)
  }

  lemma CoinSpent(b: Bank, u: UserId)
    requires OneCoin(b, u)
    ensures DebitStep(b, u, 1, MoneyTables.Entry(0)) ==
            Ok(Bank(b.wallets[u := 0], b.ledger + [LedgerEntry(u, Debit, 1, MoneyTables.Entry(0))]))
  {
  }

  lemma SeatJoins(money: Money, g: GameTables.Tables, m: Mesa, bands: seq<PrizeDistributionItem>, n: nat, next: Money)
    requires Opened(m, bands) && n < LIMIT && n + 1 in g.users && g.histories == []
    requires 0 in money.mesas && money.mesas[0] == Filled(m, n) && OneCoin(money.bank, n + 1)
    requires n + 1 in money.subscriptions && money.subscriptions[n + 1] == Subscription(SubActive, Monthly, 0, None)
    requires next == Committed(money, JoinStep(money, g, 0, n + 1, 1))
    ensures next.mesas == money.mesas[0 := Filled(m, n + 1)]
    ensures next.bank == Bank(money.bank.wallets[n + 1 := 0],
              money.bank.ledger + [LedgerEntry(n + 1, Debit, 1, MoneyTables.Entry(0))])
  {
    SeatIsFree(money, g, m, bands, n);
    CoinSpent(money.bank, n + 1);
    NoRowsScored(g, n + 1, 0);
    SeatAdmitted(m, bands, n);
  }

  lemma Funded(money: Money, g: GameTables.Tables, n: nat, funded: Money)
    requires Fresh(money, n) && funded == Apply(Apply(money, Seat(g, n + 1)[0]), Seat(g, n + 1)[1])
    ensures funded.mesas == money.mesas && OneCoin(funded.bank, n + 1) && Fresh(funded, n + 1)
    ensures n + 1 in funded.subscriptions && funded.subscriptions[n + 1] == Subscription(SubActive, Monthly, 0, None)
  {
  }

  lemma SeatTaken(money: Money, g: GameTables.Tables, m: Mesa, bands: seq<PrizeDistributionItem>, n: nat)
    requires FilledUp(money, m, n) && Opened(m, bands) && n < LIMIT && n + 1 in g.users && g.histories == []
    ensures FilledUp(Run(money, Seat(g, n + 1)), m, n + 1)
  {
    hide JoinStep, OneCoin, Filled;
    var es := Seat(g, n + 1);
    RunThree(money, es[0], es[1], es[2]);
    var funded := Apply(Apply(money, es[0]), es[1]);
    Funded(money, g, n, funded);
    SeatJoins(funded, g, m, bands, n, Apply(funded, es[2]));
  }

  /** Any number of accounts can fill the Mesa, up to its limit. */
  lemma {:induction false} MesaFills(g: GameTables.Tables, bands: seq<PrizeDistributionItem>, n: nat) returns (m: Mesa)
    requires ValidDistribution(bands) && n <= LIMIT && g.histories == [] && forall u: nat | u <= n :: u in g.users
    ensures Opened(m, bands) && FilledUp(Run(NO_MONEY, Fill(g, bands, n)), m, n)
  {
    hide FilledUp, ValidDistribution, Opened, Seat;
    if n == 0 {
      m := MesaOpens(g, bands);
    } else {
      m := MesaFills(g, bands, n - 1);
      var before := Run(NO_MONEY, Fill(g, bands, n - 1));
      RunAppend(NO_MONEY, Fill(g, bands, n - 1), Seat(g, n));
      SeatTaken(before, g, m, bands, n - 1);
    }
  }

  // ---------- ten at one coin ----------

  /** Ten bands of a tenth each. */
  function Tenths(n: nat): (bands: seq<PrizeDistributionItem>)
    ensures |bands| == n
  {
    seq(n, i => PrizeDistributionItem(i + 1, 10))
  }

  lemma {:induction false} TenthsAddUp(n: nat)
    ensures SumInt(Percentages(Tenths(n))) == 10 * n
  {
    if n > 0 {
      TenthsAddUp(n - 1);
      assert Percentages(Tenths(n))[..n - 1] == Percentages(Tenths(n - 1));
    }
  }

  /** Ten entrants at one coin and ten bands: nine coins for ten winners, and the Mesa can never be closed. */
  lemma TenEntrantsNeverClose(now: Time, force: bool)
    requires force || now >= 10
    ensures var g := Players(10);
            var money := Run(NO_MONEY, Fill(g, Tenths(10), 10));
            && 0 in money.mesas && money.mesas[0].currentParticipants == 10 && money.mesas[0].prizePool == 9
            && CloseStep(money, g, 0, now, force) == Err(PrizeRefused(LedgerRefused))
  {
    hide Sound, CloseStep;
    var g := Players(10);
    TenthsAddUp(10);
    var m := MesaFills(g, Tenths(10), 10);
    var money := Run(NO_MONEY, Fill(g, Tenths(10), 10));
    ReachableSound(Fill(g, Tenths(10), 10));
    SmallPoolNeverCloses(money, g, 0, now, force);
  }

  // ---------- three at one coin ----------

  function NoScore(u: UserId): WindowRow { WindowRow(u, 0, 0, 0, 0, 0, 0, u) }

  /** Without a round played the accounts rank by age. */
  function ByAge(n: nat): (rows: seq<WindowRow>)
    ensures |rows| == n
  {
    if n == 0 then [] else ByAge(n - 1) + [NoScore(n)]
  }

  function Podium(n: nat): (rows: seq<PrizeRow>)
    ensures |rows| == n
  {
    if n == 0 then [] else Podium(n - 1) + [PrizeRow(n, n)]
  }

  lemma {:induction false} SeatsEnter(n: nat)
    ensures |Entrants(Seats(n))| == n
    ensures forall k | 0 <= k < n :: Entrants(Seats(n))[k] == Entrant(k + 1, 0)
  {
    if n > 0 {
      SeatsEnter(n - 1);
      assert Seats(n)[..n - 1] == Seats(n - 1);
    }
  }

  lemma {:induction false} AgeRows(n: nat)
    ensures forall k | 0 <= k < n :: ByAge(n)[k] == NoScore(k + 1)
  {
    if n > 0 {
      AgeRows(n - 1);
    }
  }

  lemma {:induction false} AgeIsSorted(n: nat)
    ensures SortRows(ByAge(n), RowMetrics) == ByAge(n)
  {
    if n > 0 {
      AgeIsSorted(n - 1);
      AgeRows(n - 1);
      assert ByAge(n)[..n - 1] == ByAge(n - 1);
    }
  }

  lemma {:induction false} AgePositions(n: nat)
    ensures PrizeRows(Positions(ByAge(n), RowMetrics), RowUser) == Podium(n)
    ensures forall k | 0 <= k < n :: Positions(ByAge(n), RowMetrics)[k].position == k + 1
  {
    if n > 0 {
      AgePositions(n - 1);
      AgeRows(n);
      assert ByAge(n)[..n - 1] == ByAge(n - 1);
      var before := Positions(ByAge(n - 1), RowMetrics);
      assert Positions(ByAge(n), RowMetrics) == before + [Ranked(NoScore(n), n)];
      PrizeRowsAppend(before, Ranked(NoScore(n), n));
    }
  }

  lemma PrizeRowsAppend(before: seq<Ranked<WindowRow>>, r: Ranked<WindowRow>)
    ensures PrizeRows(before + [r], RowUser) == PrizeRows(before, RowUser) + [PrizeRow(r.row.userId, r.position)]
  {
    var all := before + [r];
    assert forall i | 0 <= i < |before| :: all[i] == before[i];
    assert PrizeRows(all, RowUser)[|before|] == PrizeRow(RowUser(r.row), r.position);
    assert forall i | 0 <= i < |before| :: PrizeRows(all, RowUser)[i] == PrizeRows(before, RowUser)[i];
  }

  lemma UnscoredRow(g: GameTables.Tables, w: Window, u: UserId, now: Time)
    requires g.histories == [] && u in g.users && g.users[u] == GameTables.User(u, 0)
    ensures WindowRowOf(g, w, Entrant(u, 0), now) == NoScore(u)
  {
  }

  lemma SeatsRank(g: GameTables.Tables, m: Mesa, bands: seq<PrizeDistributionItem>, n: nat, now: Time)
    requires Opened(m, bands) && g.histories == []
    requires forall u: nat | u <= n :: u in g.users && g.users[u] == GameTables.User(u, 0)
    ensures PrizeRows(RowsOf(Filled(m, n), g, now), RowUser) == Podium(n)
  {
    var w := Window(Some(0), Some(10));
    SeatsEnter(n);
    AgeRows(n);
    forall k | 0 <= k < n ensures WindowRows(g, w, Entrants(Seats(n)), now)[k] == ByAge(n)[k] {
      UnscoredRow(g, w, k + 1, now);
    }
    assert WindowRows(g, w, Entrants(Seats(n)), now) == ByAge(n);
    AgeIsSorted(n);
    AgePositions(n);
  }

  /** The positions of a podium, and who stands on each. */
  function UpTo(n: nat): (ps: seq<int>)
    ensures |ps| == n
  {
    if n == 0 then [] else UpTo(n - 1) + [n]
  }

  lemma {:induction false} PodiumPositions(n: nat)
    ensures FirstPositions(Podium(n)) == UpTo(n)
    ensures forall p :: p in UpTo(n) <==> 1 <= p <= n
  {
    if n > 0 {
      PodiumPositions(n - 1);
      assert Podium(n)[..n - 1] == Podium(n - 1);
    }
  }

  lemma {:induction false} AloneOnPodium(n: nat, p: int)
    ensures TiedRows(Podium(n), p) == if 1 <= p <= n then [PrizeRow(p, p)] else []
  {
    if n > 0 {
      AloneOnPodium(n - 1, p);
      assert Podium(n)[..n - 1] == Podium(n - 1);
    }
  }

  function Shares(bands: seq<PrizeDistributionItem>, n: nat): (w: seq<real>)
    requires n <= |bands|
    ensures |w| == n
  {
    if n == 0 then [] else Shares(bands, n - 1) + [bands[n - 1].percentage as real]
  }

  lemma OneOnPodium(bands: seq<PrizeDistributionItem>, k: nat)
    requires 0 < k <= |bands| && bands[k - 1].percentage > 0
    ensures WeightedGroup(bands, [PrizeRow(k, k)], k) == [WeightedRow(k, k, bands[k - 1].percentage as real)]
  {
    assert PercentageSum(bands, k, 0) == 0;
    assert PercentageSum(bands, k, 1) == bands[k - 1].percentage;
    assert bands[k - 1].percentage as real / 1.0 == bands[k - 1].percentage as real;
  }

  lemma OneMoreWeight(before: seq<WeightedRow>, row: WeightedRow)
    ensures Weights(before + [row]) == Weights(before) + [row.weight]
  {
  }

  /** Each place of a podium without ties weighs its own band. */
  lemma {:induction false} PodiumWeights(bands: seq<PrizeDistributionItem>, n: nat, k: nat)
    requires ValidDistribution(bands) && k <= n && k <= |bands|
    ensures Weights(WeightedGroups(bands, Podium(n), UpTo(k))) == Shares(bands, k)
  {
    hide Weights, PercentageSum, TiedRows, Podium, WeightedGroup;
    if k > 0 {
      PodiumWeights(bands, n, k - 1);
      assert UpTo(k)[..k - 1] == UpTo(k - 1);
      AloneOnPodium(n, k);
      OneOnPodium(bands, k);
      OneMoreWeight(WeightedGroups(bands, Podium(n), UpTo(k - 1)), WeightedRow(k, k, bands[k - 1].percentage as real));
    }
  }

  function Bands(): seq<PrizeDistributionItem> {
    [PrizeDistributionItem(1, 60), PrizeDistributionItem(2, 30), PrizeDistributionItem(3, 10)]
  }

  lemma BandsAddUp()
    ensures ValidDistribution(Bands())
  {
    var p := Percentages(Bands());
    assert p == [60, 30, 10] && p[..2] == [60, 30] && [60, 30][..1] == [60] && [60][..0] == [];
  }

  lemma ThreeWeights()
    ensures Weights(WeightedRows(Bands(), Podium(3))) == [60.0, 30.0, 10.0]
  {
    BandsAddUp();
    PodiumPositions(3);
    PodiumWeights(Bands(), 3, 3);
    assert Shares(Bands(), 1) == [60.0] && Shares(Bands(), 2) == [60.0, 30.0];
    assert Shares(Bands(), 3) == [60.0, 30.0] + [10.0];
  }

  lemma HundredShared(w: seq<real>)
    requires w == [60.0, 30.0, 10.0]
    ensures SumReal(w) == 100.0 && ExactShares(3, w) == [1.8, 0.9, 0.3]
  {
    assert w[..2] == [60.0, 30.0] && [60.0, 30.0][..1] == [60.0] && [60.0][..0] == [];
  }

  /** A podium of three under bands of 60, 30 and 10: exact shares of three coins are 1.8, 0.9 and 0.3. */
  lemma ThreeShares()
    ensures ValidDistribution(Bands())
    ensures var w := Weights(WeightedRows(Bands(), Podium(3)));
            SumReal(w) > 0.0 && ExactShares(3, w) == [1.8, 0.9, 0.3]
  {
    BandsAddUp();
    ThreeWeights();
    HundredShared(Weights(WeightedRows(Bands(), Podium(3))));
  }

  /** The rule pays 2, 1 and 0, and no other way. */
  lemma ThreeAmounts(a: seq<int>)
    requires LargestRemainder([1.8, 0.9, 0.3], 3, a)
    ensures a == [2, 1, 0]
  {
    var x, b := [1.8, 0.9, 0.3], [2, 1, 0];
    assert b[..2] == [2, 1] && [2, 1][..1] == [2] && [2][..0] == [];
    assert x[0].Floor == 1 && x[1].Floor == 0 && x[2].Floor == 0;
    assert LargestRemainder(x, 3, b);
    PayoutUnique(x, 3, a, b);
  }

  lemma ThreePayouts(payouts: seq<Payout>)
    requires ValidDistribution(Bands()) && IsPayout(3, Bands(), Podium(3), payouts)
    ensures Amounts(payouts) == [2, 1, 0]
  {
    ThreeShares();
    ThreeAmounts(Amounts(payouts));
  }

  lemma ThreeCoins(m: Mesa)
    requires Opened(m, Bands())
    ensures Filled(m, 3).prizeDistribution == Bands() && Filled(m, 3).category == Paid
    ensures ExpectedTotals(Filled(m, 3)).prizePool == 3
  {
  }

  lemma ThreeRanked(g: GameTables.Tables, m: Mesa, now: Time)
    requires Opened(m, Bands()) && g == Players(3)
    ensures PrizeRows(RowsOf(Filled(m, 3), g, now), RowUser) == Podium(3)
  {
    hide Opened, RowsOf, Podium;
    SeatsRank(g, m, Bands(), 3, now);
  }

  lemma SettlementIsPayout(m: Mesa, rows: seq<Ranked<WindowRow>>)
    requires ValidDistribution(m.prizeDistribution)
    ensures IsPayout(ExpectedTotals(m).prizePool, m.prizeDistribution, PrizeRows(rows, RowUser),
              SettlementPayouts(m, rows))
  {
    hide IsPayout, ValidDistribution;
  }

  lemma ThreeWinners(money: Money, g: GameTables.Tables, m: Mesa, now: Time)
    requires Sound(money) && Opened(m, Bands()) && 0 in money.mesas && money.mesas[0] == Filled(m, 3) && g == Players(3)
    ensures ValidDistribution(money.mesas[0].prizeDistribution)
    ensures Amounts(Winners(money, g, 0, now)) == [2, 1, 0]
  {
    hide *;
    var rows := RowsOf(money.mesas[0], g, now);
    BandsAddUp();
    ThreeCoins(m);
    ThreeRanked(g, m, now);
    PaidWinners(money, g, 0, now, money.mesas[0], rows);
    SettlementIsPayout(money.mesas[0], rows);
    ThreePayouts(Winners(money, g, 0, now));
  }

  /**
   Three entrants at one coin and bands of 60, 30 and 10: three coins for three winners come out at
   2, 1 and 0, and the Mesa can never be closed.
   */
  lemma ThreeEntrantsNeverClose(now: Time, force: bool)
    requires force || now >= 10
    ensures var g := Players(3);
            var money := Run(NO_MONEY, Fill(g, Bands(), 3));
            && 0 in money.mesas && money.mesas[0].currentParticipants == 3 && money.mesas[0].prizePool == 3
            && ValidDistribution(money.mesas[0].prizeDistribution)
            && Amounts(Winners(money, g, 0, now)) == [2, 1, 0]
            && CloseStep(money, g, 0, now, force) == Err(PrizeRefused(LedgerRefused))
  {
    hide Sound, CloseStep, Winners;
    var g, events := Players(3), Fill(Players(3), Bands(), 3);
    BandsAddUp();
    var m := MesaFills(g, Bands(), 3);
    var money := Run(NO_MONEY, events);
    ReachableSound(events);
    ThreeWinners(money, g, m, now);
    ThreeRefused(money, g, now, force);
  }

  lemma ThreeRefused(money: Money, g: GameTables.Tables, now: Time, force: bool)
    requires Sound(money) && 0 in money.mesas && money.mesas[0].status != Closed
    requires force || (money.mesas[0].endDate.Some? && money.mesas[0].endDate.value <= now)
    requires ValidDistribution(money.mesas[0].prizeDistribution) && Amounts(Winners(money, g, 0, now)) == [2, 1, 0]
    ensures CloseStep(money, g, 0, now, force) == Err(PrizeRefused(LedgerRefused))
  {
    CloseCommitsExactly(money, g, 0, now, force);
    assert Winners(money, g, 0, now)[2].amount == Amounts(Winners(money, g, 0, now))[2];
  }
}
