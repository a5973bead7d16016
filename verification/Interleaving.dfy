/**
 The guarded updates under concurrency. Transactions read whatever they read, possibly stale, and
 then issue updates whose condition the database checks on the current row, which stays locked until
 the transaction ends: seats (src/services/bolao/join-bolao.service.ts:108-121), invite uses
 (src/services/bolao/bolao-invite-reservation.ts:19-29), balances
 (src/services/wallet/wallet.service.ts:110-113), benefits
 (src/services/benefits/consume-benefits.service.ts). Any steps may interleave, any transaction may roll back.
 */
module Interleaving {
  import opened Common
  import GameTables
  import MoneyTables
  import MesaIntegrity
  import MesaEntry
  import Benefits
  import BenefitRuns
  import Rounds

  type Tx = nat

  datatype Key =
    | Balance(user: UserId)
    | Seats(mesa: MoneyTables.MesaId)
    | Uses(code: MoneyTables.InviteCode)
    | FreeUnits(user: UserId, roundId: nat, benefit: GameTables.BenefitType)
    | Inventory(user: UserId, benefit: GameTables.BenefitType)

  datatype Op =
    | IncrementBelow(limit: Option<int>)
    | DecrementIfAtLeast(amount: nat)
    | Add(amount: nat)
    | Zero

  /** The condition of an update, on the current value of its row. */
  predicate Matches(op: Op, value: int) {
    match op
    case IncrementBelow(limit) => limit.None? || value < limit.value
    case DecrementIfAtLeast(amount) => value >= amount
    case Add(_) => true
    case Zero => true
  }

  /** What an update does to the current value of its row. */
  function Delta(op: Op, value: int): int {
    match op
    case IncrementBelow(_) => 1
    case DecrementIfAtLeast(amount) => -(amount as int)
    case Add(amount) => amount
    case Zero => -value
  }

  /** What the services issue on each row; limits do not change. */
  predicate Issued(key: Key, op: Op, limits: map<Key, int>) {
    match key
    case Balance(_) => op.DecrementIfAtLeast? || op.Add?
    case Seats(_) => op.IncrementBelow? && key in limits && op.limit == Some(limits[key])
    case Uses(_) => op.IncrementBelow? && op.limit == (if key in limits then Some(limits[key]) else None)
    case FreeUnits(_, _, _) => op.DecrementIfAtLeast? || op.Add? || op.Zero?
    case Inventory(_, _) => op.DecrementIfAtLeast? || op.Add?
  }

  datatype Applied = Applied(tx: Tx, key: Key, delta: int)

  /** Committed and current values; rows changed and not yet committed, with their transaction. */
  datatype State = State(
    committed: map<Key, int>, current: map<Key, int>, locks: map<Key, Tx>,
    applied: seq<Applied>, kept: set<Tx>, undone: set<Tx>)

  datatype Step = Update(tx: Tx, key: Key, op: Op) | Commit(tx: Tx) | Abort(tx: Tx)

  function Value(values: map<Key, int>, key: Key): int {
    if key in values then values[key] else 0
  }

  predicate Live(s: State, tx: Tx) { tx !in s.kept && tx !in s.undone }

  /** An update waits for another's lock, and changes nothing where its condition fails. */
  function UpdateStep(s: State, tx: Tx, key: Key, op: Op): State {
    if !Live(s, tx) || (key in s.locks && s.locks[key] != tx) || !Matches(op, Value(s.current, key)) then s
    else s.(current := s.current[key := Value(s.current, key) + Delta(op, Value(s.current, key))],
      locks := s.locks[key := tx],
            applied := s.applied + [Applied(tx, key, Delta(op, Value(s.current, key)))])
  }

  function Unlocked(s: State, tx: Tx): map<Key, Tx> {
    map k | k in s.locks && s.locks[k] != tx :: s.locks[k]
  }

  function CommitStep(s: State, tx: Tx): State {
    if !Live(s, tx) then s
    else s.(committed := map k | k in s.committed.Keys + s.locks.Keys ::
                           if k in s.locks && s.locks[k] == tx then Value(s.current, k) else Value(s.committed, k),
            locks := Unlocked(s, tx), kept := s.kept + {tx})
  }

  function AbortStep(s: State, tx: Tx): State {
    if !Live(s, tx) then s
    else s.(current := map k | k in s.current.Keys + s.locks.Keys ::
                         if k in s.locks && s.locks[k] == tx then Value(s.committed, k) else Value(s.current, k),
            locks := Unlocked(s, tx), undone := s.undone + {tx})
  }

  function Next(s: State, step: Step): State {
    match step
    case Update(tx, key, op) => UpdateStep(s, tx, key, op)
    case Commit(tx) => CommitStep(s, tx)
    case Abort(tx) => AbortStep(s, tx)
  }

  function Run(s: State, steps: seq<Step>): State {
    if |steps| == 0 then s else Next(Run(s, steps[..|steps| - 1]), steps[|steps| - 1])
  }

  function Start(values: map<Key, int>): State { State(values, values, map[], [], {}, {}) }

  ghost predicate AllIssued(steps: seq<Step>, limits: map<Key, int>) {
    forall k | 0 <= k < |steps| && steps[k].Update? :: Issued(steps[k].key, steps[k].op, limits)
  }

  // ---------- bounds ----------

  predicate InBounds(key: Key, value: int, limits: map<Key, int>) {
    0 <= value && (key.Seats? || key.Uses? ==> key in limits ==> value <= limits[key])
  }

  ghost predicate Bounded(values: map<Key, int>, limits: map<Key, int>) {
    forall k: Key :: InBounds(k, Value(values, k), limits)
  }

  lemma NextBounded(s: State, step: Step, limits: map<Key, int>)
    requires Bounded(s.committed, limits) && Bounded(s.current, limits)
    requires step.Update? ==> Issued(step.key, step.op, limits)
    ensures Bounded(Next(s, step).committed, limits) && Bounded(Next(s, step).current, limits)
  {
    var n := Next(s, step);
    forall k: Key ensures InBounds(k, Value(n.committed, k), limits) && InBounds(k, Value(n.current, k), limits) {
      assert InBounds(k, Value(s.committed, k), limits) && InBounds(k, Value(s.current, k), limits);
    }
  }

  /**
   No interleaving of stale reads, guarded updates, commits and rollbacks takes a balance or counter
   below zero, seats above the capacity, or uses above the limit.
   */
  lemma {:induction false} StaysBounded(values: map<Key, int>, steps: seq<Step>, limits: map<Key, int>)
    requires Bounded(values, limits) && AllIssued(steps, limits)
    ensures Bounded(Run(Start(values), steps).committed, limits) && Bounded(Run(Start(values), steps).current, limits)
  {
    if |steps| > 0 {
      var n := |steps| - 1;
      StaysBounded(values, steps[..n], limits);
      NextBounded(Run(Start(values), steps[..n]), steps[n], limits);
    }
  }

  // ---------- no lost update ----------

  /** What some transactions did to a row. */
  function Sum(applied: seq<Applied>, key: Key, txs: set<Tx>): int {
    if |applied| == 0 then 0
    else
      var a := applied[|applied| - 1];
      Sum(applied[..|applied| - 1], key, txs) + (if a.key == key && a.tx in txs then a.delta else 0)
  }

  lemma {:induction false} SumJoins(applied: seq<Applied>, key: Key, txs: set<Tx>, tx: Tx)
    requires tx !in txs
    ensures Sum(applied, key, txs + {tx}) == Sum(applied, key, txs) + Sum(applied, key, {tx})
  {
    if |applied| > 0 {
      SumJoins(applied[..|applied| - 1], key, txs, tx);
    }
  }

  lemma {:induction false} SumNothing(applied: seq<Applied>, key: Key, txs: set<Tx>)
    requires forall k | 0 <= k < |applied| :: applied[k].key == key ==> applied[k].tx !in txs
    ensures Sum(applied, key, txs) == 0
  {
    if |applied| > 0 {
      SumNothing(applied[..|applied| - 1], key, txs);
    }
  }

  lemma SumAppend(applied: seq<Applied>, a: Applied, key: Key, txs: set<Tx>)
    ensures Sum(applied + [a], key, txs) ==
              Sum(applied, key, txs) + (if a.key == key && a.tx in txs then a.delta else 0)
  {
    assert (applied + [a])[..|applied|] == applied;
  }

  /** A row changed by a live transaction is locked by it. */
  ghost predicate LocksHeld(s: State) {
    && (forall k | 0 <= k < |s.applied| && Live(s, s.applied[k].tx) ::
          s.applied[k].key in s.locks && s.locks[s.applied[k].key] == s.applied[k].tx)
    && (forall key | key in s.locks :: Live(s, s.locks[key]))
    && s.kept !! s.undone
  }

  /**
   The committed value is the first one and all that kept transactions did; the current one adds the
   lock holder's.
   */
  ghost predicate RowExact(values: map<Key, int>, s: State, key: Key) {
    && Value(s.committed, key) == Value(values, key) + Sum(s.applied, key, s.kept)
    && Value(s.current, key) == Value(s.committed, key)
      + (if key in s.locks then Sum(s.applied, key, {s.locks[key]}) else 0)
  }

  ghost predicate Exact(values: map<Key, int>, s: State) {
    LocksHeld(s) && forall key: Key :: RowExact(values, s, key)
  }

  lemma UpdateLocks(s: State, tx: Tx, key: Key, op: Op)
    requires LocksHeld(s)
    ensures LocksHeld(UpdateStep(s, tx, key, op))
  {
  }

  /** A row the update is not about. */
  lemma OtherRow(values: map<Key, int>, s: State, n: State, a: Applied, k: Key)
    requires RowExact(values, s, k) && a.key != k && n.applied == s.applied + [a] && n.kept == s.kept
    requires n.committed == s.committed && Value(n.current, k) == Value(s.current, k)
    requires (k in n.locks <==> k in s.locks) && (k in s.locks ==> n.locks[k] == s.locks[k])
    ensures RowExact(values, n, k)
  {
    SumAppend(s.applied, a, k, s.kept);
    if k in n.locks {
      SumAppend(s.applied, a, k, {n.locks[k]});
    }
  }

  /** The row the update writes, which its transaction holds from now on. */
  lemma WrittenRow(values: map<Key, int>, s: State, n: State, a: Applied)
    requires RowExact(values, s, a.key) && a.tx !in s.kept && n.applied == s.applied + [a] && n.kept == s.kept
    requires n.committed == s.committed && Value(n.current, a.key) == Value(s.current, a.key) + a.delta
    requires a.key in n.locks && n.locks[a.key] == a.tx
    requires if a.key in s.locks then s.locks[a.key] == a.tx else Sum(s.applied, a.key, {a.tx}) == 0
    ensures RowExact(values, n, a.key)
  {
    SumAppend(s.applied, a, a.key, s.kept);
    SumAppend(s.applied, a, a.key, {a.tx});
  }

  lemma UpdateRow(values: map<Key, int>, s: State, tx: Tx, key: Key, op: Op, k: Key)
    requires LocksHeld(s) && RowExact(values, s, k)
    ensures RowExact(values, UpdateStep(s, tx, key, op), k)
  {
    var n := UpdateStep(s, tx, key, op);
    if n != s {
      var a := Applied(tx, key, Delta(op, Value(s.current, key)));
      if k == key {
        if key !in s.locks {
          SumNothing(s.applied, k, {tx});
        }
        WrittenRow(values, s, n, a);
      } else {
        OtherRow(values, s, n, a, k);
      }
    }
  }

  lemma EndLocks(s: State, tx: Tx)
    requires LocksHeld(s)
    ensures LocksHeld(CommitStep(s, tx)) && LocksHeld(AbortStep(s, tx))
  {
  }

  lemma CommitRow(values: map<Key, int>, s: State, tx: Tx, k: Key)
    requires LocksHeld(s) && RowExact(values, s, k) && Live(s, tx)
    ensures RowExact(values, CommitStep(s, tx), k)
  {
    SumJoins(s.applied, k, s.kept, tx);
    if !(k in s.locks && s.locks[k] == tx) {
      SumNothing(s.applied, k, {tx});
    }
  }

  lemma AbortRow(values: map<Key, int>, s: State, tx: Tx, k: Key)
    requires LocksHeld(s) && RowExact(values, s, k) && Live(s, tx)
    ensures RowExact(values, AbortStep(s, tx), k)
  {
  }

  lemma NextExact(values: map<Key, int>, s: State, step: Step)
    requires Exact(values, s)
    ensures Exact(values, Next(s, step))
  {
    match step
    case Update(tx, key, op) =>
      UpdateLocks(s, tx, key, op);
      forall k: Key ensures RowExact(values, Next(s, step), k) {
        UpdateRow(values, s, tx, key, op, k);
      }
    case Commit(tx) =>
      EndLocks(s, tx);
      if Live(s, tx) {
        forall k: Key ensures RowExact(values, Next(s, step), k) {
          CommitRow(values, s, tx, k);
        }
      }
    case Abort(tx) =>
      EndLocks(s, tx);
      if Live(s, tx) {
        forall k: Key ensures RowExact(values, Next(s, step), k) {
          AbortRow(values, s, tx, k);
        }
      }
  }

  /**
   Every row ends as its first value and exactly what committed transactions did to it: nothing lost,
   nothing of a rollback left.
   */
  lemma {:induction false} NoUpdateIsLost(values: map<Key, int>, steps: seq<Step>)
    ensures Exact(values, Run(Start(values), steps))
    ensures forall key: Key :: Value(Run(Start(values), steps).committed, key) ==
              Value(values, key) + Sum(Run(Start(values), steps).applied, key, Run(Start(values), steps).kept)
  {
    if |steps| > 0 {
      var n := |steps| - 1;
      NoUpdateIsLost(values, steps[..n]);
      NextExact(values, Run(Start(values), steps[..n]), steps[n]);
    }
    var s := Run(Start(values), steps);
    forall key: Key ensures Value(s.committed, key) == Value(values, key) + Sum(s.applied, key, s.kept) {
      assert RowExact(values, s, key);
    }
  }

  // ---------- the services run alone ----------

  /** What the tables hold under a key. */
  function Stored(money: MoneyTables.Money, t: GameTables.Tables, key: Key): int {
    match key
    case Balance(u) => if u in money.bank.wallets then money.bank.wallets[u] else 0
    case Seats(id) => if id in money.mesas then money.mesas[id].currentParticipants else 0
    case Uses(code) => if code in money.invites then money.invites[code].usedCount else 0
    case FreeUnits(u, r, b) => Benefits.FreeOf(t.freeBenefits, u, r, b)
    case Inventory(u, b) => Benefits.InventoryOf(t, u, b)
  }

  ghost predicate Mirrors(values: map<Key, int>, money: MoneyTables.Money, t: GameTables.Tables) {
    forall key: Key :: Value(values, key) == Stored(money, t, key)
  }

  /** A row and the update issued on it. */
  datatype Write = Write(key: Key, op: Op)

  function Updates(tx: Tx, ws: seq<Write>): (steps: seq<Step>)
    ensures |steps| == |ws|
  {
    if |ws| == 0 then [] else Updates(tx, ws[..|ws| - 1]) + [Update(tx, ws[|ws| - 1].key, ws[|ws| - 1].op)]
  }

  /** A transaction that issues updates one after another and commits. */
  function Alone(tx: Tx, ws: seq<Write>): seq<Step> { Updates(tx, ws) + [Commit(tx)] }

  /** What the updates do to a row, none of them twice on one row. */
  function Moved(ws: seq<Write>, values: map<Key, int>, key: Key): int {
    if |ws| == 0 then 0
    else
      var w := ws[|ws| - 1];
      Moved(ws[..|ws| - 1], values, key) + (if w.key == key then Delta(w.op, Value(values, key)) else 0)
  }

  /** Every condition holds on the values at the start, and no row is written twice. */
  ghost predicate AllMatch(ws: seq<Write>, values: map<Key, int>) {
    && (forall i | 0 <= i < |ws| :: Matches(ws[i].op, Value(values, ws[i].key)))
    && (forall i, j | 0 <= i < j < |ws| :: ws[i].key != ws[j].key)
  }

  lemma {:induction false} NotMoved(ws: seq<Write>, values: map<Key, int>, key: Key)
    requires forall i | 0 <= i < |ws| :: ws[i].key != key
    ensures Moved(ws, values, key) == 0
  {
    if |ws| > 0 {
      NotMoved(ws[..|ws| - 1], values, key);
    }
  }

  /** After the updates of one transaction, and before it commits. */
  ghost predicate Written(values: map<Key, int>, tx: Tx, ws: seq<Write>, s: State) {
    && s.committed == values && s.kept == {} && s.undone == {}
    && (forall key | key in s.locks :: s.locks[key] == tx)
    && (forall key: Key :: Value(s.current, key) == Value(values, key) + Moved(ws, values, key))
    && (forall key: Key :: key !in s.locks ==> Moved(ws, values, key) == 0)
  }

  lemma OneMoreWrite(values: map<Key, int>, tx: Tx, ws: seq<Write>, w: Write, s: State)
    requires Written(values, tx, ws, s) && AllMatch(ws + [w], values)
    ensures Written(values, tx, ws + [w], UpdateStep(s, tx, w.key, w.op))
  {
    var all, n := ws + [w], UpdateStep(s, tx, w.key, w.op);
    assert forall i | 0 <= i < |ws| :: ws[i] == all[i];
    assert w == all[|ws|];
    NotMoved(ws, values, w.key);
    forall key: Key
      ensures Value(n.current, key) == Value(values, key) + Moved(all, values, key)
      ensures key !in n.locks ==> Moved(all, values, key) == 0
    {
      assert all[..|ws|] == ws;
    }
  }

  lemma {:induction false} WritesDone(values: map<Key, int>, tx: Tx, ws: seq<Write>)
    requires AllMatch(ws, values)
    ensures Written(values, tx, ws, Run(Start(values), Updates(tx, ws)))
  {
    if |ws| > 0 {
      var n := |ws| - 1;
      WritesDone(values, tx, ws[..n]);
      var steps := Updates(tx, ws);
      assert steps[..n] == Updates(tx, ws[..n]);
      assert ws == ws[..n] + [ws[n]];
      OneMoreWrite(values, tx, ws[..n], ws[n], Run(Start(values), steps[..n]));
    }
  }

  /** A transaction run alone commits exactly what its updates say. */
  lemma AloneCommits(values: map<Key, int>, tx: Tx, ws: seq<Write>, key: Key)
    requires AllMatch(ws, values)
    ensures Value(Run(Start(values), Alone(tx, ws)).committed, key) == Value(values, key) + Moved(ws, values, key)
  {
    WritesDone(values, tx, ws);
    assert Alone(tx, ws)[..|ws|] == Updates(tx, ws);
  }

  /** The tables after a service are what its updates, run alone, commit. */
  ghost predicate IsAlone(values: map<Key, int>, ws: seq<Write>, money: MoneyTables.Money, t: GameTables.Tables) {
    AllMatch(ws, values) && forall tx: Tx :: Mirrors(Run(Start(values), Alone(tx, ws)).committed, money, t)
  }

  lemma MovesAreAlone(values: map<Key, int>, ws: seq<Write>, money: MoneyTables.Money, t: GameTables.Tables)
    requires AllMatch(ws, values)
    requires forall key: Key :: Stored(money, t, key) == Value(values, key) + Moved(ws, values, key)
    ensures IsAlone(values, ws, money, t)
  {
    forall tx: Tx, key: Key ensures Value(Run(Start(values), Alone(tx, ws)).committed, key) == Stored(money, t, key) {
      AloneCommits(values, tx, ws, key);
    }
  }

  lemma MovedByTwo(a: Write, b: Write, values: map<Key, int>, key: Key)
    ensures Moved([a], values, key) == (if a.key == key then Delta(a.op, Value(values, key)) else 0)
    ensures Moved([a, b], values, key) ==
              Moved([a], values, key) + (if b.key == key then Delta(b.op, Value(values, key)) else 0)
  {
    assert [a][..0] == [] && [a, b][..1] == [a];
  }

  /** Spending multipliers is a guarded update of the free units, of the inventory, or of both. */
  function ConsumeWrites(u: UserId, r: nat, b: GameTables.BenefitType, used: Benefits.Consumption): seq<Write>
    requires used.freeUsed >= 0 && used.inventoryUsed >= 0
  {
    (if used.freeUsed > 0 then [Write(FreeUnits(u, r, b), DecrementIfAtLeast(used.freeUsed))] else [])
    + (if used.inventoryUsed > 0 then [Write(Inventory(u, b), DecrementIfAtLeast(used.inventoryUsed))] else [])
  }

  lemma ConsumeGuards(t: GameTables.Tables, u: UserId, r: nat, b: GameTables.BenefitType, quantity: nat,
                      next: GameTables.Tables, used: Benefits.Consumption)
    requires Benefits.ConsumeStep(t, u, r, b, quantity) == Ok((next, used))
    ensures used.freeUsed >= 0 && used.inventoryUsed >= 0
    ensures used.freeUsed > 0 ==> Benefits.FreeOf(t.freeBenefits, u, r, b) >= used.freeUsed
    ensures used.inventoryUsed > 0 ==> Benefits.InventoryOf(t, u, b) >= used.inventoryUsed
  {
  }

  lemma ConsumeWritesMove(u: UserId, r: nat, b: GameTables.BenefitType, used: Benefits.Consumption,
                          values: map<Key, int>, key: Key)
    requires used.freeUsed >= 0 && used.inventoryUsed >= 0
    ensures Moved(ConsumeWrites(u, r, b, used), values, key) ==
            (if key == FreeUnits(u, r, b) then -used.freeUsed else 0)
              + (if key == Inventory(u, b) then -used.inventoryUsed else 0)
  {
    var free, rest := Write(FreeUnits(u, r, b), DecrementIfAtLeast(used.freeUsed)),
      Write(Inventory(u, b), DecrementIfAtLeast(used.inventoryUsed));
    assert [free] + [] == [free] && [] + [rest] == [rest] && [free] + [rest] == [free, rest];
    MovedByTwo(free, rest, values, key);
    MovedByTwo(rest, rest, values, key);
  }

  lemma ConsumeStored(money: MoneyTables.Money, t: GameTables.Tables, u: UserId, r: nat, b: GameTables.BenefitType,
                      quantity: nat, next: GameTables.Tables, used: Benefits.Consumption, key: Key)
    requires Benefits.ConsumeStep(t, u, r, b, quantity) == Ok((next, used))
    ensures Stored(money, next, key) == Stored(money, t, key)
            - (if key == FreeUnits(u, r, b) then used.freeUsed else 0)
              - (if key == Inventory(u, b) then used.inventoryUsed else 0)
  {
    match key
    case FreeUnits(v, q, c) =>
      BenefitRuns.ConsumeTakes(t, u, r, b, quantity, v, c, next, used);
      BenefitRuns.ConsumeElsewhere(t, u, r, b, quantity, v, c, next, used);
    case Inventory(v, c) => BenefitRuns.ConsumeTakes(t, u, r, b, quantity, v, c, next, used);
    case _ =>
  }

  /** A spend that succeeds, run alone, is its guarded updates. */
  lemma ConsumeIsAlone(values: map<Key, int>, money: MoneyTables.Money, t: GameTables.Tables, u: UserId, r: nat,
                       b: GameTables.BenefitType, quantity: nat, next: GameTables.Tables, used: Benefits.Consumption)
    requires Mirrors(values, money, t) && Benefits.ConsumeStep(t, u, r, b, quantity) == Ok((next, used))
    ensures used.freeUsed >= 0 && used.inventoryUsed >= 0
    ensures IsAlone(values, ConsumeWrites(u, r, b, used), money, next)
  {
    ConsumeGuards(t, u, r, b, quantity, next, used);
    var ws := ConsumeWrites(u, r, b, used);
    assert Value(values, FreeUnits(u, r, b)) == Stored(money, t, FreeUnits(u, r, b));
    assert Value(values, Inventory(u, b)) == Stored(money, t, Inventory(u, b));
    forall key: Key ensures Stored(money, next, key) == Value(values, key) + Moved(ws, values, key) {
      ConsumeWritesMove(u, r, b, used, values, key);
      ConsumeStored(money, t, u, r, b, quantity, next, used, key);
    }
    MovesAreAlone(values, ws, money, next);
  }

  /** An admission, by a join or a review: the fee, if there is one, and the seat. */
  function AdmitWrites(m: MoneyTables.Mesa, id: MoneyTables.MesaId, u: UserId): seq<Write>
    requires Payable(m)
  {
    (if m.category == MoneyTables.Paid then [Write(Balance(u), DecrementIfAtLeast(MesaIntegrity.Cost(m)))] else [])
    + [Write(Seats(id), IncrementBelow(m.maxParticipants))]
  }

  predicate Payable(m: MoneyTables.Mesa) { m.category == MoneyTables.Paid ==> MesaIntegrity.Cost(m) > 0 }

  /** An admission that succeeds, once the checks before it found a free seat. */
  ghost predicate Admits(money: MoneyTables.Money, t: GameTables.Tables, id: MoneyTables.MesaId, u: UserId,
                         now: Time, next: MoneyTables.Money) {
    id in money.mesas && MesaEntry.CapacityError(money.mesas[id]) == None
      && MesaEntry.AdmitStep(money, t, id, u, now) == Ok(next)
  }

  lemma JoinAdmits(money: MoneyTables.Money, t: GameTables.Tables, id: MoneyTables.MesaId, u: UserId, now: Time,
                   next: MoneyTables.Money)
    requires MesaEntry.JoinStep(money, t, id, u, now) == Ok(next)
    ensures Admits(money, t, id, u, now, next)
  {
  }

  lemma ReviewAdmits(money: MoneyTables.Money, t: GameTables.Tables, id: MoneyTables.MesaId, u: UserId,
                     reviewer: UserId, now: Time, next: MoneyTables.Money)
    requires MesaEntry.ReviewStep(money, t, id, u, reviewer, true, now) == Ok(next)
    ensures Admits(money, t, id, u, now, next)
  {
  }

  lemma AdmitMatches(values: map<Key, int>, money: MoneyTables.Money, t: GameTables.Tables, id: MoneyTables.MesaId,
                     u: UserId, now: Time, next: MoneyTables.Money)
    requires Mirrors(values, money, t) && Admits(money, t, id, u, now, next)
    ensures Payable(money.mesas[id]) && AllMatch(AdmitWrites(money.mesas[id], id, u), values)
  {
    assert Value(values, Balance(u)) == Stored(money, t, Balance(u));
    assert Value(values, Seats(id)) == Stored(money, t, Seats(id));
  }

  lemma AdmitStored(money: MoneyTables.Money, t: GameTables.Tables, id: MoneyTables.MesaId, u: UserId, now: Time,
                    next: MoneyTables.Money, key: Key)
    requires Admits(money, t, id, u, now, next)
    ensures Stored(next, t, key) == Stored(money, t, key)
            - (if key == Balance(u)
              && money.mesas[id].category == MoneyTables.Paid then MesaIntegrity.Cost(money.mesas[id]) else 0)
            + (if key == Seats(id) then 1 else 0)
  {
  }

  lemma AdmitWritesMove(m: MoneyTables.Mesa, id: MoneyTables.MesaId, u: UserId, values: map<Key, int>, key: Key)
    requires Payable(m)
    ensures Moved(AdmitWrites(m, id, u), values, key) ==
            - (if key == Balance(u) && m.category == MoneyTables.Paid then MesaIntegrity.Cost(m) else 0)
              + (if key == Seats(id) then 1 else 0)
  {
    var seat := Write(Seats(id), IncrementBelow(m.maxParticipants));
    MovedByTwo(seat, seat, values, key);
    assert [] + [seat] == [seat];
    if m.category == MoneyTables.Paid {
      var fee := Write(Balance(u), DecrementIfAtLeast(MesaIntegrity.Cost(m)));
      assert [fee] + [seat] == [fee, seat];
      MovedByTwo(fee, seat, values, key);
    }
  }

  /** An admission, run alone, is its guarded updates. */
  lemma AdmitIsAlone(values: map<Key, int>, money: MoneyTables.Money, t: GameTables.Tables, id: MoneyTables.MesaId,
                     u: UserId, now: Time, next: MoneyTables.Money)
    requires Mirrors(values, money, t) && Admits(money, t, id, u, now, next)
    ensures Payable(money.mesas[id]) && IsAlone(values, AdmitWrites(money.mesas[id], id, u), next, t)
  {
    AdmitMatches(values, money, t, id, u, now, next);
    var ws := AdmitWrites(money.mesas[id], id, u);
    forall key: Key ensures Stored(next, t, key) == Value(values, key) + Moved(ws, values, key) {
      AdmitWritesMove(money.mesas[id], id, u, values, key);
      AdmitStored(money, t, id, u, now, next, key);
    }
    MovesAreAlone(values, ws, next, t);
  }

  /** An entry by joining or by approval, run alone, is the guarded updates of an admission. */
  lemma EntryIsAlone(values: map<Key, int>, money: MoneyTables.Money, t: GameTables.Tables, id: MoneyTables.MesaId,
                     u: UserId, reviewer: UserId, now: Time, next: MoneyTables.Money)
    requires Mirrors(values, money, t)
    requires MesaEntry.JoinStep(money, t, id, u, now) == Ok(next)
               || MesaEntry.ReviewStep(money, t, id, u, reviewer, true, now) == Ok(next)
    ensures id in money.mesas && Payable(money.mesas[id])
    ensures IsAlone(values, AdmitWrites(money.mesas[id], id, u), next, t)
  {
    hide Mirrors, IsAlone, Payable;
    if MesaEntry.JoinStep(money, t, id, u, now) == Ok(next) {
      JoinAdmits(money, t, id, u, now, next);
    } else {
      ReviewAdmits(money, t, id, u, reviewer, now, next);
    }
    AdmitIsAlone(values, money, t, id, u, now, next);
  }

  /** A debit, run alone, is a guarded decrement; a credit is an increment. */
  lemma WalletIsAlone(values: map<Key, int>, money: MoneyTables.Money, t: GameTables.Tables, u: UserId, amount: nat,
                      origin: MoneyTables.Origin, bank: MoneyTables.Bank)
    requires Mirrors(values, money, t)
    ensures MoneyTables.DebitStep(money.bank, u, amount, origin) == Ok(bank) ==>
              IsAlone(values, [Write(Balance(u), DecrementIfAtLeast(amount))], money.(bank := bank), t)
    ensures MoneyTables.CreditStep(money.bank, u, amount, origin) == Ok(bank) ==>
              IsAlone(values, [Write(Balance(u), Add(amount))], money.(bank := bank), t)
  {
    hide Mirrors, IsAlone;
    if MoneyTables.DebitStep(money.bank, u, amount, origin) == Ok(bank) {
      DebitIsAlone(values, money, t, u, amount, origin, bank);
    }
    if MoneyTables.CreditStep(money.bank, u, amount, origin) == Ok(bank) {
      CreditIsAlone(values, money, t, u, amount, origin, bank);
    }
  }

  lemma DebitIsAlone(values: map<Key, int>, money: MoneyTables.Money, t: GameTables.Tables, u: UserId, amount: nat,
                     origin: MoneyTables.Origin, bank: MoneyTables.Bank)
    requires Mirrors(values, money, t) && MoneyTables.DebitStep(money.bank, u, amount, origin) == Ok(bank)
    ensures IsAlone(values, [Write(Balance(u), DecrementIfAtLeast(amount))], money.(bank := bank), t)
  {
    hide IsAlone;
    assert Value(values, Balance(u)) == Stored(money, t, Balance(u));
    OneWriteIsAlone(values, Write(Balance(u), DecrementIfAtLeast(amount)), money.(bank := bank), t);
  }

  lemma CreditIsAlone(values: map<Key, int>, money: MoneyTables.Money, t: GameTables.Tables, u: UserId, amount: nat,
                      origin: MoneyTables.Origin, bank: MoneyTables.Bank)
    requires Mirrors(values, money, t) && MoneyTables.CreditStep(money.bank, u, amount, origin) == Ok(bank)
    ensures IsAlone(values, [Write(Balance(u), Add(amount))], money.(bank := bank), t)
  {
    hide IsAlone;
    assert Value(values, Balance(u)) == Stored(money, t, Balance(u));
    OneWriteIsAlone(values, Write(Balance(u), Add(amount)), money.(bank := bank), t);
  }

  lemma OneWriteIsAlone(values: map<Key, int>, w: Write, money: MoneyTables.Money, t: GameTables.Tables)
    requires Matches(w.op, Value(values, w.key))
    requires forall key: Key ::
               Stored(money, t, key) ==
                 Value(values, key) + (if key == w.key then Delta(w.op, Value(values, key)) else 0)
    ensures IsAlone(values, [w], money, t)
  {
    hide Moved, IsAlone;
    forall key: Key ensures Stored(money, t, key) == Value(values, key) + Moved([w], values, key) {
      MovedByTwo(w, w, values, key);
    }
    MovesAreAlone(values, [w], money, t);
  }

  lemma {:induction false} MovedAppend(a: seq<Write>, b: seq<Write>, values: map<Key, int>, key: Key)
    ensures Moved(a + b, values, key) == Moved(a, values, key) + Moved(b, values, key)
  {
    if |b| == 0 {
      assert a + b == a;
    } else {
      assert (a + b)[..|a + b| - 1] == a + b[..|b| - 1];
      MovedAppend(a, b[..|b| - 1], values, key);
    }
  }

  lemma OneMoreMatch(w: Write, ws: seq<Write>, values: map<Key, int>)
    requires AllMatch(ws, values) && Matches(w.op, Value(values, w.key))
               && forall i | 0 <= i < |ws| :: ws[i].key != w.key
    ensures AllMatch([w] + ws, values)
  {
  }

  function UseWrite(money: MoneyTables.Money, code: MoneyTables.InviteCode): Write
    requires code in money.invites
  {
    Write(Uses(code), IncrementBelow(money.invites[code].maxUses))
  }

  /** A use that joins: the invite's Mesa admits. */
  ghost predicate UseAdmits(money: MoneyTables.Money, t: GameTables.Tables, code: MoneyTables.InviteCode,
                            id: MoneyTables.MesaId,
                            u: UserId, now: Time, next: MoneyTables.Money, joined: MoneyTables.Money) {
    && MesaEntry.UseInviteStep(money, t, code, u, now) == Ok((next, MesaEntry.Joined))
    && code in money.invites && money.invites[code].mesa == id
    && MesaEntry.JoinStep(money, t, id, u, now) == Ok(joined) && Admits(money, t, id, u, now, joined)
  }

  lemma UseMoves(values: map<Key, int>, money: MoneyTables.Money, t: GameTables.Tables, code: MoneyTables.InviteCode,
                 id: MoneyTables.MesaId,
                 u: UserId, now: Time, next: MoneyTables.Money, joined: MoneyTables.Money, key: Key)
    requires Mirrors(values, money, t) && UseAdmits(money, t, code, id, u, now, next, joined)
               && Payable(money.mesas[id])
    ensures Stored(next, t, key) ==
              Value(values, key) + Moved([UseWrite(money, code)] + AdmitWrites(money.mesas[id], id, u), values, key)
  {
    var use := UseWrite(money, code);
    AdmitWritesMove(money.mesas[id], id, u, values, key);
    AdmitStored(money, t, id, u, now, joined, key);
    UseStored(money, t, code, u, now, next, joined, key);
    MovedByTwo(use, use, values, key);
    MovedAppend([use], AdmitWrites(money.mesas[id], id, u), values, key);
  }

  lemma UseAdmitted(money: MoneyTables.Money, t: GameTables.Tables, code: MoneyTables.InviteCode, u: UserId,
                    now: Time, next: MoneyTables.Money)
    returns (id: MoneyTables.MesaId, joined: MoneyTables.Money)
    requires MesaEntry.UseInviteStep(money, t, code, u, now) == Ok((next, MesaEntry.Joined))
    ensures UseAdmits(money, t, code, id, u, now, next, joined)
  {
    id := money.invites[code].mesa;
    joined := MesaEntry.JoinStep(money, t, id, u, now).value;
    JoinAdmits(money, t, id, u, now, joined);
  }

  /** An invite use is one more update in front of the join, on the use count. */
  lemma UseIsAlone(values: map<Key, int>, money: MoneyTables.Money, t: GameTables.Tables, code: MoneyTables.InviteCode,
                   u: UserId, now: Time, next: MoneyTables.Money)
    requires Mirrors(values, money, t)
               && MesaEntry.UseInviteStep(money, t, code, u, now) == Ok((next, MesaEntry.Joined))
    ensures code in money.invites && money.invites[code].mesa in money.mesas
              && Payable(money.mesas[money.invites[code].mesa])
    ensures var id := money.invites[code].mesa;
            IsAlone(values, [UseWrite(money, code)] + AdmitWrites(money.mesas[id], id, u), next, t)
  {
    var id, joined := UseAdmitted(money, t, code, u, now, next);
    AdmitMatches(values, money, t, id, u, now, joined);
    var use, ws := UseWrite(money, code), AdmitWrites(money.mesas[id], id, u);
    UseStored(money, t, code, u, now, next, joined, use.key);
    assert Value(values, use.key) == Stored(money, t, use.key);
    OneMoreMatch(use, ws, values);
    forall key: Key ensures Stored(next, t, key) == Value(values, key) + Moved([use] + ws, values, key) {
      UseMoves(values, money, t, code, id, u, now, next, joined, key);
    }
    MovesAreAlone(values, [use] + ws, next, t);
  }

  lemma UseStored(money: MoneyTables.Money, t: GameTables.Tables, code: MoneyTables.InviteCode, u: UserId, now: Time,
                  next: MoneyTables.Money, joined: MoneyTables.Money, key: Key)
    requires MesaEntry.UseInviteStep(money, t, code, u, now) == Ok((next, MesaEntry.Joined))
    requires MesaEntry.JoinStep(money, t, money.invites[code].mesa, u, now) == Ok(joined)
    ensures Matches(IncrementBelow(money.invites[code].maxUses), money.invites[code].usedCount)
    ensures Stored(next, t, key) == Stored(joined, t, key) + (if key == Uses(code) then 1 else 0)
  {
  }

  /** Closing a round zeroes the free units of one user after another. */
  function ZeroWrites(users: seq<UserId>, r: nat): (ws: seq<Write>) {
    if |users| == 0 then []
    else
      var u := users[|users| - 1];
      ZeroWrites(users[..|users| - 1], r)
      + [Write(FreeUnits(u, r, GameTables.Double), Zero), Write(FreeUnits(u, r, GameTables.SuperDouble), Zero)]
  }

  lemma {:induction false} ZeroWritesOnce(users: seq<UserId>, r: nat)
    requires forall i, j | 0 <= i < j < |users| :: users[i] != users[j]
    ensures forall i | 0 <= i < |ZeroWrites(users, r)| ::
              var w := ZeroWrites(users, r)[i];
              w.op == Zero && w.key.FreeUnits? && w.key.roundId == r && w.key.user in users
    ensures forall i, j | 0 <= i < j < |ZeroWrites(users, r)| ::
              ZeroWrites(users, r)[i].key != ZeroWrites(users, r)[j].key
  {
    if |users| > 0 {
      var n := |users| - 1;
      ZeroWritesOnce(users[..n], r);
      assert users == users[..n] + [users[n]];
    }
  }

  lemma {:induction false} ZeroWritesMove(users: seq<UserId>, r: nat, values: map<Key, int>, key: Key)
    requires forall i, j | 0 <= i < j < |users| :: users[i] != users[j]
    ensures Moved(ZeroWrites(users, r), values, key) ==
            if key.FreeUnits? && key.roundId == r && key.user in users then -Value(values, key) else 0
  {
    hide Value, Moved;
    if |users| == 0 {
      NothingMoved(values, key);
    } else {
      var n := |users| - 1;
      var last := [Write(FreeUnits(users[n], r, GameTables.Double), Zero),
        Write(FreeUnits(users[n], r, GameTables.SuperDouble), Zero)];
      ZeroWritesMove(users[..n], r, values, key);
      MovedAppend(ZeroWrites(users[..n], r), last, values, key);
      ZeroedMoves(users[n], r, values, key);
      LastUser(users);
    }
  }

  lemma LastUser(users: seq<UserId>)
    requires |users| > 0 && forall i, j | 0 <= i < j < |users| :: users[i] != users[j]
    ensures users[|users| - 1] !in users[..|users| - 1]
    ensures forall u :: u in users <==> u in users[..|users| - 1] || u == users[|users| - 1]
  {
    assert users == users[..|users| - 1] + [users[|users| - 1]];
  }

  lemma NothingMoved(values: map<Key, int>, key: Key)
    ensures Moved([], values, key) == 0
  {
  }

  lemma ZeroedMoves(u: UserId, r: nat, values: map<Key, int>, key: Key)
    ensures Moved([Write(FreeUnits(u, r, GameTables.Double), Zero),
                   Write(FreeUnits(u, r, GameTables.SuperDouble), Zero)], values, key) ==
            if key.FreeUnits? && key.roundId == r && key.user == u then -Value(values, key) else 0
  {
    hide Value;
    MovedByTwo(Write(FreeUnits(u, r, GameTables.Double), Zero), Write(FreeUnits(u, r, GameTables.SuperDouble), Zero),
               values, key);
    assert key.FreeUnits? ==> key.benefit == GameTables.Double || key.benefit == GameTables.SuperDouble;
  }

  /** Closing a round, run alone, is those updates; `users` lists who holds a row for the round. */
  lemma CloseIsAlone(values: map<Key, int>, money: MoneyTables.Money, t: GameTables.Tables, r: nat,
                     users: seq<UserId>, next: GameTables.Tables)
    requires Mirrors(values, money, t) && Rounds.CloseStep(t, r) == Ok(next)
    requires forall i, j | 0 <= i < j < |users| :: users[i] != users[j]
    requires forall u | (u, r) in t.freeBenefits :: u in users
    ensures IsAlone(values, ZeroWrites(users, r), money, next)
  {
    ZeroWritesOnce(users, r);
    forall key: Key ensures Stored(money, next, key) == Value(values, key) + Moved(ZeroWrites(users, r), values, key) {
      ZeroWritesMove(users, r, values, key);
      CloseStored(money, t, r, next, key);
    }
    MovesAreAlone(values, ZeroWrites(users, r), money, next);
  }

  lemma CloseStored(money: MoneyTables.Money, t: GameTables.Tables, r: nat, next: GameTables.Tables, key: Key)
    requires Rounds.CloseStep(t, r) == Ok(next)
    ensures Stored(money, next, key) == if key.FreeUnits? && key.roundId == r then 0 else Stored(money, t, key)
  {
  }
}
