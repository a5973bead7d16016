/**
 The life of a round (src/services/round/): DRAFT, OPEN, CLOSED, then scored elsewhere,
 or CANCELLED from DRAFT and OPEN. Opening grants free benefits; closing takes the rest away.
 */
module Rounds {
  import opened Common
  import opened GameTables
  import ScoreRound

  datatype Failure =
    | RoundNotFound | NotDraft | AnotherRoundOpen | NotOpen | ResultFrozen | InvalidResult
    | AlreadyCancelled | CannotCancel | HasResult | HasTickets
    | ResultMissing | AlreadyScored | CannotClose | ScoringFailed

  /** PRO users get four doubles and two super doubles a round, the others two doubles. */
  function RoundGrant(isPro: bool): FreeBenefit {
    if isPro then FreeBenefit(4, 2) else FreeBenefit(2, 0)
  }

  // ---------- create-round.service.ts ----------

  function CreateStep(t: Tables, openAt: Time, closeAt: Time): Tables {
    t.(rounds := t.rounds + [Round(Draft, openAt, closeAt, None, [])])
  }

  method Create(db: GameDb, openAt: Time, closeAt: Time) returns (roundId: nat)
    modifies db`rounds
    ensures db.View() == CreateStep(old(db.View()), openAt, closeAt)
    ensures roundId == |old(db.rounds)|
  {
    roundId := |db.rounds|;
    db.rounds := db.rounds + [Round(Draft, openAt, closeAt, None, [])];
  }

  // ---------- grant-round-benefits.service.ts ----------

  /** Every user without a row for the round gets one; rows that exist stay as they are. */
  function Granted(free: map<(UserId, nat), FreeBenefit>, users: set<UserId>, roundId: nat,
                   pro: set<UserId>): (g: map<(UserId, nat), FreeBenefit>)
    ensures forall k | k in free :: k in g && g[k] == free[k]
    ensures forall k :: k in g <==> k in free || (k.1 == roundId && k.0 in users)
  {
    map k: (UserId, nat) | k in free.Keys + (set u | u in users :: (u, roundId)) ::
      if k in free then free[k] else RoundGrant(k.0 in pro)
  }

  lemma GrantedOneMore(free: map<(UserId, nat), FreeBenefit>, users: set<UserId>, roundId: nat, pro: set<UserId>,
                       u: UserId)
    requires u !in users
    ensures var g := Granted(free, users, roundId, pro);
            Granted(free, users + {u}, roundId, pro) ==
            if (u, roundId) in g then g else g[(u, roundId) := RoundGrant(u in pro)]
  {
    var g, h := Granted(free, users, roundId, pro), Granted(free, users + {u}, roundId, pro);
    assert (u, roundId) in g <==> (u, roundId) in free;
    forall k | k in h && k != (u, roundId) ensures k in g && g[k] == h[k] {
    }
  }

  lemma GrantedNobody(free: map<(UserId, nat), FreeBenefit>, users: set<UserId>, roundId: nat, pro: set<UserId>)
    requires users == {}
    ensures Granted(free, users, roundId, pro) == free
  {
  }

  /** The upsert for one user: creates the row, never updates it. */
  method GrantOne(db: GameDb, u: UserId, roundId: nat, pro: set<UserId>, ghost free: map<(UserId, nat), FreeBenefit>,
                  ghost done: set<UserId>)
    requires u !in done && db.freeBenefits == Granted(free, done, roundId, pro)
    modifies db`freeBenefits
    ensures db.freeBenefits == Granted(free, done + {u}, roundId, pro)
  {
    GrantedOneMore(free, done, roundId, pro, u);
    if (u, roundId) !in db.freeBenefits {
      db.freeBenefits := db.freeBenefits[(u, roundId) := RoundGrant(u in pro)];
    }
  }

  method Grant(db: GameDb, roundId: nat, pro: set<UserId>)
    modifies db`freeBenefits
    ensures db.freeBenefits == Granted(old(db.freeBenefits), db.users.Keys, roundId, pro)
  {
    hide Granted;
    var todo := db.users.Keys;
    ghost var users, free := todo, db.freeBenefits;
    GrantedNobody(free, users - todo, roundId, pro);
    while todo != {}
      invariant todo <= users && db.freeBenefits == Granted(free, users - todo, roundId, pro)
      decreases |todo|
    {
      var u :| u in todo;
      GrantOne(db, u, roundId, pro, free, users - todo);
      assert users - (todo - {u}) == (users - todo) + {u};
      todo := todo - {u};
    }
    assert users - todo == users;
  }

  // ---------- open-round.service.ts ----------

  predicate SomeOtherOpen(rounds: seq<Round>, roundId: nat) {
    exists k :: 0 <= k < |rounds| && k != roundId && rounds[k].status == Open
  }

  /** Opening an OPEN round again only grants what is missing. */
  function OpenStep(t: Tables, roundId: nat, pro: set<UserId>): Result<Tables, Failure> {
    if roundId >= |t.rounds| then Err(RoundNotFound)
    else if t.rounds[roundId].status == Open then
      Ok(t.(freeBenefits := Granted(t.freeBenefits, t.users.Keys, roundId, pro)))
    else if t.rounds[roundId].status != Draft then Err(NotDraft)
    else if SomeOtherOpen(t.rounds, roundId) then Err(AnotherRoundOpen)
    else Ok(t.(rounds := t.rounds[roundId := t.rounds[roundId].(status := Open)],
               freeBenefits := Granted(t.freeBenefits, t.users.Keys, roundId, pro)))
  }

  method OpenRound(db: GameDb, roundId: nat, pro: set<UserId>) returns (r: Result<(), Failure>)
    modifies db`rounds, db`freeBenefits
    ensures match OpenStep(old(db.View()), roundId, pro)
            case Ok(next) => r == Ok(()) && db.View() == next
            case Err(e) => r == Err(e) && db.View() == old(db.View())
  {
    if roundId >= |db.rounds| {
      return Err(RoundNotFound);
    }
    if db.rounds[roundId].status != Open {
      if db.rounds[roundId].status != Draft {
        return Err(NotDraft);
      }
      if SomeOtherOpen(db.rounds, roundId) {
        return Err(AnotherRoundOpen);
      }
      db.rounds := db.rounds[roundId := db.rounds[roundId].(status := Open)];
    }
    Grant(db, roundId, pro);
    r := Ok(());
  }

  /** The status alone, and the grant alone: the program commits the one before it starts the other. */
  function MarkOpenStep(t: Tables, roundId: nat): Result<Tables, Failure> {
    if roundId >= |t.rounds| then Err(RoundNotFound)
    else if t.rounds[roundId].status != Draft then Err(NotDraft)
    else if SomeOtherOpen(t.rounds, roundId) then Err(AnotherRoundOpen)
    else Ok(t.(rounds := t.rounds[roundId := t.rounds[roundId].(status := Open)]))
  }

  function GrantStep(t: Tables, roundId: nat, pro: set<UserId>): Result<Tables, Failure> {
    if roundId >= |t.rounds| then Err(RoundNotFound)
    else Ok(t.(freeBenefits := Granted(t.freeBenefits, t.users.Keys, roundId, pro)))
  }

  // ---------- close-round.service.ts ----------

  /** The round's free benefits, zeroed. */
  function Expired(free: map<(UserId, nat), FreeBenefit>, roundId: nat): map<(UserId, nat), FreeBenefit> {
    map k | k in free :: if k.1 == roundId then FreeBenefit(0, 0) else free[k]
  }

  function CloseStep(t: Tables, roundId: nat): Result<Tables, Failure> {
    if roundId >= |t.rounds| then Err(RoundNotFound)
    else if t.rounds[roundId].status != Open then Err(NotOpen)
    else Ok(t.(rounds := t.rounds[roundId := t.rounds[roundId].(status := Closed)],
               freeBenefits := Expired(t.freeBenefits, roundId)))
  }

  /** The status alone, and the expiry alone. */
  function MarkClosedStep(t: Tables, roundId: nat): Result<Tables, Failure> {
    if roundId >= |t.rounds| then Err(RoundNotFound)
    else if t.rounds[roundId].status != Open then Err(NotOpen)
    else Ok(t.(rounds := t.rounds[roundId := t.rounds[roundId].(status := Closed)]))
  }

  function ExpireStep(t: Tables, roundId: nat): Result<Tables, Failure> {
    if roundId >= |t.rounds| then Err(RoundNotFound)
    else Ok(t.(freeBenefits := Expired(t.freeBenefits, roundId)))
  }

  method Close(db: GameDb, roundId: nat) returns (r: Result<(), Failure>)
    modifies db`rounds, db`freeBenefits
    ensures match CloseStep(old(db.View()), roundId)
            case Ok(next) => r == Ok(()) && db.View() == next
            case Err(e) => r == Err(e) && db.View() == old(db.View())
  {
    if roundId >= |db.rounds| {
      return Err(RoundNotFound);
    }
    if db.rounds[roundId].status != Open {
      return Err(NotOpen);
    }
    db.rounds := db.rounds[roundId := db.rounds[roundId].(status := Closed)];
    db.freeBenefits := map k | k in db.freeBenefits :: if k.1 == roundId then FreeBenefit(0, 0) else db.freeBenefits[k];
    r := Ok(());
  }

  // ---------- set-round-result.service.ts ----------

  /** A result may be written at any time until the round is scored. */
  function SetResultStep(t: Tables, roundId: nat, result: seq<string>): Result<Tables, Failure> {
    if !ValidResult(result) then Err(InvalidResult)
    else if roundId >= |t.rounds| then Err(RoundNotFound)
    else if t.rounds[roundId].status == Scored then Err(ResultFrozen)
    else Ok(t.(rounds := t.rounds[roundId := t.rounds[roundId].(result := Some(result))]))
  }

  method SetResult(db: GameDb, roundId: nat, result: seq<string>) returns (r: Result<(), Failure>)
    modifies db`rounds
    ensures match SetResultStep(old(db.View()), roundId, result)
            case Ok(next) => r == Ok(()) && db.View() == next
            case Err(e) => r == Err(e) && db.View() == old(db.View())
  {
    if !ValidResult(result) {
      return Err(InvalidResult);
    }
    if roundId >= |db.rounds| {
      return Err(RoundNotFound);
    }
    if db.rounds[roundId].status == Scored {
      return Err(ResultFrozen);
    }
    db.rounds := db.rounds[roundId := db.rounds[roundId].(result := Some(result))];
    r := Ok(());
  }

  // ---------- round-admin.service.ts ----------

  function CancelStep(t: Tables, roundId: nat, now: Time): Result<Tables, Failure> {
    if roundId >= |t.rounds| then Err(RoundNotFound)
    else
      var round := t.rounds[roundId];
      if round.status == Cancelled then Err(AlreadyCancelled)
      else if round.status == Draft then Ok(t.(rounds := t.rounds[roundId := round.(status := Cancelled)]))
      else if round.status != Open then Err(CannotCancel)
      else if round.result.Some? then Err(HasResult)
      else if |round.tickets| > 0 then Err(HasTickets)
      else Ok(t.(rounds := t.rounds[roundId := round.(status := Cancelled, closeAt := now)]))
  }

  method Cancel(db: GameDb, roundId: nat, now: Time) returns (r: Result<(), Failure>)
    modifies db`rounds
    ensures match CancelStep(old(db.View()), roundId, now)
            case Ok(next) => r == Ok(()) && db.View() == next
            case Err(e) => r == Err(e) && db.View() == old(db.View())
  {
    if roundId >= |db.rounds| {
      return Err(RoundNotFound);
    }
    var round := db.rounds[roundId];
    if round.status == Cancelled {
      return Err(AlreadyCancelled);
    }
    if round.status == Draft {
      db.rounds := db.rounds[roundId := round.(status := Cancelled)];
      return Ok(());
    }
    if round.status != Open {
      return Err(CannotCancel);
    }
    if round.result.Some? {
      return Err(HasResult);
    }
    if |round.tickets| > 0 {
      return Err(HasTickets);
    }
    db.rounds := db.rounds[roundId := round.(status := Cancelled, closeAt := now)];
    r := Ok(());
  }

  /** Closes an OPEN round and scores it; the close stays if the scoring fails. */
  function AdminCloseStep(t: Tables, roundId: nat): (Tables, Result<(), Failure>) {
    if roundId >= |t.rounds| then (t, Err(RoundNotFound))
    else
      var round := t.rounds[roundId];
      if round.result.None? then (t, Err(ResultMissing))
      else if round.status == Scored then (t, Err(AlreadyScored))
      else if round.status != Open && round.status != Closed then (t, Err(CannotClose))
      else
        var closed := if round.status == Open then CloseStep(t, roundId).value else t;
        match ScoreRound.Step(closed, roundId)
        case Ok(next) => (next.0, Ok(()))
        case Err(_) => (closed, Err(ScoringFailed))
  }

  method AdminClose(db: GameDb, roundId: nat) returns (r: Result<(), Failure>)
    modifies db`rounds, db`freeBenefits, db`users, db`histories
    ensures (db.View(), r) == AdminCloseStep(old(db.View()), roundId)
  {
    if roundId >= |db.rounds| {
      return Err(RoundNotFound);
    }
    var round := db.rounds[roundId];
    if round.result.None? {
      return Err(ResultMissing);
    }
    if round.status == Scored {
      return Err(AlreadyScored);
    }
    if round.status != Open && round.status != Closed {
      return Err(CannotClose);
    }
    if round.status == Open {
      var closed := Close(db, roundId);
    }
    var scored := ScoreRound.Execute(db, roundId);
    r := if scored.Ok? then Ok(()) else Err(ScoringFailed);
  }
}
