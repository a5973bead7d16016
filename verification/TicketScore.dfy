/**
 The score of a ticket (src/services/score/calculate-ticket-score.service.ts). Predictions and
 results are lists of normalised tokens; `"C"` marks a cancelled match.
 */
module TicketScore {
  import opened Common

  const MATCH_COUNT := 12

  datatype Breakdown = Breakdown(
    hits: nat, misses: nat, doubleHits: nat, doubleMisses: nat,
    superDoubleHits: nat, superDoubleMisses: nat,
    basePoints: int, multiplierBonus: int, multiplierPenalty: int, total: int)

  datatype ScoreError = PredictionSize | ResultSize | MultiplierSize | InvalidMultiplier

  predicate ValidMultiplier(m: int) { m == 1 || m == 2 || m == 4 }

  /** A ticket and a result the calculator accepts. */
  predicate Scorable(prediction: seq<string>, result: seq<string>, multipliers: seq<int>) {
    && |prediction| == |result| == |multipliers| == MATCH_COUNT
    && forall i | 0 <= i < |multipliers| :: ValidMultiplier(multipliers[i])
  }

  /** A hit earns its multiplier, a miss costs it if it was raised, a cancelled match is void. */
  function MatchPoints(prediction: string, result: string, multiplier: int): int {
    if result == "C" then 0
    else if prediction == result then multiplier
    else if multiplier == 1 then 0
    else -multiplier
  }

  /** Points of the first `n` matches. */
  function Points(prediction: seq<string>, result: seq<string>, multipliers: seq<int>, n: nat): int
    requires n <= |prediction| == |result| == |multipliers|
  {
    if n == 0 then 0
    else Points(prediction, result, multipliers, n - 1)
         + MatchPoints(prediction[n - 1], result[n - 1], multipliers[n - 1])
  }

  /** Hits (or misses) among the first `n` played matches at one multiplier. */
  function Tally(prediction: seq<string>, result: seq<string>, multipliers: seq<int>, multiplier: int, hit: bool,
                 n: nat): nat
    requires n <= |prediction| == |result| == |multipliers|
  {
    if n == 0 then 0
    else Tally(prediction, result, multipliers, multiplier, hit, n - 1)
         + (if result[n - 1] != "C" && multipliers[n - 1] == multiplier && (prediction[n - 1] == result[n - 1]) == hit
            then 1 else 0)
  }

  /** What a scorable ticket earns. */
  function TicketTotal(prediction: seq<string>, result: seq<string>, multipliers: seq<int>): int
    requires Scorable(prediction, result, multipliers)
  {
    Points(prediction, result, multipliers, |prediction|)
  }

  function TicketHits(prediction: seq<string>, result: seq<string>, multipliers: seq<int>, multiplier: int): nat
    requires Scorable(prediction, result, multipliers)
  {
    Tally(prediction, result, multipliers, multiplier, true, |prediction|)
  }

  method Detail(prediction: seq<string>, result: seq<string>, multipliers: seq<int>)
                returns (r: Result<Breakdown, ScoreError>)
    ensures r.Ok? <==> Scorable(prediction, result, multipliers)
    ensures |prediction| != MATCH_COUNT ==> r == Err(PredictionSize)
    ensures r.Ok? ==>
              && r.value.total == TicketTotal(prediction, result, multipliers)
              && r.value.doubleHits == TicketHits(prediction, result, multipliers, 2)
              && r.value.superDoubleHits == TicketHits(prediction, result, multipliers, 4)
              && r.value.doubleMisses == Tally(prediction, result, multipliers, 2, false, |prediction|)
              && r.value.superDoubleMisses == Tally(prediction, result, multipliers, 4, false, |prediction|)
              && r.value.hits == r.value.basePoints ==
                TicketHits(prediction, result, multipliers, 1) + r.value.doubleHits + r.value.superDoubleHits
              && r.value.misses == Tally(prediction, result, multipliers, 1, false, |prediction|)
                + r.value.doubleMisses + r.value.superDoubleMisses
              && r.value.multiplierBonus == r.value.doubleHits + 3 * r.value.superDoubleHits
              && r.value.multiplierPenalty == 2 * r.value.doubleMisses + 4 * r.value.superDoubleMisses
  {
    if |prediction| != MATCH_COUNT {
      return Err(PredictionSize);
    }
    if |result| != MATCH_COUNT {
      return Err(ResultSize);
    }
    if |multipliers| != MATCH_COUNT {
      return Err(MultiplierSize);
    }
    var hits, misses, doubleHits, doubleMisses, superDoubleHits, superDoubleMisses: nat := 0, 0, 0, 0, 0, 0;
    var basePoints, multiplierBonus, multiplierPenalty := 0, 0, 0;
    for i := 0 to |prediction|
      invariant forall j | 0 <= j < i :: ValidMultiplier(multipliers[j])
      invariant basePoints + multiplierBonus - multiplierPenalty == Points(prediction, result, multipliers, i)
      invariant doubleHits == Tally(prediction, result, multipliers, 2, true, i)
      invariant superDoubleHits == Tally(prediction, result, multipliers, 4, true, i)
      invariant doubleMisses == Tally(prediction, result, multipliers, 2, false, i)
      invariant superDoubleMisses == Tally(prediction, result, multipliers, 4, false, i)
      invariant hits == basePoints == Tally(prediction, result, multipliers, 1, true, i) + doubleHits + superDoubleHits
      invariant misses == Tally(prediction, result, multipliers, 1, false, i) + doubleMisses + superDoubleMisses
      invariant multiplierBonus == doubleHits + 3 * superDoubleHits
      invariant multiplierPenalty == 2 * doubleMisses + 4 * superDoubleMisses
    {
      var pred, res, multiplier := prediction[i], result[i], multipliers[i];
      if multiplier != 1 && multiplier != 2 && multiplier != 4 {
        return Err(InvalidMultiplier);
      }
      if res == "C" {
        continue;
      }
      if pred == res {
        hits := hits + 1;
        basePoints := basePoints + 1;
        if multiplier == 2 {
          doubleHits := doubleHits + 1;
          multiplierBonus := multiplierBonus + 1;
        }
        if multiplier == 4 {
          superDoubleHits := superDoubleHits + 1;
          multiplierBonus := multiplierBonus + 3;
        }
      } else {
        misses := misses + 1;
        if multiplier == 2 {
          doubleMisses := doubleMisses + 1;
          multiplierPenalty := multiplierPenalty + 2;
        }
        if multiplier == 4 {
          superDoubleMisses := superDoubleMisses + 1;
          multiplierPenalty := multiplierPenalty + 4;
        }
      }
    }
    r := Ok(Breakdown(hits, misses, doubleHits, doubleMisses, superDoubleHits, superDoubleMisses,
                      basePoints, multiplierBonus, multiplierPenalty,
                      basePoints + multiplierBonus - multiplierPenalty));
  }

  /** Raised multipliers bound what a ticket can win and lose. */
  lemma {:induction false} PointsBounds(prediction: seq<string>, result: seq<string>, multipliers: seq<int>, n: nat)
    requires n <= |prediction| == |result| == |multipliers|
    requires forall i | 0 <= i < n :: ValidMultiplier(multipliers[i])
    ensures -SumInt(multipliers[..n]) <= Points(prediction, result, multipliers, n) <= SumInt(multipliers[..n])
  {
    if n > 0 {
      PointsBounds(prediction, result, multipliers, n - 1);
      assert multipliers[..n][..n - 1] == multipliers[..n - 1];
    }
  }
}
