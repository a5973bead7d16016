/** Shared values: optional and failing results, identities, and sums over sequences. */
module Common {

  datatype Option<+T> = None | Some(value: T)

  datatype Result<+T, +E> = Ok(value: T) | Err(error: E)

  /** A user, named by the rank of its id in the order `localeCompare` gives. */
  type UserId = nat

  /** An instant, in whole units of the service clock. */
  type Time = int

  function SumInt(s: seq<int>): int {
    if |s| == 0 then 0 else SumInt(s[..|s| - 1]) + s[|s| - 1]
  }

  function SumReal(s: seq<real>): real {
    if |s| == 0 then 0.0 else SumReal(s[..|s| - 1]) + s[|s| - 1]
  }

  lemma {:induction false} SumIntAppend(s: seq<int>, t: seq<int>)
    ensures SumInt(s + t) == SumInt(s) + SumInt(t)
  {
    if |t| == 0 {
      assert s + t == s;
    } else {
      assert (s + t)[..|s + t| - 1] == s + t[..|t| - 1];
      SumIntAppend(s, t[..|t| - 1]);
    }
  }

  lemma {:induction false} SumRealAppend(s: seq<real>, t: seq<real>)
    ensures SumReal(s + t) == SumReal(s) + SumReal(t)
  {
    if |t| == 0 {
      assert s + t == s;
    } else {
      assert (s + t)[..|s + t| - 1] == s + t[..|t| - 1];
      SumRealAppend(s, t[..|t| - 1]);
    }
  }

  lemma {:induction false} SumIntUpdate(s: seq<int>, i: nat, v: int)
    requires i < |s|
    ensures SumInt(s[i := v]) == SumInt(s) - s[i] + v
  {
    if i == |s| - 1 {
      assert s[i := v][..|s| - 1] == s[..|s| - 1];
    } else {
      assert s[i := v][..|s| - 1] == s[..|s| - 1][i := v];
      SumIntUpdate(s[..|s| - 1], i, v);
    }
  }

  /** The sum of the values of a map. */
  ghost function SumMap(m: map<nat, int>): int {
    if m == map[] then 0
    else
      var k :| k in m;
      m[k] + SumMap(m - {k})
  }

  lemma {:induction false} SumMapRemove(m: map<nat, int>, k: nat)
    requires k in m
    ensures SumMap(m) == m[k] + SumMap(m - {k})
    decreases |m|
  {
    var j :| j in m && SumMap(m) == m[j] + SumMap(m - {j});
    if j != k {
      SumMapRemove(m - {j}, k);
      SumMapRemove(m - {k}, j);
      assert m - {j} - {k} == m - {k} - {j};
    }
  }

  /** Writing one entry moves the sum by the difference. */
  lemma SumMapUpdate(m: map<nat, int>, k: nat, v: int)
    ensures SumMap(m[k := v]) == SumMap(m) - (if k in m then m[k] else 0) + v
  {
    var n := m[k := v];
    SumMapRemove(n, k);
    if k in m {
      SumMapRemove(m, k);
      assert n - {k} == m - {k};
    } else {
      assert n - {k} == m;
    }
  }
}
