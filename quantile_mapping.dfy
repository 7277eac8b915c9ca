/**
 * Nearest-rank empirical quantile mapping: `closest` and `eqmres_bias_correction`.
 * A forecast total is located among the sorted hindcast totals by the last index of least
 * absolute distance, and the observed total of the same rank is returned.
 */
module QuantileMapping {
  import opened Outcomes

  function Abs(x: real): (r: real)
    ensures r >= 0.0 && (r == x || r == -x)
  {
    if x < 0.0 then -x else x
  }

  predicate SortedAsc(s: seq<real>) {
    forall i, j :: 0 <= i < j < |s| ==> s[i] <= s[j]
  }

  /** Inserts `x` into a sorted sequence. */
  function Insert(x: real, s: seq<real>): (r: seq<real>)
    requires SortedAsc(s)
    ensures SortedAsc(r) && multiset(r) == multiset(s) + multiset{x}
  {
    if |s| == 0 then [x]
    else if x <= s[0] then
      PrependSmallest(x, s);
      [x] + s
    else
      var t := Insert(x, s[1..]);
      InsertBehindHead(x, s, t);
      [s[0]] + t
  }

  /** A value no greater than the head of a sorted sequence can go in front of it. */
  lemma PrependSmallest(x: real, s: seq<real>)
    requires SortedAsc(s) && |s| > 0 && x <= s[0]
    ensures SortedAsc([x] + s)
  {
    PrependSorted(x, s);
  }

  /** Keeping the head and inserting a larger value into the tail keeps the order and the values. */
  lemma InsertBehindHead(x: real, s: seq<real>, t: seq<real>)
    requires SortedAsc(s) && |s| > 0 && s[0] < x
    requires SortedAsc(t) && multiset(t) == multiset(s[1..]) + multiset{x}
    ensures SortedAsc([s[0]] + t) && multiset([s[0]] + t) == multiset(s) + multiset{x}
  {
    assert s == [s[0]] + s[1..];
    forall i | 0 <= i < |t|
      ensures s[0] <= t[i]
    {
      assert t[i] in multiset(t);
      assert t[i] == x || t[i] in multiset(s[1..]);
    }
    PrependSorted(s[0], t);
  }

  /** A value no greater than every element of a sorted sequence can go in front of it. */
  lemma PrependSorted(a: real, t: seq<real>)
    requires SortedAsc(t) && forall i :: 0 <= i < |t| ==> a <= t[i]
    ensures SortedAsc([a] + t)
  {
    var r := [a] + t;
    forall i, j | 0 <= i < j < |r|
      ensures r[i] <= r[j]
    {
      assert r[j] == t[j - 1];
      if i > 0 {
        assert r[i] == t[i - 1];
      }
    }
  }

  /** `np.sort`: the ascending arrangement of the same values. */
  function Sort(s: seq<real>): (r: seq<real>)
    ensures SortedAsc(r) && multiset(r) == multiset(s)
  {
    if |s| == 0 then []
    else
      assert s == [s[0]] + s[1..];
      Insert(s[0], Sort(s[1..]))
  }

  /** The least element of a non-empty sorted sequence is its head. */
  lemma SortedHeadIsMin(s: seq<real>, t: seq<real>)
    requires SortedAsc(s) && SortedAsc(t) && |s| > 0 && multiset(s) == multiset(t)
    ensures s[0] == t[0]
  {
    assert s[0] in multiset(t) && t[0] in multiset(s);
    assert s[0] in t && t[0] in s;
  }

  /** Two sorted sequences holding the same multiset of values are equal. */
  lemma {:induction false} SortedUnique(s: seq<real>, t: seq<real>)
    requires SortedAsc(s) && SortedAsc(t) && multiset(s) == multiset(t)
    ensures s == t
    decreases |s|
  {
    assert |s| == |multiset(s)| == |multiset(t)| == |t|;
    if |s| > 0 {
      SortedHeadIsMin(s, t);
      SameTails(s, t);
      SortedUnique(s[1..], t[1..]);
    }
  }

  /** Removing the same head from two sequences with the same values leaves tails with the same values. */
  lemma SameTails(s: seq<real>, t: seq<real>)
    requires |s| > 0 && |t| > 0 && s[0] == t[0] && multiset(s) == multiset(t)
    ensures multiset(s[1..]) == multiset(t[1..])
  {
    assert multiset(s) == multiset{s[0]} + multiset(s[1..]) by {
      assert s == [s[0]] + s[1..];
    }
    assert multiset(t) == multiset{t[0]} + multiset(t[1..]) by {
      assert t == [t[0]] + t[1..];
    }
    assert multiset(s[1..]) == multiset(s) - multiset{s[0]};
    assert multiset(t[1..]) == multiset(t) - multiset{t[0]};
  }

  /** The list `aux` of `closest`: the distance of each reference value to the target. */
  function Distances(target: real, s: seq<real>): (d: seq<real>)
    ensures |d| == |s| && forall i :: 0 <= i < |s| ==> d[i] == Abs(target - s[i])
  {
    seq(|s|, i requires 0 <= i < |s| => Abs(target - s[i]))
  }

  /**
   * `k` is the index `np.where(aux == np.min(aux))[-1][-1]` picks: its distance is the
   * least, and no later index attains it.
   */
  predicate IsLastArgMin(d: seq<real>, k: int) {
    0 <= k < |d| &&
    (forall j :: 0 <= j < |d| ==> d[k] <= d[j]) &&
    (forall j :: k < j < |d| ==> d[k] < d[j])
  }

  /** A reference definition of the last index of the minimum, by recursion on the prefix. */
  function LastArgMin(d: seq<real>): (k: nat)
    requires |d| > 0
    ensures IsLastArgMin(d, k)
  {
    if |d| == 1 then 0
    else
      var k := LastArgMin(d[..|d| - 1]);
      assert forall j :: 0 <= j < |d| - 1 ==> d[..|d| - 1][j] == d[j];
      if d[|d| - 1] <= d[k] then |d| - 1 else k
  }

  /** At most one index is the last index of the minimum. */
  lemma LastArgMinUnique(d: seq<real>, k: int, k': int)
    requires IsLastArgMin(d, k) && IsLastArgMin(d, k')
    ensures k == k'
  {
    assert d[k] <= d[k'] && d[k'] <= d[k];
  }

  /** What `closest` returns: None where `np.min` of the empty list raises. */
  function ClosestIndex(target: real, clim: seq<real>): (r: Option<nat>)
    ensures r.None? <==> |clim| == 0
    ensures r.Some? ==> IsLastArgMin(Distances(target, clim), r.value)
  {
    if |clim| == 0 then None else Some(LastArgMin(Distances(target, clim)))
  }

  /**
   * `closest`: build the distances in a loop, take their minimum, and keep the last index
   * holding it.
   */
  method Closest(target: real, clim: seq<real>) returns (r: Option<nat>)
    ensures r.None? <==> |clim| == 0
    ensures r.Some? ==> IsLastArgMin(Distances(target, clim), r.value)
    ensures r == ClosestIndex(target, clim)
  {
    var aux: seq<real> := [];
    for ii := 0 to |clim|
      invariant |aux| == ii
      invariant forall j :: 0 <= j < ii ==> aux[j] == Abs(target - clim[j])
    {
      aux := aux + [Abs(target - clim[ii])];
    }
    assert aux == Distances(target, clim);
    if |aux| == 0 {
      return None;
    }
    var minValue := aux[0];
    for ii := 1 to |aux|
      invariant exists j :: 0 <= j < ii && aux[j] == minValue
      invariant forall j :: 0 <= j < ii ==> minValue <= aux[j]
    {
      if aux[ii] < minValue {
        minValue := aux[ii];
      }
    }
    var idx := 0;
    for ii := 0 to |aux|
      invariant 0 <= idx < |aux|
      invariant (exists j :: ii <= j < |aux| && aux[j] == minValue) || aux[idx] == minValue
      invariant forall j :: idx < j < ii ==> aux[j] != minValue
    {
      if aux[ii] == minValue {
        idx := ii;
      }
    }
    assert IsLastArgMin(aux, idx);
    LastArgMinUnique(aux, idx, LastArgMin(aux));
    r := Some(idx);
  }

  /** The example from the tie-break rule: the later of two equal candidates wins. */
  lemma ClosestTieExample()
    ensures ClosestIndex(20.0, [10.0, 20.0, 20.0, 30.0]) == Some(2)
  {
    var d := Distances(20.0, [10.0, 20.0, 20.0, 30.0]);
    assert d[0] == 10.0 && d[1] == 0.0 && d[2] == 0.0 && d[3] == 10.0;
    assert IsLastArgMin(d, 2);
    LastArgMinUnique(d, 2, LastArgMin(d));
  }

  /**
   * `eqmres_bias_correction`: the observed total of the rank whose sorted hindcast total is
   * closest to the forecast total (the last such rank on a tie).
   */
  function Eqm(hind: seq<real>, obs: seq<real>, fcst: real): (r: Result<real, Error>)
    ensures r.Success? ==> r.value in obs
    ensures r.Failure? ==> r.error == EmptyReference || r.error == RankOutOfRange
    ensures |hind| == 0 <==> r == Failure(EmptyReference)
    ensures 0 < |hind| <= |obs| ==> r.Success?
    ensures r == Failure(RankOutOfRange) <==> |hind| > 0 && LastArgMin(Distances(fcst, Sort(hind))) >= |obs|
  {
    var xsHind := Sort(hind);
    var xsObs := Sort(obs);
    assert |xsHind| == |multiset(hind)| == |hind| && |xsObs| == |multiset(obs)| == |obs|;
    match ClosestIndex(fcst, xsHind)
    case None => Failure(EmptyReference)
    case Some(k) =>
      if k < |xsObs| then
        assert xsObs[k] in multiset(obs);
        Success(xsObs[k])
      else Failure(RankOutOfRange)
  }

  /** The same computation with `closest` run as its loop. */
  method EqmResBiasCorrection(hind: seq<real>, obs: seq<real>, fcst: real) returns (r: Result<real, Error>)
    ensures r == Eqm(hind, obs, fcst)
  {
    var xsHind := Sort(hind);
    var xsObs := Sort(obs);
    var idx := Closest(fcst, xsHind);
    match idx
    case None =>
      r := Failure(EmptyReference);
    case Some(k) =>
      if k < |xsObs| {
        r := Success(xsObs[k]);
      } else {
        r := Failure(RankOutOfRange);
      }
  }

  /** Reordering the hindcast or the observations does not change the correction. */
  lemma EqmPermutationInvariant(hind: seq<real>, hind': seq<real>, obs: seq<real>, obs': seq<real>, fcst: real)
    requires multiset(hind) == multiset(hind') && multiset(obs) == multiset(obs')
    ensures Eqm(hind, obs, fcst) == Eqm(hind', obs', fcst)
  {
    SortedUnique(Sort(hind), Sort(hind'));
    SortedUnique(Sort(obs), Sort(obs'));
  }

  /** When the hindcast and the observations agree, a forecast equal to one of them is left as it is. */
  lemma EqmIdentity(hind: seq<real>, obs: seq<real>, fcst: real)
    requires multiset(hind) == multiset(obs) && fcst in hind
    ensures Eqm(hind, obs, fcst) == Success(fcst)
  {
    var xs, ys := Sort(hind), Sort(obs);
    SortedUnique(xs, ys);
    assert fcst in multiset(hind);
    assert fcst in multiset(xs);
    var m :| 0 <= m < |xs| && xs[m] == fcst;
    var k := ClosestAt(fcst, xs, m);
    assert ys[k] == fcst;
    assert ClosestIndex(fcst, xs) == Some(k);
  }

  /** A target that occurs in the references is its own closest value. */
  lemma ClosestAt(target: real, xs: seq<real>, m: nat) returns (k: nat)
    requires m < |xs| && xs[m] == target
    ensures |xs| > 0 && k == LastArgMin(Distances(target, xs))
    ensures k < |xs| && xs[k] == target
  {
    var d := Distances(target, xs);
    k := LastArgMin(d);
    assert d[k] <= d[m] == 0.0;
    assert Abs(target - xs[k]) == d[k] == 0.0;
  }

  /** Of two references a <= b, if b is at least as close to a target, it stays so for any larger target. */
  lemma UpperStaysCloser(a: real, b: real, f1: real, f2: real)
    requires a <= b && f1 <= f2 && Abs(f1 - b) <= Abs(f1 - a)
    ensures Abs(f2 - b) <= Abs(f2 - a)
  {
  }

  /** On sorted references, a larger target never moves the closest index down. */
  lemma LastArgMinMonotone(xs: seq<real>, f1: real, f2: real)
    requires SortedAsc(xs) && |xs| > 0 && f1 <= f2
    ensures LastArgMin(Distances(f1, xs)) <= LastArgMin(Distances(f2, xs))
  {
    var d1, d2 := Distances(f1, xs), Distances(f2, xs);
    var k1 := LastArgMin(d1);
    forall j | 0 <= j < k1
      ensures d2[k1] <= d2[j]
    {
      UpperStaysCloser(xs[j], xs[k1], f1, f2);
    }
  }

  /** The correction preserves the order of forecast totals. */
  lemma EqmMonotone(hind: seq<real>, obs: seq<real>, f1: real, f2: real)
    requires Eqm(hind, obs, f1).Success? && Eqm(hind, obs, f2).Success? && f1 <= f2
    ensures Eqm(hind, obs, f1).value <= Eqm(hind, obs, f2).value
  {
    var k1 := EqmRank(hind, obs, f1);
    var k2 := EqmRank(hind, obs, f2);
    LastArgMinMonotone(Sort(hind), f1, f2);
    SortedAt(Sort(obs), k1, k2);
  }

  /** In a sorted sequence a later element is no smaller. */
  lemma SortedAt(s: seq<real>, i: nat, j: nat)
    requires SortedAsc(s) && i <= j < |s|
    ensures s[i] <= s[j]
  {
  }

  /** A successful correction is the sorted observation at the rank `closest` picks. */
  lemma EqmRank(hind: seq<real>, obs: seq<real>, fcst: real) returns (k: nat)
    requires Eqm(hind, obs, fcst).Success?
    ensures |Sort(hind)| > 0 && k == LastArgMin(Distances(fcst, Sort(hind)))
    ensures k < |Sort(obs)| && Eqm(hind, obs, fcst).value == Sort(obs)[k]
  {
    k := ClosestIndex(fcst, Sort(hind)).value;
  }
}
