/** Optional values, filtering, and the choice the controller makes wherever
    the game picks one element of a list "at random".

    The game's `pick` is modelled as an oracle: `Pick(s, k)` returns the element
    at `k % |s|`. Every element is reachable by some oracle value
    (`PickReachesEvery`), so quantifying over `k` covers every outcome the random
    choice can have, without modelling the distribution. */
module Choice {

  /** A value that may be absent; stands for JavaScript's `undefined`/`null`. */
  datatype Option<+T> = None | Some(value: T)

  /** The elements of `s` that satisfy `p` (`Array.prototype.filter`): no
      others, and each of them. */
  function Filter<T(==)>(s: seq<T>, p: T -> bool): (r: seq<T>)
    ensures |r| <= |s|
    ensures forall i :: 0 <= i < |r| ==> r[i] in s && p(r[i])
    ensures forall i :: 0 <= i < |s| && p(s[i]) ==> s[i] in r
  {
    if |s| == 0 then []
    else if p(s[0]) then [s[0]] + Filter(s[1..], p)
    else Filter(s[1..], p)
  }

  /** `pick(s)`: one element of `s` chosen by the oracle `k`, or nothing when
      `s` is empty. */
  function Pick<T(==)>(s: seq<T>, k: nat): (r: Option<T>)
    ensures r.None? <==> |s| == 0
    ensures r.Some? ==> r.value in s
  {
    if |s| == 0 then None else Some(s[k % |s|])
  }

  /** Every element of a list can be the outcome of `pick`. */
  lemma PickReachesEvery<T>(s: seq<T>, x: T)
    requires x in s
    ensures exists k: nat :: Pick(s, k) == Some(x)
  {
    var i :| 0 <= i < |s| && s[i] == x;
    assert i % |s| == i;
    assert Pick(s, i) == Some(x);
  }

  /** Picking from a filtered list can return any element of the list that
      passes the filter, and only those. */
  lemma PickFilterReaches<T>(s: seq<T>, p: T -> bool, x: T)
    requires x in s && p(x)
    ensures exists k: nat :: Pick(Filter(s, p), k) == Some(x)
  {
    PickReachesEvery(Filter(s, p), x);
  }
}
