/** The sliding window of recent Z positions kept by STABLE_Z_HOME.

    The command keeps a list of stepper readings, appends one reading per
    homing attempt and cuts the list back to its last `window` entries.  Its
    spread (largest minus smallest reading) is only defined once the list
    holds a full window.  Readings are modelled as `real`: floating-point
    rounding is not part of this model.

    The functions here carry only quantifier-free contracts; the facts about
    every element of a list are lemmas, called where a proof needs them.
 */
module ZWindow {

  datatype Option<T> = None | Some(value: T)

  /** Fixed slack added to the tolerance to absorb floating-point noise. */
  const Slack: real := 0.0001

  /** Index of a largest reading among the first `n`. */
  function ArgMax(s: seq<real>, n: nat): (k: nat)
    requires 0 < n <= |s|
    ensures k < n
  {
    if n == 1 then 0
    else
      var k := ArgMax(s, n - 1);
      if s[n - 1] > s[k] then n - 1 else k
  }

  /** Index of a smallest reading among the first `n`. */
  function ArgMin(s: seq<real>, n: nat): (k: nat)
    requires 0 < n <= |s|
    ensures k < n
  {
    if n == 1 then 0
    else
      var k := ArgMin(s, n - 1);
      if s[n - 1] < s[k] then n - 1 else k
  }

  lemma {:induction false} ArgMaxIsLargest(s: seq<real>, n: nat)
    requires 0 < n <= |s|
    ensures forall i :: 0 <= i < n ==> s[i] <= s[ArgMax(s, n)]
  {
    if n > 1 {
      ArgMaxIsLargest(s, n - 1);
    }
  }

  lemma {:induction false} ArgMinIsSmallest(s: seq<real>, n: nat)
    requires 0 < n <= |s|
    ensures forall i :: 0 <= i < n ==> s[ArgMin(s, n)] <= s[i]
  {
    if n > 1 {
      ArgMinIsSmallest(s, n - 1);
    }
  }

  /** Python's `max` of a non-empty list. */
  function Max(s: seq<real>): (m: real)
    requires |s| > 0
    ensures m in s
  {
    s[ArgMax(s, |s|)]
  }

  /** Python's `min` of a non-empty list. */
  function Min(s: seq<real>): (m: real)
    requires |s| > 0
    ensures m in s
  {
    s[ArgMin(s, |s|)]
  }

  /** The spread `max(s) - min(s)`. */
  function Range(s: seq<real>): (r: real)
    requires |s| > 0
  {
    Max(s) - Min(s)
  }

  /** The spread is the least bound on the difference of two readings: it
      is never negative, it bounds every pair, and some pair is exactly that
      far apart. */
  lemma RangeIsSpread(s: seq<real>)
    requires |s| > 0
    ensures Range(s) >= 0.0
    ensures forall i, j :: 0 <= i < |s| && 0 <= j < |s| ==> s[i] - s[j] <= Range(s)
    ensures exists i, j :: 0 <= i < |s| && 0 <= j < |s| && s[i] - s[j] == Range(s)
  {
    ArgMaxIsLargest(s, |s|);
    ArgMinIsSmallest(s, |s|);
    var i, j := ArgMax(s, |s|), ArgMin(s, |s|);
    assert s[i] - s[j] == Range(s);
  }

  /** The spread depends only on which readings the window holds, not on
      their order. */
  lemma RangeOfSameContents(a: seq<real>, b: seq<real>)
    requires |a| > 0 && multiset(a) == multiset(b)
    ensures |b| > 0
    ensures Range(a) == Range(b)
  {
    assert |b| == |multiset(b)| == |multiset(a)| == |a|;
    ArgMaxIsLargest(a, |a|);
    ArgMinIsSmallest(a, |a|);
    ArgMaxIsLargest(b, |b|);
    ArgMinIsSmallest(b, |b|);
    var ma, mb := Max(a), Max(b);
    assert ma in multiset(b);
    assert mb in multiset(a);
    var la, lb := Min(a), Min(b);
    assert la in multiset(b);
    assert lb in multiset(a);
    assert ma == mb && la == lb;
  }

  /** Python's `s[-k:]` for `k > 0`: the last `k` readings, or all of them
      when there are fewer. */
  function LastK(s: seq<real>, k: nat): (w: seq<real>)
    requires k > 0
    ensures |w| == if |s| <= k then |s| else k
  {
    if |s| <= k then s else s[|s| - k..]
  }

  /** The window range: `max - min` once the list holds `window` readings,
      undefined (`None`) before. */
  function WindowRange(w: seq<real>, window: nat): (r: Option<real>)
    requires window >= 3
    ensures r.Some? <==> |w| == window
  {
    if |w| == window then Some(Range(w)) else None
  }

  /** A window has converged when its range is defined and within the
      tolerance plus the fixed slack. */
  predicate Converged(range: Option<real>, tolerance: real)
  {
    range.Some? && range.value <= tolerance + Slack
  }
}
