/** The two scans the log fits run over the samples before fitting: the
    running minimum of x (the exponential fit's shift) and the search for
    the first value that is not positive (the guard of both log fits). */
module Scans {
  import opened Outcomes

  /** minX after the loop has looked at the first k values of x, starting
      from x[0] and replacing it only by a strictly smaller value. */
  function RunningMin(x: seq<real>, k: nat): (m: real)
    requires 0 < |x| && k <= |x|
    ensures forall i :: 0 <= i < k ==> m <= x[i]
    ensures m <= x[0]
    ensures exists i :: 0 <= i < |x| && i <= k && x[i] == m
  {
    if k == 0 then x[0]
    else
      var prev := RunningMin(x, k - 1);
      if x[k - 1] < prev then x[k - 1] else prev
  }

  /** The minimum of x as the engine's scan finds it. */
  function MinOf(x: seq<real>): real
    requires 0 < |x|
  {
    RunningMin(x, |x|)
  }

  /** The scan finds the minimum: an element of x that no element is below. */
  lemma MinOfIsMinimum(x: seq<real>)
    requires 0 < |x|
    ensures MinOf(x) in x
    ensures forall i :: 0 <= i < |x| ==> MinOf(x) <= x[i]
  {
    var i :| 0 <= i < |x| && i <= |x| && x[i] == MinOf(x);
    assert x[i] in x;
  }

  /** An element no element is below is the one the scan finds. */
  lemma MinOfUnique(x: seq<real>, m: real)
    requires 0 < |x| && m in x && forall i :: 0 <= i < |x| ==> m <= x[i]
    ensures MinOf(x) == m
  {
    MinOfIsMinimum(x);
    var j :| 0 <= j < |x| && x[j] == m;
  }

  /** The index of the first value of s at or after i that is not positive. */
  function FirstNonPositiveFrom(s: seq<real>, i: nat): (r: Option<nat>)
    requires i <= |s|
    ensures r.Some? ==> i <= r.value < |s| && s[r.value] <= 0.0
    ensures r.Some? ==> forall j :: i <= j < r.value ==> s[j] > 0.0
    ensures r.None? <==> forall j :: i <= j < |s| ==> s[j] > 0.0
    decreases |s| - i
  {
    if i == |s| then None
    else if s[i] <= 0.0 then Some(i)
    else FirstNonPositiveFrom(s, i + 1)
  }

  /** The index the engine reports when it refuses a log fit. */
  function FirstNonPositive(s: seq<real>): Option<nat>
  {
    FirstNonPositiveFrom(s, 0)
  }

  /** A left-to-right scan that stops at the first value that is not
      positive stops at the index FirstNonPositive names; one that reaches
      the end finds none. */
  lemma FirstNonPositiveIs(s: seq<real>, i: nat)
    requires i <= |s| && forall j :: 0 <= j < i ==> s[j] > 0.0
    ensures i < |s| && s[i] <= 0.0 ==> FirstNonPositive(s) == Some(i)
    ensures i == |s| ==> FirstNonPositive(s) == None
  {
  }
}
