/** formatFloatSmart: the value a number is shown as. With rounding on, the
    engine rounds val·100 with math.Round and divides by 100; with rounding
    off it shows val as is. math.Round is passed in, like the other functions
    of Go's math package; RoundHalfAway is its law (the nearest integer,
    halves away from zero). The rendering of the value as text is not
    modelled. */
module Format {

  /** The request's use_rounding flag together with math.Round. */
  datatype FloatFormat = FloatFormat(useRounding: bool, round: real -> real)

  /** math.Round: the nearest integer, halves rounded away from zero. */
  function RoundHalfAway(v: real): (r: int)
    ensures v - 0.5 <= r as real <= v + 0.5
    ensures v >= 0.0 ==> r >= 0
    ensures v <= 0.0 ==> r <= 0
  {
    if v >= 0.0 then (v + 0.5).Floor else -((-v + 0.5).Floor)
  }

  /** Ties go away from zero: exactly half-way between k and k + 1 (k >= 0)
      rounds to k + 1, and the mirror image rounds to -(k + 1). */
  lemma {:induction false} RoundTiesAway(k: nat)
    ensures RoundHalfAway(k as real + 0.5) == k + 1
    ensures RoundHalfAway(-(k as real + 0.5)) == -(k + 1)
  {
    assert (k as real + 0.5 + 0.5) == (k + 1) as real;
  }

  /** Rounding is symmetric about zero. */
  lemma RoundOdd(v: real)
    ensures RoundHalfAway(-v) == -RoundHalfAway(v)
  {
    if v == 0.0 {
      assert -v == 0.0;
    }
  }

  /** An integer rounds to itself. */
  lemma RoundInteger(k: int)
    ensures RoundHalfAway(k as real) == k
  {
  }

  /** round behaves as math.Round. */
  ghost predicate IsRound(round: real -> real)
  {
    forall v :: round(v) == RoundHalfAway(v) as real
  }

  /** The value formatFloatSmart shows for val. */
  function Displayed(val: real, fmt: FloatFormat): real
  {
    if fmt.useRounding then fmt.round(val * 100.0) / 100.0 else val
  }

  /** Without rounding the value is shown as it is; with rounding it moves
      by at most half a hundredth. */
  lemma DisplayedError(val: real, fmt: FloatFormat)
    requires IsRound(fmt.round)
    ensures !fmt.useRounding ==> Displayed(val, fmt) == val
    ensures val - 0.005 <= Displayed(val, fmt) <= val + 0.005
  {
    var r := RoundHalfAway(val * 100.0) as real;
    assert val * 100.0 - 0.5 <= r <= val * 100.0 + 0.5;
  }

  /** A value with at most two decimals (k hundredths) is shown unchanged. */
  lemma DisplayedHundredths(k: int, fmt: FloatFormat)
    requires IsRound(fmt.round)
    ensures Displayed(k as real / 100.0, fmt) == k as real / 100.0
  {
    assert (k as real / 100.0) * 100.0 == k as real;
    RoundInteger(k);
  }

  /** Rounding a shown value again changes nothing. */
  lemma DisplayedIdempotent(val: real, fmt: FloatFormat)
    requires IsRound(fmt.round)
    ensures Displayed(Displayed(val, fmt), fmt) == Displayed(val, fmt)
  {
    if fmt.useRounding {
      DisplayedHundredths(RoundHalfAway(val * 100.0), fmt);
    }
  }

  /** Two exact cases: 2.345 is shown as 2.35 and -2.345 as -2.35. */
  lemma DisplayedExamples(round: real -> real)
    requires IsRound(round)
    ensures Displayed(2.345, FloatFormat(true, round)) == 2.35
    ensures Displayed(-2.345, FloatFormat(true, round)) == -2.35
  {
    RoundTiesAway(234);
    assert 2.345 * 100.0 == 234.0 + 0.5;
    assert -2.345 * 100.0 == -(234.0 + 0.5);
  }
}
