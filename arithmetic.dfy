/** Temperature + x and Temperature - x on values: a number shifts the
    magnitude in place, a temperature in the same scale adds magnitudes,
    and temperatures in different scales are both taken to Kelvin first. */
module Arithmetic {
  import opened Wrappers
  import opened Scales
  import opened Readings

  /** The right operand of + or -: a number, a temperature, or anything else. */
  datatype Addend = NumberAddend(n: Number) | TemperatureAddend(t: Reading) | OtherAddend

  /** __add__: the new temperature, or TypeError for an operand that is neither. */
  function Sum(a: Reading, b: Addend): (r: Result<Reading>)
    ensures r.Err? <==> b.OtherAddend?
    ensures r.Err? ==> r.error == TypeError
  {
    match b
    case NumberAddend(n) => Ok(a.(value := Plus(a.value, n)))
    case OtherAddend => Err(TypeError)
    case TemperatureAddend(t) =>
      if a.scale == t.scale then Ok(a.(value := Plus(a.value, t.value)))
      else Ok(Reading(Float(Kelvin(a) + Kelvin(t)), K, K))
  }

  /** __sub__: the same three cases as __add__, subtracting. */
  function Difference(a: Reading, b: Addend): (r: Result<Reading>)
    ensures r.Err? <==> b.OtherAddend?
    ensures r.Err? ==> r.error == TypeError
  {
    match b
    case NumberAddend(n) => Ok(a.(value := Minus(a.value, n)))
    case OtherAddend => Err(TypeError)
    case TemperatureAddend(t) =>
      if a.scale == t.scale then Ok(a.(value := Minus(a.value, t.value)))
      else Ok(Reading(Float(Kelvin(a) - Kelvin(t)), K, K))
  }

  /** Adding or subtracting a number moves the magnitude by that number and
      keeps both scales; ints combine to an int. */
  lemma NumberArithmetic(a: Reading, n: Number)
    ensures Sum(a, NumberAddend(n)).Ok? && Difference(a, NumberAddend(n)).Ok?
    ensures var r := Sum(a, NumberAddend(n)).value;
      && r.value.Real() == a.value.Real() + n.Real()
      && r.scale == a.scale && r.dscale == a.dscale
      && (r.value.Int? <==> a.value.Int? && n.Int?)
    ensures var r := Difference(a, NumberAddend(n)).value;
      && r.value.Real() == a.value.Real() - n.Real()
      && r.scale == a.scale && r.dscale == a.dscale
      && (r.value.Int? <==> a.value.Int? && n.Int?)
  {
  }

  /** Subtracting what was added gives back the magnitude and both scales;
      for ints the very same value. */
  lemma {:induction false} NumberRoundTrip(a: Reading, n: Number)
    ensures var r := Difference(Sum(a, NumberAddend(n)).value, NumberAddend(n));
      && r.Ok? && r.value.value.Real() == a.value.Real()
      && r.value.scale == a.scale && r.value.dscale == a.dscale
      && (a.value.Int? && n.Int? ==> r == Ok(a))
  {
    var s := Sum(a, NumberAddend(n)).value;
    assert s.value.Real() == a.value.Real() + n.Real();
    var r := Difference(s, NumberAddend(n)).value;
    assert r.value.Real() == s.value.Real() - n.Real();
  }

  /** Two temperatures in the same scale: the magnitudes add (subtract) and
      the left operand's scale and display scale are kept. */
  lemma SameScaleArithmetic(a: Reading, b: Reading)
    requires a.scale == b.scale
    ensures Sum(a, TemperatureAddend(b)).Ok? && Difference(a, TemperatureAddend(b)).Ok?
    ensures var r := Sum(a, TemperatureAddend(b)).value;
      && r.value.Real() == a.value.Real() + b.value.Real()
      && r.scale == a.scale && r.dscale == a.dscale
    ensures var r := Difference(a, TemperatureAddend(b)).value;
      && r.value.Real() == a.value.Real() - b.value.Real()
      && r.scale == a.scale && r.dscale == a.dscale
  {
  }

  /** Two temperatures in different scales: the result is a float in Kelvin,
      displayed in Kelvin, holding the sum (difference) of the two Kelvin
      readings. */
  lemma MixedScaleResult(a: Reading, b: Reading)
    requires a.scale != b.scale
    ensures Sum(a, TemperatureAddend(b)) == Ok(Reading(Float(Kelvin(a) + Kelvin(b)), K, K))
    ensures Difference(a, TemperatureAddend(b)) == Ok(Reading(Float(Kelvin(a) - Kelvin(b)), K, K))
    ensures Kelvin(Sum(a, TemperatureAddend(b)).value) == Kelvin(a) + Kelvin(b)
    ensures Kelvin(Difference(a, TemperatureAddend(b)).value) == Kelvin(a) - Kelvin(b)
  {
  }

  /** The Kelvin reading of a sum is the sum of the Kelvin readings exactly
      when the operands' scales differ or are both Kelvin: 0C + 0C is 0C,
      not 273.15K + 273.15K. */
  lemma {:induction false} KelvinSumAgreement(a: Reading, b: Reading)
    ensures Kelvin(Sum(a, TemperatureAddend(b)).value) == Kelvin(a) + Kelvin(b)
        <==> a.scale != b.scale || a.scale == K
  {
    if a.scale == b.scale {
      var x, y := a.value.Real(), b.value.Real();
      assert Kelvin(Sum(a, TemperatureAddend(b)).value) == Convert(a.scale, K, x + y);
      match a.scale
      case C =>
        assert Convert(C, K, x + y) == Convert(C, K, x) + Convert(C, K, y) - 273.15;
      case F =>
        assert Convert(F, K, x + y) == Convert(F, K, x) + Convert(F, K, y) - 459.67 * 5.0 / 9.0;
      case K =>
    } else {
      MixedScaleResult(a, b);
    }
  }

  /** Because of that, + does not respect ==: equal operands can give
      unequal sums (0C + 0C against 0C + 273.15K). */
  lemma SumNotCongruent()
    ensures var zero, kelvin := Reading(Int(0), C, C), Reading(Float(273.15), K, K);
      && Equal(zero, kelvin)
      && Sum(zero, TemperatureAddend(zero)) == Ok(Reading(Int(0), C, C))
      && Sum(zero, TemperatureAddend(kelvin)) == Ok(Reading(Float(546.3), K, K))
      && !Equal(Sum(zero, TemperatureAddend(zero)).value, Sum(zero, TemperatureAddend(kelvin)).value)
  {
    var zero, kelvin := Reading(Int(0), C, C), Reading(Float(273.15), K, K);
    assert Kelvin(zero) == 273.15 && Kelvin(kelvin) == 273.15;
    assert Sum(zero, TemperatureAddend(zero)).value.value == Int(0);
    assert Kelvin(Reading(Float(546.3), K, K)) == 546.3;
  }

  /** Adding two temperatures commutes up to ==: the magnitudes agree and so
      does the scale; only the display scale follows the left operand. */
  lemma SumCommutes(a: Reading, b: Reading)
    ensures var ab, ba := Sum(a, TemperatureAddend(b)).value, Sum(b, TemperatureAddend(a)).value;
      && ab.value.Real() == ba.value.Real() && ab.scale == ba.scale
      && Equal(ab, ba)
      && (a.scale != b.scale ==> ab == ba)
      && (a.scale == b.scale ==> ab.dscale == a.dscale && ba.dscale == b.dscale)
  {
  }

  /** Subtracting a temperature in the same scale undoes adding it, up to
      the int/float tag. */
  lemma {:induction false} SameScaleRoundTrip(a: Reading, b: Reading)
    requires a.scale == b.scale
    ensures var r := Difference(Sum(a, TemperatureAddend(b)).value, TemperatureAddend(b));
      && r.Ok? && r.value.value.Real() == a.value.Real()
      && r.value.scale == a.scale && r.value.dscale == a.dscale
  {
    var s := Sum(a, TemperatureAddend(b)).value;
    assert s.value.Real() == a.value.Real() + b.value.Real();
    assert s.scale == b.scale;
  }

  /** A temperature minus itself is zero in its own scale. */
  lemma DifferenceSelfIsZero(a: Reading)
    ensures var r := Difference(a, TemperatureAddend(a));
      && r.Ok? && r.value.value.Real() == 0.0 && r.value.scale == a.scale
  {
  }

  /** Worked examples of mixed-scale arithmetic: 32F + 0C is 546.3K and
      32F - 0C is 0K; 10C - 30C + 20C is 0C. */
  lemma ArithmeticSamples()
    ensures Sum(Reading(Int(32), F, F), TemperatureAddend(Reading(Int(0), C, C)))
         == Ok(Reading(Float(546.3), K, K))
    ensures Difference(Reading(Int(32), F, F), TemperatureAddend(Reading(Int(0), C, C)))
         == Ok(Reading(Float(0.0), K, K))
    ensures Sum(Difference(Reading(Int(10), C, C), TemperatureAddend(Reading(Int(30), C, C))).value,
                TemperatureAddend(Reading(Int(20), C, C)))
         == Ok(Reading(Int(0), C, C))
    ensures Sum(Reading(Int(5), K, F), NumberAddend(Float(0.5))) == Ok(Reading(Float(5.5), K, F))
  {
  }
}
