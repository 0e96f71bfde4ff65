/** The value a Temperature holds (magnitude, storage scale, display scale),
    the derived display value, and the six comparison operators, which all
    compare Kelvin readings. */
module Readings {
  import opened Scales

  /** A Python magnitude: an int or a float. Floats are modelled as exact reals. */
  datatype Number = Int(i: int) | Float(x: real)
  {
    function Real(): real
    {
      match this
      case Int(i) => i as real
      case Float(x) => x
    }
  }

  /** Python's + on numbers: the sum is an int only when both operands are. */
  function Plus(a: Number, b: Number): (r: Number)
    ensures r.Real() == a.Real() + b.Real()
    ensures r.Int? <==> a.Int? && b.Int?
  {
    if a.Int? && b.Int? then Int(a.i + b.i) else Float(a.Real() + b.Real())
  }

  /** Python's - on numbers: the difference is an int only when both operands are. */
  function Minus(a: Number, b: Number): (r: Number)
    ensures r.Real() == a.Real() - b.Real()
    ensures r.Int? <==> a.Int? && b.Int?
  {
    if a.Int? && b.Int? then Int(a.i - b.i) else Float(a.Real() - b.Real())
  }

  /** The state of one Temperature: the magnitude `value`, the scale it is
      stored in, and the scale `dscale` it is displayed in. */
  datatype Reading = Reading(value: Number, scale: Scale, dscale: Scale)

  /** The magnitude converted to Kelvin: the common ground of every comparison. */
  function Kelvin(t: Reading): real
  {
    Convert(t.scale, K, t.value.Real())
  }

  /** dvalue: the magnitude converted from the storage scale to the display scale. */
  function DisplayValue(t: Reading): real
  {
    Convert(t.scale, t.dscale, t.value.Real())
  }

  predicate Equal(a: Reading, b: Reading)
  {
    Kelvin(a) == Kelvin(b)
  }

  predicate NotEqual(a: Reading, b: Reading)
  {
    !Equal(a, b)
  }

  predicate Less(a: Reading, b: Reading)
  {
    Kelvin(a) < Kelvin(b)
  }

  predicate AtMost(a: Reading, b: Reading)
  {
    Less(a, b) || Equal(a, b)
  }

  predicate Greater(a: Reading, b: Reading)
  {
    Kelvin(a) > Kelvin(b)
  }

  predicate AtLeast(a: Reading, b: Reading)
  {
    Greater(a, b) || Equal(a, b)
  }

  /** Normalising to Kelvin is not essential: converting both operands to any
      one scale and comparing there gives the same answers. */
  lemma {:induction false} CompareInAnyScale(a: Reading, b: Reading, s: Scale)
    ensures Equal(a, b) <==> Convert(a.scale, s, a.value.Real()) == Convert(b.scale, s, b.value.Real())
    ensures Less(a, b) <==> Convert(a.scale, s, a.value.Real()) < Convert(b.scale, s, b.value.Real())
  {
    ConvertThroughKelvin(a.scale, s, a.value.Real());
    ConvertThroughKelvin(b.scale, s, b.value.Real());
    ConvertMonotonic(K, s, Kelvin(a), Kelvin(b));
  }

  /** Two temperatures stored in the same scale compare by their magnitudes. */
  lemma {:induction false} SameScaleCompare(a: Reading, b: Reading)
    requires a.scale == b.scale
    ensures Equal(a, b) <==> a.value.Real() == b.value.Real()
    ensures Less(a, b) <==> a.value.Real() < b.value.Real()
  {
    CompareInAnyScale(a, b, a.scale);
    IdentityConversion(a.scale, a.value.Real());
    IdentityConversion(a.scale, b.value.Real());
  }

  /** The display scale plays no part in any comparison. */
  lemma DisplayScaleIrrelevant(a: Reading, b: Reading, d: Scale)
    ensures Equal(a.(dscale := d), b) <==> Equal(a, b)
    ensures Less(a.(dscale := d), b) <==> Less(a, b)
    ensures Greater(a.(dscale := d), b) <==> Greater(a, b)
  {
  }

  /** != negates ==; <= is < or ==; >= is > or ==; > is < reversed; and
      exactly one of <, ==, > holds, so the order is total. */
  lemma OrderDecomposition(a: Reading, b: Reading)
    ensures NotEqual(a, b) <==> !Equal(a, b)
    ensures AtMost(a, b) <==> !Greater(a, b)
    ensures AtLeast(a, b) <==> !Less(a, b)
    ensures Greater(a, b) <==> Less(b, a)
    ensures Less(a, b) || Equal(a, b) || Greater(a, b)
    ensures !(Less(a, b) && Equal(a, b)) && !(Less(a, b) && Greater(a, b)) && !(Equal(a, b) && Greater(a, b))
  {
  }

  /** == is an equivalence and < a strict order. */
  lemma ComparisonLaws(a: Reading, b: Reading, c: Reading)
    ensures Equal(a, a) && !Less(a, a)
    ensures Equal(a, b) ==> Equal(b, a)
    ensures Equal(a, b) && Equal(b, c) ==> Equal(a, c)
    ensures Less(a, b) && Less(b, c) ==> Less(a, c)
  {
  }

  /** dvalue is the same temperature as the stored magnitude: converting it
      back to the storage scale gives the magnitude, and to Kelvin the Kelvin reading. */
  lemma {:induction false} DisplayValueSameTemperature(t: Reading)
    ensures Convert(t.dscale, t.scale, DisplayValue(t)) == t.value.Real()
    ensures Convert(t.dscale, K, DisplayValue(t)) == Kelvin(t)
  {
    ConvertRoundTrip(t.scale, t.dscale, t.value.Real());
    ConvertCompose(t.scale, t.dscale, K, t.value.Real());
  }

  /** 0C == 273.15K == 32F, and the orderings between 0C, 273.15K, 32F, 100C and 100F. */
  lemma ComparisonSamples()
    ensures var zeroC, kelvin, freezingF, hundredC, hundredF :=
      Reading(Int(0), C, C), Reading(Float(273.15), K, K), Reading(Int(32), F, F),
      Reading(Int(100), C, C), Reading(Int(100), F, F);
      && Equal(zeroC, kelvin) && Equal(zeroC, freezingF) && Equal(kelvin, freezingF)
      && !Equal(freezingF, hundredC) && !Equal(freezingF, hundredF) && !Equal(hundredC, hundredF)
      && Less(freezingF, hundredF) && Less(zeroC, hundredC) && !Less(hundredF, freezingF)
      && !AtMost(hundredC, zeroC) && !AtMost(hundredC, kelvin) && !AtLeast(hundredF, hundredC)
      && Greater(hundredC, freezingF) && Greater(hundredF, freezingF)
  {
  }

  /** dvalue samples: 0K shown in Celsius and in Fahrenheit, 32.0F shown in Celsius. */
  lemma DisplayValueSamples()
    ensures DisplayValue(Reading(Int(0), K, C)) == -273.15
    ensures DisplayValue(Reading(Int(0), K, F)) == -459.67
    ensures DisplayValue(Reading(Float(32.0), F, C)) == 0.0
    ensures DisplayValue(Reading(Float(32.0), F, F)) == 32.0
  {
  }
}
