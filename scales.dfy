/** The three temperature scales, their letters, and the nine linear
    conversions between them, over the reals. */
module Scales {
  import opened Wrappers

  datatype Scale = C | F | K

  /** The canonical (upper-case) letter under which a scale is stored. */
  function Letter(s: Scale): char
  {
    match s
    case C => 'C'
    case F => 'F'
    case K => 'K'
  }

  function LowerLetter(s: Scale): char
  {
    match s
    case C => 'c'
    case F => 'f'
    case K => 'k'
  }

  /** Reads one of the six qualifier letters "c C f F k K"; any other character is not a scale. */
  function ScaleOf(ch: char): (r: Option<Scale>)
    ensures r.Some? <==> ch in {'c', 'C', 'f', 'F', 'k', 'K'}
    ensures r.Some? ==> ch == Letter(r.value) || ch == LowerLetter(r.value)
  {
    match ch
    case 'c' => Some(C)
    case 'C' => Some(C)
    case 'f' => Some(F)
    case 'F' => Some(F)
    case 'k' => Some(K)
    case 'K' => Some(K)
    case _ => None
  }

  /** The nine converters c2c ... k2k as one table indexed by the pair of scales. */
  function Convert(from: Scale, to: Scale, v: real): real
  {
    match (from, to)
    case (C, C) => v
    case (C, F) => v * 1.8 + 32.0
    case (C, K) => v + 273.15
    case (F, C) => (v - 32.0) * 5.0 / 9.0
    case (F, F) => v
    case (F, K) => (v + 459.67) * 5.0 / 9.0
    case (K, C) => v - 273.15
    case (K, F) => v * 1.8 - 459.67
    case (K, K) => v
  }

  /** Both letters of a scale read back as that scale, and no other scale has them. */
  lemma LettersIdentifyScale(s: Scale, t: Scale)
    ensures ScaleOf(Letter(s)) == Some(s) && ScaleOf(LowerLetter(s)) == Some(s)
    ensures Letter(s) == Letter(t) <==> s == t
  {
  }

  /** c2c, f2f and k2k return their argument. */
  lemma IdentityConversion(s: Scale, v: real)
    ensures Convert(s, s, v) == v
  {
  }

  /** Converting to any scale by way of Kelvin gives the direct conversion. */
  lemma ConvertThroughKelvin(from: Scale, to: Scale, v: real)
    ensures Convert(K, to, Convert(from, K, v)) == Convert(from, to, v)
  {
  }

  /** Conversions compose: a -> b followed by b -> c is a -> c. */
  lemma {:induction false} ConvertCompose(a: Scale, b: Scale, c: Scale, v: real)
    ensures Convert(b, c, Convert(a, b, v)) == Convert(a, c, v)
  {
    var u := Convert(a, K, v);
    ConvertThroughKelvin(a, b, v);
    ConvertThroughKelvin(b, c, Convert(a, b, v));
    ConvertThroughKelvin(a, c, v);
    match b
    case K =>
    case C =>
      assert Convert(b, K, Convert(K, b, u)) == u;
    case F =>
      assert Convert(b, K, Convert(K, b, u)) == u;
  }

  /** Each conversion is undone by the conversion in the opposite direction:
      X2k then k2X is the identity, and c2f and f2c are mutual inverses. */
  lemma {:induction false} ConvertRoundTrip(a: Scale, b: Scale, v: real)
    ensures Convert(b, a, Convert(a, b, v)) == v
  {
    ConvertCompose(a, b, a, v);
    IdentityConversion(a, v);
  }

  /** Every conversion is strictly increasing, so it preserves order and equality. */
  lemma ConvertMonotonic(a: Scale, b: Scale, v: real, w: real)
    ensures v < w <==> Convert(a, b, v) < Convert(a, b, w)
    ensures v == w <==> Convert(a, b, v) == Convert(a, b, w)
  {
  }

  /** The values the converters are expected to produce on sample inputs. */
  lemma ConversionSamples()
    ensures Convert(C, C, 100.0) == 100.0
    ensures Convert(C, F, 20.0) == 68.0
    ensures Convert(C, K, 10.0) == 283.15
    ensures Convert(F, C, 68.0) == 20.0
    ensures Convert(F, F, 100.0) == 100.0
    ensures -0.0000005 < Convert(F, K, 60.0) - 288.705556 < 0.0000005
    ensures Convert(K, C, 283.15) == 10.0
    ensures -0.000005 < Convert(K, F, 288.705556) - 60.0 < 0.000005
    ensures Convert(K, K, 100.0) == 100.0
  {
  }
}
