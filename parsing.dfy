/** Construction of a temperature from Python's argument forms, the
    construction-string grammar, and the validation shared by the scale
    setters and set_default_scale. */
module Parsing {
  import opened Wrappers
  import opened Scales
  import opened Numerals
  import opened Readings

  /** What a caller may pass: nothing (None), an int or float, a string, or
      any other Python object. */
  datatype Arg = NoArg | NumArg(n: Number) | StrArg(s: string) | OtherArg

  /** The whole stripped text as a bare number: int() first, then float(). */
  function BareNumber(t: string): Option<Number>
  {
    match ParseInt(t)
    case Some(i) => Some(Int(i))
    case None =>
      match ParseFloat(t)
      case Some(x) => Some(Float(x))
      case None => None
  }

  /** The numeric part before a qualifier letter: float() when it contains
      '.', int() otherwise. */
  function Numeral(p: string): Option<Number>
  {
    if '.' in p then
      match ParseFloat(p)
      case Some(x) => Some(Float(x))
      case None => None
    else
      match ParseInt(p)
      case Some(i) => Some(Int(i))
      case None => None
  }

  /** The string branch of __init__: a bare number takes the default scale;
      otherwise the last character must be a qualifier letter and what
      precedes it a numeral. */
  function ParseTemperature(s: string, default: Scale): (r: Result<(Number, Scale)>)
    ensures r.Err? ==> r.error.ValueError?
  {
    ParseStripped(Strip(s), default)
  }

  /** ParseTemperature once the surrounding whitespace is gone. */
  function ParseStripped(t: string, default: Scale): Result<(Number, Scale)>
  {
    if t == [] then Err(ValueError(EmptyInput))
    else
      match BareNumber(t)
      case Some(v) => Ok((v, default))
      case None =>
        match ScaleOf(t[|t| - 1])
        case None => Err(ValueError(BadScale))
        case Some(qualifier) =>
          match Numeral(t[..|t| - 1])
          case Some(v) => Ok((v, qualifier))
          case None => Err(ValueError(BadNumber))
  }

  /** __init__: the state a construction produces, or the error it raises.
      The display scale always starts equal to the scale. */
  function Construct(arg: Arg, default: Scale): Result<Reading>
  {
    match arg
    case NoArg => Ok(Reading(Int(0), default, default))
    case NumArg(n) => Ok(Reading(n, default, default))
    case StrArg(s) =>
      (match ParseTemperature(s, default)
       case Ok((v, qualifier)) => Ok(Reading(v, qualifier, qualifier))
       case Err(e) => Err(e))
    case OtherArg => Err(TypeError)
  }

  /** Validation of a scale argument: the scale and dscale setters strip it
      first (strip == true); set_default_scale does not (strip == false). */
  function ScaleArg(arg: Arg, strip: bool): Result<Scale>
  {
    match arg
    case StrArg(s) =>
      var t := if strip then Strip(s) else s;
      if |t| != 1 then Err(ValueError(BadScale))
      else
        (match ScaleOf(t[0])
         case None => Err(ValueError(BadScale))
         case Some(sc) => Ok(sc))
    case _ => Err(TypeError)
  }

  /** The text __repr__ gives a temperature whose magnitude is the int n
      (and __str__ too, when the display scale is the scale). */
  function IntRepr(n: int, s: Scale): string
  {
    IntText(n) + [Letter(s)]
  }

  /** The outcomes of parsing any string: blank text and only blank text
      raises ValueError as empty; a whole int or float takes the default scale,
      the int reading first; any other text raises ValueError for the scale
      exactly when its last character is not a scale letter. */
  lemma ParseOutcomes(s: string, default: Scale)
    ensures ParseTemperature(s, default) == Err(ValueError(EmptyInput)) <==> Strip(s) == []
    ensures ParseInt(Strip(s)).Some? ==> ParseTemperature(s, default) == Ok((Int(ParseInt(Strip(s)).value), default))
    ensures ParseInt(Strip(s)).None? && ParseFloat(Strip(s)).Some? ==>
      ParseTemperature(s, default) == Ok((Float(ParseFloat(Strip(s)).value), default))
    ensures var t := Strip(s);
      t != [] && BareNumber(t).None? ==>
        (ParseTemperature(s, default) == Err(ValueError(BadScale)) <==> ScaleOf(t[|t| - 1]).None?)
  {
    var t := Strip(s);
    if t == [] {
      assert ParseInt(t).None? && ParseFloat(t).None? by {
        assert SplitSign(t) == (false, []);
      }
    }
  }

  /** Whitespace around a construction string makes no difference. */
  lemma ParseIgnoresPadding(pre: string, s: string, post: string, default: Scale)
    requires AllSpaces(pre) && AllSpaces(post)
    ensures ParseTemperature(pre + s + post, default) == ParseTemperature(s, default)
  {
    StripOfPadded(pre, s, post);
  }

  /** A text ending in a letter (or any character that is not a digit, '.'
      or whitespace) is never read as a bare number: its stripped form is the
      text with the front whitespace removed. */
  lemma QualifiedText(p: string, a: char)
    requires !IsDigit(a) && a != '.' && !IsSpace(a)
    ensures Strip(p + [a]) == TrimStart(p) + [a]
    ensures ParseInt(Strip(p + [a])) == None && ParseFloat(Strip(p + [a])) == None
  {
    var t := TrimStart(p) + [a];
    assert t[|t| - 1] == a;
    NotNumberBeforeLetter(t);
    StripEndingWith(p, a);
    StripIdempotent(p + [a]);
  }

  /** A qualified text takes its scale from the qualifier letter alone: the
      letter's case and the default scale make no difference. */
  lemma {:induction false} QualifierOnlyNamesScale(p: string, a: char, b: char, d1: Scale, d2: Scale)
    requires ScaleOf(a).Some? && ScaleOf(a) == ScaleOf(b)
    ensures ParseTemperature(p + [a], d1) == ParseTemperature(p + [b], d2)
  {
    var q := TrimStart(p);
    calc {
      ParseTemperature(p + [a], d1);
    == { LeadingSpaceIgnored(p, a, d1); }
      ParseTemperature(q + [a], d1);
    == { assert !IsDigit(a) && a != '.' && !IsSpace(a);
         assert !IsDigit(b) && b != '.' && !IsSpace(b);
         QualifiedParse(q, a, d1);
         QualifiedParse(q, b, d2); }
      ParseTemperature(q + [b], d2);
    == { LeadingSpaceIgnored(p, b, d2); }
      ParseTemperature(p + [b], d2);
    }
  }

  /** A text ending in a qualifier letter is in that letter's scale, or
      fails on its numeric part. */
  lemma {:induction false} QualifiedOutcome(p: string, a: char, default: Scale)
    requires ScaleOf(a).Some?
    ensures var r := ParseTemperature(p + [a], default);
      && (r.Ok? ==> r.value.1 == ScaleOf(a).value)
      && (r.Err? ==> r.error == ValueError(BadNumber))
  {
    LeadingSpaceIgnored(p, a, default);
    assert !IsDigit(a) && a != '.' && !IsSpace(a);
    QualifiedParse(TrimStart(p), a, default);
  }

  lemma {:induction false} LeadingSpaceIgnored(p: string, c: char, default: Scale)
    ensures ParseTemperature(p + [c], default) == ParseTemperature(TrimStart(p) + [c], default)
  {
    var lead := TrimStartSplit(p);
    assert p + [c] == lead + (TrimStart(p) + [c]) + [];
    ParseIgnoresPadding(lead, TrimStart(p) + [c], [], default);
  }

  /** The default scale is used only for bare numbers: two parses of one
      text under different defaults agree on success, error and magnitude,
      and their scales differ only as the defaults do. */
  lemma DefaultOnlyForBareNumbers(s: string, d1: Scale, d2: Scale)
    ensures var r1, r2 := ParseTemperature(s, d1), ParseTemperature(s, d2);
      && (r1.Err? <==> r2.Err?)
      && (r1.Err? ==> r1.error == r2.error)
      && (r1.Ok? ==> r1.value.0 == r2.value.0 &&
                     (r1.value.1 == r2.value.1 || (r1.value.1 == d1 && r2.value.1 == d2)))
  {
    var t := Strip(s);
    if t == [] || BareNumber(t).Some? {
    } else {
      assert ParseStripped(t, d1) == ParseStripped(t, d2);
    }
  }

  /** Construction keeps the display scale equal to the scale, raises
      TypeError exactly for an argument that is not None, a number or a
      string, and never fails on None or a number. */
  lemma ConstructShape(arg: Arg, default: Scale)
    ensures Construct(arg, default).Ok? ==> Construct(arg, default).value.scale == Construct(arg, default).value.dscale
    ensures Construct(arg, default) == Err(TypeError) <==> arg.OtherArg?
    ensures arg.NoArg? || arg.NumArg? ==> Construct(arg, default) == Ok(Reading(if arg.NumArg? then arg.n else Int(0), default, default))
  {
  }

  /** A string holding just an int is constructed as that int in the default scale. */
  lemma {:induction false} BareIntRoundTrip(n: int, default: Scale)
    ensures Construct(StrArg(IntText(n)), default) == Ok(Reading(Int(n), default, default))
  {
    var t := IntText(n);
    assert Strip(t) == t by {
      assert [] + t + [] == t;
      StripPadded([], t, []);
    }
    IntTextRoundTrip(n);
    BareIntConstruct(t, n, default);
  }

  /** A stripped text that int() accepts is constructed as that int in the default scale. */
  lemma BareIntConstruct(t: string, i: int, default: Scale)
    requires t != [] && Strip(t) == t && ParseInt(t) == Some(i)
    ensures Construct(StrArg(t), default) == Ok(Reading(Int(i), default, default))
  {
  }

  /** Parsing the __repr__ text of an integral temperature, with the letter
      in either case, gives back the magnitude and the scale, whatever the default. */
  lemma {:induction false} ReprRoundTrip(n: int, s: Scale, default: Scale)
    ensures Construct(StrArg(IntRepr(n, s)), default) == Ok(Reading(Int(n), s, s))
    ensures Construct(StrArg(IntText(n) + [LowerLetter(s)]), default) == Ok(Reading(Int(n), s, s))
  {
    QualifiedIntParses(n, s, default);
    LettersIdentifyScale(s, s);
    QualifierOnlyNamesScale(IntText(n), Letter(s), LowerLetter(s), default, default);
  }

  lemma {:induction false} QualifiedIntParses(n: int, s: Scale, default: Scale)
    ensures ParseTemperature(IntText(n) + [Letter(s)], default) == Ok((Int(n), s))
  {
    LettersIdentifyScale(s, s);
    QualifiedParse(IntText(n), Letter(s), default);
    IntTextRoundTrip(n);
  }

  /** A well-formed qualified text parses to its numeral's value in the letter's scale. */
  lemma KnownQualifier(p: string, a: char, default: Scale, v: Number, s: Scale)
    requires ScaleOf(a) == Some(s) && Numeral(p) == Some(v)
    requires p == [] || !IsSpace(p[0])
    ensures ParseTemperature(p + [a], default) == Ok((v, s))
  {
    assert !IsDigit(a) && a != '.' && !IsSpace(a);
    QualifiedParse(p, a, default);
  }

  /** A qualified text with no leading whitespace: an unknown letter raises
      ValueError, and a known one reads the numeral from everything before it. */
  lemma {:induction false} QualifiedParse(p: string, a: char, default: Scale)
    requires !IsDigit(a) && a != '.' && !IsSpace(a)
    requires p == [] || !IsSpace(p[0])
    ensures ParseTemperature(p + [a], default)
         == if ScaleOf(a).None? then Err(ValueError(BadScale))
            else if Numeral(p).Some? then Ok((Numeral(p).value, ScaleOf(a).value))
            else Err(ValueError(BadNumber))
  {
    var u := p + [a];
    QualifiedText(p, a);
    TrimStartPadded([], p);
    assert [] + p == p;
    assert u[..|u| - 1] == p;
  }

  /** A scale argument is accepted exactly when it is a string whose
      (stripped, for the setters) text is one letter naming a scale, in
      either case; a non-string raises TypeError. */
  lemma ScaleArgAccepts(arg: Arg, strip: bool, x: Scale)
    ensures !arg.StrArg? ==> ScaleArg(arg, strip) == Err(TypeError)
    ensures arg.StrArg? ==>
      var t := if strip then Strip(arg.s) else arg.s;
      (ScaleArg(arg, strip) == Ok(x) <==> t == [Letter(x)] || t == [LowerLetter(x)])
  {
    if arg.StrArg? {
      var t := if strip then Strip(arg.s) else arg.s;
      LettersIdentifyScale(x, x);
      if |t| == 1 && ScaleArg(arg, strip) == Ok(x) {
        assert t == [t[0]];
      }
    }
  }

  /** The setters strip their argument and set_default_scale does not. */
  lemma StripOnlyInSetters()
    ensures ScaleArg(StrArg(" k "), true) == Ok(K)
    ensures ScaleArg(StrArg(" k "), false) == Err(ValueError(BadScale))
  {
  }

  /** Rejected setter arguments: too long, blank, and an unknown letter. */
  lemma SetterRejections()
    ensures ScaleArg(StrArg("asdf"), true) == Err(ValueError(BadScale))
    ensures ScaleArg(StrArg("  "), true) == Err(ValueError(BadScale))
  {
  }

  /** set_default_scale accepts "f" and rejects "", "a" and the int 6. */
  lemma DefaultScaleArgSamples()
    ensures ScaleArg(StrArg("f"), false) == Ok(F)
    ensures ScaleArg(StrArg(""), false) == Err(ValueError(BadScale))
    ensures ScaleArg(StrArg("a"), false) == Err(ValueError(BadScale))
    ensures ScaleArg(NumArg(Int(6)), false) == Err(TypeError)
  {
  }

  lemma StripTrimmed(t: string)
    requires Trimmed(t)
    ensures Strip(t) == t
  {
    assert [] + t + [] == t;
    StripPadded([], t, []);
  }

  lemma Hundred()
    ensures AllDigits("100") && DigitsValue("100") == 100
  {
    assert "100"[..2] == "10";
    assert "10"[..1] == "1";
    assert "1"[..0] == [];
  }

  lemma HundredPoint()
    ensures Numeral("100.") == Some(Float(100.0))
  {
    assert "100."[3] == '.';
    StripTrimmed("100.");
    Hundred();
    assert SplitSign("100.") == (false, "100.");
    assert DotIndex("100.") == 3;
    assert "100."[..3] == "100";
  }

  lemma HundredText(default: Scale)
    ensures ParseTemperature("100", default) == Ok((Int(100), default))
  {
    StripTrimmed("100");
    Hundred();
    assert SplitSign("100") == (false, "100");
  }

  lemma HundredPointText(default: Scale)
    ensures ParseTemperature("100.", default) == Ok((Float(100.0), default))
  {
    StripTrimmed("100.");
    assert ParseFloat("100.") == Some(100.0) by {
      HundredPoint();
    }
    assert ParseInt("100.") == None by {
      assert "100."[3] == '.';
      assert SplitSign("100.") == (false, "100.");
    }
    assert BareNumber("100.") == Some(Float(100.0));
  }

  /** Strings that hold just a number take the default scale, int or float as written. */
  lemma BareSamples(default: Scale)
    ensures ParseTemperature("100", default) == Ok((Int(100), default))
    ensures ParseTemperature("   " + "100" + "   ", default) == Ok((Int(100), default))
    ensures ParseTemperature("100.", default) == Ok((Float(100.0), default))
  {
    HundredText(default);
    ParseIgnoresPadding("   ", "100", "   ", default);
    HundredPointText(default);
  }

  /** "100.k" is the float 100.0 in Kelvin. */
  lemma FloatKelvinSample(default: Scale)
    ensures ParseTemperature("100.k", default) == Ok((Float(100.0), K))
  {
    assert "100.k" == "100." + "k";
    assert ParseTemperature("100." + "k", default) == Ok((Float(100.0), K)) by {
      HundredPoint();
      KnownQualifier("100.", 'k', default, Float(100.0), K);
    }
  }

  lemma MinusFiftyPointFive()
    ensures Numeral("-50.5") == Some(Float(-50.5))
  {
    assert "-50.5"[3] == '.';
    StripTrimmed("-50.5");
    assert SplitSign("-50.5") == (true, "50.5");
    assert DotIndex("50.5") == 2;
    assert "50.5"[..2] == "50" && "50"[..1] == "5" && "5"[..0] == [];
    assert "50.5"[3..] == "5";
    assert Pow10(1) == 10;
  }

  /** "-50.5F" is the float -50.5 in Fahrenheit. */
  lemma NegativeFahrenheitSample(default: Scale)
    ensures ParseTemperature("-50.5F", default) == Ok((Float(-50.5), F))
  {
    MinusFiftyPointFive();
    assert "-50.5F" == "-50.5" + "F";
    KnownQualifier("-50.5", 'F', default, Float(-50.5), F);
  }

  lemma StripThirtyThree()
    ensures Strip("33.3 ") == "33.3"
  {
    assert "33.3 " == [] + "33.3" + " ";
    StripPadded([], "33.3", " ");
  }

  lemma FloatThirtyThree()
    ensures FloatLiteral("33.3") == Some(33.3)
  {
    assert SplitSign("33.3") == (false, "33.3");
    assert DotIndex("33.3") == 2;
    assert "33.3"[..2] == "33" && "33.3"[3..] == "3";
    assert AllDigits("33") && AllDigits("3");
    assert DigitsValue("3") == 3 by {
      assert "3"[..0] == [];
    }
    assert DigitsValue("33") == 33 by {
      assert "33"[..1] == "3" && "3"[..0] == [];
    }
    assert Pow10(1) == 10;
  }

  lemma ThirtyThreePointThree()
    ensures Numeral("33.3 ") == Some(Float(33.3))
  {
    assert "33.3 "[2] == '.';
    StripThirtyThree();
    FloatThirtyThree();
  }

  /** Whitespace between the number and the qualifier is allowed: "33.3 k" is 33.3 Kelvin. */
  lemma InnerSpaceSample(default: Scale)
    ensures ParseTemperature("33.3 k", default) == Ok((Float(33.3), K))
  {
    ThirtyThreePointThree();
    assert "33.3 k" == "33.3 " + "k";
    KnownQualifier("33.3 ", 'k', default, Float(33.3), K);
  }

  /** Blank construction strings are rejected. */
  lemma BlankSamples(default: Scale)
    ensures ParseTemperature("", default) == Err(ValueError(EmptyInput))
    ensures ParseTemperature("     ", default) == Err(ValueError(EmptyInput))
  {
    var blank := "     ";
    assert Strip(blank) == [] by {
      assert blank == blank + [] + [];
      StripPadded(blank, [], []);
    }
  }

  /** "100u" and "xyz" have no valid qualifier letter. */
  lemma BadQualifierSamples(default: Scale)
    ensures ParseTemperature("100u", default) == Err(ValueError(BadScale))
    ensures ParseTemperature("xyz", default) == Err(ValueError(BadScale))
  {
    assert "100u" == "100" + "u";
    QualifiedParse("100", 'u', default);
    assert "xyz" == "xy" + "z";
    QualifiedParse("xy", 'z', default);
  }

  lemma TenDotDotZero()
    ensures Numeral("10..0") == None
  {
    assert "10..0"[2] == '.';
    StripTrimmed("10..0");
    assert SplitSign("10..0") == (false, "10..0");
    assert DotIndex("10..0") == 2;
    assert "10..0"[3..] == ".0";
    assert ".0"[0] == '.';
  }

  /** "10..0f" fails on its numeral rather than falling through. */
  lemma DoubleDotSample(default: Scale)
    ensures ParseTemperature("10..0f", default) == Err(ValueError(BadNumber))
  {
    TenDotDotZero();
    assert "10..0f" == "10..0" + "f";
    QualifiedParse("10..0", 'f', default);
  }
}
