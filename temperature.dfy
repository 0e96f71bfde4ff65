/** The Temperature class itself: an object holding a magnitude, a scale and
    a display scale, updated in place by __init__ and the property setters,
    and the class-wide default scale that construction falls back on. */
module TemperatureClass {
  import opened Wrappers
  import opened Scales
  import opened Numerals
  import opened Readings
  import opened Parsing
  import opened Arithmetic

  /** The class attribute DEFAULT_SCALE, as an object passed to the members
      that read it. */
  class Defaults {
    var scale: Scale

    /** The class starts with Celsius as its default. */
    constructor ()
      ensures scale == C
    {
      scale := C;
    }

    /** set_default_scale: a one-letter string naming a scale, without
        stripping; a non-string raises TypeError, anything else ValueError,
        and on error the default is left as it was. */
    method SetDefaultScale(arg: Arg) returns (err: Option<Error>)
      modifies this
      ensures ScaleArg(arg, false).Ok? ==> err.None? && scale == ScaleArg(arg, false).value
      ensures ScaleArg(arg, false).Err? ==> err == Some(ScaleArg(arg, false).error) && scale == old(scale)
    {
      if !arg.StrArg? {
        return Some(TypeError);
      }
      var s := arg.s;
      if |s| != 1 || ScaleOf(s[0]).None? {
        return Some(ValueError(BadScale));
      }
      scale := ScaleOf(s[0]).value;
      err := None;
    }
  }

  /** The right operand of + and - as the program sees it: a number, a
      Temperature object, or some other object. */
  datatype Operand = NumberOperand(n: Number) | TemperatureOperand(t: Temperature) | OtherOperand

  /** The operand's current value, as the arithmetic on values takes it. */
  function AddendOf(o: Operand): Addend
    reads if o.TemperatureOperand? then {o.t} else {}
  {
    match o
    case NumberOperand(n) => NumberAddend(n)
    case TemperatureOperand(t) => TemperatureAddend(t.State())
    case OtherOperand => OtherAddend
  }

  class Temperature {
    var value: Number
    var scale: Scale
    var dscale: Scale

    /** The object's current state as a value. */
    function State(): Reading
      reads this
    {
      Reading(value, scale, dscale)
    }

    /** Temperature(): zero degrees in the default scale, displayed in it. */
    constructor Zero(default: Scale)
      ensures State() == Reading(Int(0), default, default)
    {
      value := Int(0);
      scale := default;
      dscale := default;
    }

    /** Temperature(value): a fresh object initialised from the argument with
        the current default scale, or the error __init__ raises. */
    static method Create(arg: Arg, defaults: Defaults) returns (r: Result<Temperature>)
      ensures r.Ok? <==> Construct(arg, defaults.scale).Ok?
      ensures r.Err? ==> r.error == Construct(arg, defaults.scale).error
      ensures r.Ok? ==> fresh(r.value) && r.value.State() == Construct(arg, defaults.scale).value
    {
      var t := new Temperature.Zero(defaults.scale);
      var err := t.Init(arg, defaults.scale);
      if err.Some? {
        return Err(err.value);
      }
      r := Ok(t);
    }

    /** __init__: the branches of the source in order. Nothing is assigned
        before the last check has passed, so an error leaves the object as
        it was. */
    method Init(arg: Arg, default: Scale) returns (err: Option<Error>)
      modifies this
      ensures Construct(arg, default).Ok? ==> err.None? && State() == Construct(arg, default).value
      ensures Construct(arg, default).Err? ==> err == Some(Construct(arg, default).error) && State() == old(State())
    {
      match arg {
        case NoArg =>
          value := Int(0);
          scale := default;
        case NumArg(n) =>
          value := n;
          scale := default;
        case OtherArg =>
          return Some(TypeError);
        case StrArg(s) =>
          var t := Strip(s);
          if t == [] {
            return Some(ValueError(EmptyInput));
          }
          var whole := ParseInt(t);
          if whole.Some? {
            value := Int(whole.value);
            scale := default;
          } else {
            var decimal := ParseFloat(t);
            if decimal.Some? {
              value := Float(decimal.value);
              scale := default;
            } else {
              var qualifier := ScaleOf(t[|t| - 1]);
              if qualifier.None? {
                return Some(ValueError(BadScale));
              }
              var p := t[..|t| - 1];
              if '.' in p {
                var x := ParseFloat(p);
                if x.None? {
                  return Some(ValueError(BadNumber));
                }
                value := Float(x.value);
              } else {
                var i := ParseInt(p);
                if i.None? {
                  return Some(ValueError(BadNumber));
                }
                value := Int(i.value);
              }
              scale := qualifier.value;
            }
          }
      }
      dscale := scale;
      err := None;
    }

    /** The value setter re-runs __init__ with the current default scale. */
    method SetValue(arg: Arg, defaults: Defaults) returns (err: Option<Error>)
      modifies this
      ensures Construct(arg, defaults.scale).Ok? ==> err.None? && State() == Construct(arg, defaults.scale).value
      ensures Construct(arg, defaults.scale).Err? ==> err == Some(Construct(arg, defaults.scale).error) && State() == old(State())
    {
      err := Init(arg, defaults.scale);
    }

    /** The scale setter: a stripped one-letter scale name replaces the scale
        alone; the magnitude is not converted and the display scale stays. */
    method SetScale(arg: Arg) returns (err: Option<Error>)
      modifies this
      ensures ScaleArg(arg, true).Ok? ==> err.None? && State() == old(State()).(scale := ScaleArg(arg, true).value)
      ensures ScaleArg(arg, true).Err? ==> err == Some(ScaleArg(arg, true).error) && State() == old(State())
    {
      if !arg.StrArg? {
        return Some(TypeError);
      }
      var t := Strip(arg.s);
      if |t| != 1 {
        return Some(ValueError(BadScale));
      }
      var named := ScaleOf(t[0]);
      if named.None? {
        return Some(ValueError(BadScale));
      }
      scale := named.value;
      err := None;
    }

    /** The dscale setter: like the scale setter, for the display scale alone. */
    method SetDscale(arg: Arg) returns (err: Option<Error>)
      modifies this
      ensures ScaleArg(arg, true).Ok? ==> err.None? && State() == old(State()).(dscale := ScaleArg(arg, true).value)
      ensures ScaleArg(arg, true).Err? ==> err == Some(ScaleArg(arg, true).error) && State() == old(State())
    {
      if !arg.StrArg? {
        return Some(TypeError);
      }
      var t := Strip(arg.s);
      if |t| != 1 {
        return Some(ValueError(BadScale));
      }
      var named := ScaleOf(t[0]);
      if named.None? {
        return Some(ValueError(BadScale));
      }
      dscale := named.value;
      err := None;
    }

    /** dvalue: the magnitude in the display scale; converting it back to
        the storage scale gives the magnitude again. */
    function DValue(): (r: real)
      reads this
      ensures Convert(dscale, scale, r) == value.Real()
    {
      ConvertRoundTrip(scale, dscale, value.Real());
      DisplayValue(State())
    }

    /** __add__: a new object; the operands are not changed. */
    method Add(other: Operand) returns (r: Result<Temperature>)
      ensures r.Ok? <==> !other.OtherOperand?
      ensures r.Err? ==> r.error == TypeError
      ensures r.Ok? ==> fresh(r.value) && Sum(State(), AddendOf(other)) == Ok(r.value.State())
    {
      var t := new Temperature.Zero(scale);
      t.value := value;
      t.scale := scale;
      t.dscale := dscale;
      match other {
        case NumberOperand(n) =>
          t.value := Plus(t.value, n);
        case OtherOperand =>
          return Err(TypeError);
        case TemperatureOperand(o) =>
          if scale == o.scale {
            t.value := Plus(t.value, o.value);
          } else {
            var total := Convert(scale, K, value.Real());
            total := total + Convert(o.scale, K, o.value.Real());
            t.value := Float(total);
            t.scale := K;
            t.dscale := K;
          }
      }
      r := Ok(t);
    }

    /** __sub__: a new object; the operands are not changed. */
    method Sub(other: Operand) returns (r: Result<Temperature>)
      ensures r.Ok? <==> !other.OtherOperand?
      ensures r.Err? ==> r.error == TypeError
      ensures r.Ok? ==> fresh(r.value) && Difference(State(), AddendOf(other)) == Ok(r.value.State())
    {
      var t := new Temperature.Zero(scale);
      t.value := value;
      t.scale := scale;
      t.dscale := dscale;
      match other {
        case NumberOperand(n) =>
          t.value := Minus(t.value, n);
        case OtherOperand =>
          return Err(TypeError);
        case TemperatureOperand(o) =>
          if scale == o.scale {
            t.value := Minus(t.value, o.value);
          } else {
            var total := Convert(scale, K, value.Real());
            total := total - Convert(o.scale, K, o.value.Real());
            t.value := Float(total);
            t.scale := K;
            t.dscale := K;
          }
      }
      r := Ok(t);
    }
  }

  /** A default of Fahrenheit, 32 degrees shown in Celsius, then the scale
      relabelled to Kelvin: the magnitude is never converted, only shown. */
  method DisplayScenario() returns (shown: real, relabelled: real)
    ensures shown == 0.0 && relabelled == -241.15
  {
    var defaults := new Defaults();
    var e := defaults.SetDefaultScale(StrArg("f"));
    assert ScaleArg(StrArg("f"), false) == Ok(F);
    var r := Temperature.Create(NumArg(Int(32)), defaults);
    var t := r.value;
    assert t.State() == Reading(Int(32), F, F);
    e := t.SetDscale(StrArg("c"));
    assert ScaleArg(StrArg("c"), true) == Ok(C) by {
      StripTrimmed("c");
    }
    shown := t.DValue();
    e := t.SetScale(StrArg("K"));
    assert ScaleArg(StrArg("K"), true) == Ok(K) by {
      StripTrimmed("K");
    }
    relabelled := t.DValue();
  }

  /** With a Fahrenheit default, 1 + 2 + ... builds Fibonacci numbers: every
      sum stays an int in Fahrenheit, and the operands are left untouched. */
  method FibonacciScenario() returns (third: Reading, fifth: Reading, first: Reading)
    ensures third == Reading(Int(3), F, F)
    ensures fifth == Reading(Int(8), F, F)
    ensures first == Reading(Int(1), F, F)
  {
    var defaults := new Defaults();
    var e := defaults.SetDefaultScale(StrArg("f"));
    assert ScaleArg(StrArg("f"), false) == Ok(F);
    var r1 := Temperature.Create(NumArg(Int(1)), defaults);
    var r2 := Temperature.Create(NumArg(Int(2)), defaults);
    var t1, t2 := r1.value, r2.value;
    var r3 := t1.Add(TemperatureOperand(t2));
    var t3 := r3.value;
    var r4 := t2.Add(TemperatureOperand(t3));
    var t4 := r4.value;
    var r5 := t3.Add(TemperatureOperand(t4));
    third, fifth, first := t3.State(), r5.value.State(), t1.State();
  }
}
