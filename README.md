# Temperature, modelled in Dafny

A model of the Python class `Temperature` (`temperature.py`). A temperature
holds a magnitude (an int or a float), the scale it is stored in (Celsius,
Fahrenheit or Kelvin), and a display scale. It is built from nothing, a
number, or a string such as `"100.k"` or `"  -50.5F "`. It converts between
scales with nine linear formulas and compares temperatures in Kelvin. It
adds and subtracts numbers or other temperatures, and its scale, display
scale and value can be set through validating setters. A class-wide default
scale, settable with `set_default_scale`, is used by every construction that
does not name a scale.

Modules, one file each:

- `wrappers.dfy` (`Wrappers`): `Option`, `Result`, and the two exceptions
  the class raises (`TypeError`, `ValueError` with the reason).
- `scales.dfy` (`Scales`): the scale letters and the nine converters as one
  `Convert(from, to, v)`. The source builds the converter's name as text and
  calls `eval` on it; here that dispatch is a `match`.
- `numerals.dfy` (`Numerals`): `str.strip()`, and `int()` and `float()` on
  the decimal grammar the class relies on.
- `readings.dfy` (`Readings`): the int/float magnitude, the value of one
  temperature (`Reading`), `dvalue`, and the six comparison operators.
- `parsing.dfy` (`Parsing`): the string grammar of `__init__`, the whole of
  `__init__` on values (`Construct`), and the checks the setters share.
- `arithmetic.dfy` (`Arithmetic`): `__add__` and `__sub__` on values.
- `temperature.dfy` (`TemperatureClass`): the class itself, with fields
  `value`, `scale` and `dscale` that `Init` and the setters update in place.
  `Add` and `Sub` build a fresh object step by step. The class attribute
  `DEFAULT_SCALE` is the field of a `Defaults` object that construction
  reads and `SetDefaultScale` writes.

Every method of the class is proved against the pure function that states
its effect (`Construct`, `ScaleArg`, `Sum`, `Difference`). The properties are
proved about those functions.

## Model

| member | source | states |
|---|---|---|
| Scales.ScaleOf | temperature.py:39-42 | exactly the six letters c C f F k K name a scale, and each names the scale whose upper- or lower-case letter it is |
| Scales.LettersIdentifyScale | temperature.py:40-56 | the upper- and lower-case letters of a scale both read back as that scale, and different scales have different letters |
| Scales.IdentityConversion | temperature.py:228-253 | c2c, f2f and k2k return their input |
| Scales.ConvertThroughKelvin | temperature.py:228-253 | every conversion equals converting to Kelvin and then from Kelvin |
| Scales.ConvertCompose | temperature.py:228-253 | converting a to b and then b to c is the same as converting a to c |
| Scales.ConvertRoundTrip | temperature.py:228-253 | converting to any scale and back returns the input, so c2f and f2c are inverses, and so are X2k and k2X |
| Scales.ConvertMonotonic | temperature.py:228-253 | every converter is strictly increasing: it keeps both < and == between two inputs, in both directions |
| Scales.ConversionSamples | test_temperature.py:128-154 | c2c(100)=100, c2f(20)=68, c2k(10)=283.15, f2c(68)=20, f2k(60)≈288.705556, k2c(283.15)=10, k2f(288.705556)≈60, k2k(100)=100 |
| Numerals.TrimStart | temperature.py:28 | the result is no longer than the input and does not start with whitespace |
| Numerals.TrimEnd | temperature.py:28 | the result is a prefix of the input and does not end with whitespace |
| Numerals.Strip | temperature.py:28 | the result is no longer than the input and has no whitespace at either end |
| Numerals.StripPadded | temperature.py:28 | stripping whitespace-only padding from a trimmed text gives that text back |
| Numerals.StripSplit | temperature.py:28 | every text is whitespace, then its stripped form, then whitespace |
| Numerals.StripOfPadded | temperature.py:28 | extra whitespace around a text does not change what it strips to |
| Numerals.StripIdempotent | temperature.py:28 | stripping twice is stripping once |
| Numerals.StripEndingWith | temperature.py:28 | a text that ends in a non-space character strips to its front-trimmed form |
| Numerals.IntIsFloat | temperature.py:32-38 | a text int() accepts is also accepted by float(), with the same value, so the float attempt only matters for non-ints |
| Numerals.NotNumberBeforeLetter | temperature.py:32-42 | a text ending in something other than a digit or '.' is neither an int nor a float, so it goes to the qualifier branch |
| Numerals.IntText | temperature.py:63-64 | the decimal text of an int is non-empty, has no '.', ends in a digit, and starts with a digit or '-' |
| Numerals.IntTextRoundTrip | temperature.py:32-34 | int() of the decimal text of any int gives that int back |
| Readings.Plus | temperature.py:80-82 | Python + on magnitudes: the sum of the values, an int exactly when both operands are ints |
| Readings.Minus | temperature.py:119-121 | Python - on magnitudes: the difference of the values, an int exactly when both operands are ints |
| Readings.CompareInAnyScale | temperature.py:144-166 | comparing in Kelvin gives the same == and < answers as comparing both operands converted to any one scale |
| Readings.SameScaleCompare | temperature.py:144-166 | two temperatures stored in the same scale compare as their magnitudes |
| Readings.DisplayScaleIrrelevant | temperature.py:144-166 | the display scale plays no part in ==, < or > |
| Readings.OrderDecomposition | temperature.py:149-166 | != is not ==, <= is not >, >= is not <, > is < reversed, and exactly one of <, ==, > holds |
| Readings.ComparisonLaws | temperature.py:144-155 | == is reflexive, symmetric and transitive; < is irreflexive and transitive |
| Readings.DisplayValueSameTemperature | temperature.py:189-194 | dvalue, read in the display scale, is the same temperature: converting it back gives the magnitude, and its Kelvin value is the temperature's |
| Readings.ComparisonSamples | test_temperature.py:429-505 | 0C == 273.15K == 32F; 32F != 100C; 32F < 100F; 0C < 100C |
| Readings.DisplayValueSamples | test_temperature.py:201-216 | 0K shows as -273.15 in Celsius and -459.67 in Fahrenheit; 32.0F shows as 0 in Celsius |
| Parsing.ParseTemperature | temperature.py:26-56 | a string argument raises only ValueError, never TypeError |
| Parsing.ParseOutcomes | temperature.py:26-42 | for every string: ValueError for emptiness exactly when it strips to nothing; a whole int, or else a whole float, takes the default scale; any other text raises ValueError for the scale exactly when its last character is not a scale letter |
| Parsing.ParseIgnoresPadding | temperature.py:28 | whitespace around a construction string changes nothing |
| Parsing.DefaultOnlyForBareNumbers | temperature.py:32-38 | the default scale matters only for bare numbers: parses under two defaults agree on error and magnitude, and their scales differ only as the defaults do |
| Parsing.QualifiedParse | temperature.py:39-56 | a text ending in a non-numeric character: an unknown letter raises ValueError, otherwise the prefix's numeral is taken in the letter's scale, or ValueError if it is malformed |
| Parsing.QualifiedOutcome | temperature.py:39-56 | when the last character is a scale letter, parsing yields that letter's scale or raises ValueError for the number |
| Parsing.QualifierOnlyNamesScale | temperature.py:56 | two letters naming the same scale, upper or lower case, give the same parse |
| Parsing.LeadingSpaceIgnored | temperature.py:28 | whitespace before the number makes no difference to a qualified text |
| Parsing.ConstructShape | temperature.py:19-58 | construction sets dscale to scale, raises TypeError exactly for arguments that are not None, a number or a string, and gives 0 or the number in the default scale for None and numbers |
| Parsing.BareIntRoundTrip | temperature.py:32-34 | the decimal text of any int constructs that int in the default scale |
| Parsing.BareIntConstruct | temperature.py:28-34 | a stripped text that int() accepts constructs as that int in the default scale |
| Parsing.QualifiedIntParses | temperature.py:44-56 | an int's text followed by a scale's letter parses to that int in that scale |
| Parsing.ReprRoundTrip | temperature.py:63-64 | constructing from the repr text of an integral temperature, with either case of letter, gives back its magnitude and scale under any default |
| Parsing.KnownQualifier | temperature.py:39-56 | a scale letter after a valid numeral parses to that numeral in the letter's scale |
| Parsing.ScaleArgAccepts | temperature.py:180-187 | a non-string raises TypeError; a string is accepted as scale x exactly when, after stripping (setters) or as is (set_default_scale), it is x's upper- or lower-case letter |
| Parsing.StripOnlyInSetters | temperature.py:255-263 | " k " is accepted by the setters but rejected by set_default_scale, which does not strip |
| Parsing.SetterRejections | test_temperature.py:165-184 | the setters reject "asdf" and "  " with ValueError |
| Parsing.DefaultScaleArgSamples | test_temperature.py:31-54 | set_default_scale accepts "f" and rejects "", "a" with ValueError and the int 6 with TypeError |
| Parsing.BareSamples | test_temperature.py:73-96 | "100" and "   100   " are the int 100 in the default scale; "100." is the float 100.0 in it |
| Parsing.FloatKelvinSample | test_temperature.py:81-83 | "100.k" is the float 100.0 in Kelvin |
| Parsing.NegativeFahrenheitSample | test_temperature.py:262-266 | "-50.5F" is the float -50.5 in Fahrenheit |
| Parsing.InnerSpaceSample | test_temperature.py:358-363 | "33.3 k" is the float 33.3 in Kelvin |
| Parsing.BlankSamples | test_temperature.py:107-113 | "" and "     " raise ValueError |
| Parsing.BadQualifierSamples | test_temperature.py:115-121 | "100u" and "xyz" raise ValueError for the scale |
| Parsing.DoubleDotSample | test_temperature.py:123-125 | "10..0f" raises ValueError for the number |
| Arithmetic.Sum | temperature.py:66-103 | adding fails exactly for an operand that is neither a number nor a temperature, and then with TypeError |
| Arithmetic.Difference | temperature.py:105-142 | subtracting fails exactly for an operand that is neither a number nor a temperature, and then with TypeError |
| Arithmetic.NumberArithmetic | temperature.py:79-82 | adding or subtracting a number shifts the magnitude by it, keeps scale and display scale, and stays an int only for int operands |
| Arithmetic.NumberRoundTrip | temperature.py:105-121 | subtracting the number just added restores the magnitude and both scales, and for ints the very same value |
| Arithmetic.SameScaleArithmetic | temperature.py:88-91 | same-scale temperatures add and subtract their magnitudes and keep the left operand's scale and display scale |
| Arithmetic.SameScaleRoundTrip | temperature.py:127-130 | subtracting a same-scale temperature undoes adding it |
| Arithmetic.MixedScaleResult | temperature.py:93-101 | with different scales the result is the float sum (difference) of the Kelvin values, in Kelvin, displayed in Kelvin |
| Arithmetic.KelvinSumAgreement | temperature.py:88-101 | the Kelvin value of a sum is the sum of the Kelvin values exactly when the scales differ or both are Kelvin |
| Arithmetic.SumNotCongruent | temperature.py:88-101 | + does not respect ==: 0C equals 273.15K, yet 0C + 0C is 0C while 0C + 273.15K is 546.3K |
| Arithmetic.SumCommutes | temperature.py:66-103 | swapping two temperature operands gives the same magnitude and scale; mixed-scale sums are identical, and same-scale sums keep each left operand's display scale |
| Arithmetic.DifferenceSelfIsZero | temperature.py:127-130 | a temperature minus itself is zero in its own scale |
| Arithmetic.ArithmeticSamples | test_temperature.py:314-355 | 32F + 0C = 546.3K; 32F - 0C = 0K; 10C - 30C + 20C = 0C; 5K + 0.5 = 5.5K |
| TemperatureClass.Defaults.constructor | temperature.py:8 | the default scale starts as Celsius |
| TemperatureClass.Defaults.SetDefaultScale | temperature.py:255-263 | the default becomes the scale an unstripped one-letter argument names; otherwise TypeError or ValueError as ScaleArg says, and the default is unchanged |
| TemperatureClass.Temperature.Zero | temperature.py:19-21 | Temperature() is the int 0 in the default scale, displayed in it |
| TemperatureClass.Temperature.Create | temperature.py:10-58 | Temperature(arg) is a fresh object holding what Construct gives under the current default, or raises the error Construct gives |
| TemperatureClass.Temperature.Init | temperature.py:10-58 | __init__ leaves the object in the state Construct gives; on any error it returns that error and the object is unchanged |
| TemperatureClass.Temperature.SetValue | temperature.py:221-226 | the value setter reinitialises from the argument under the current default, including dscale; on error nothing changes |
| TemperatureClass.Temperature.SetScale | temperature.py:203-215 | the scale setter replaces only the scale, without converting the magnitude; on error nothing changes |
| TemperatureClass.Temperature.SetDscale | temperature.py:175-187 | the dscale setter replaces only the display scale; on error nothing changes |
| TemperatureClass.Temperature.DValue | temperature.py:189-194 | dvalue converted from the display scale back to the scale is the magnitude |
| TemperatureClass.Temperature.Add | temperature.py:66-103 | a + b is a fresh object holding Sum of the operands' states, or TypeError for an operand that is neither a number nor a temperature |
| TemperatureClass.Temperature.Sub | temperature.py:105-142 | a - b is a fresh object holding Difference of the operands' states, or TypeError |
| TemperatureClass.DisplayScenario | test_temperature.py:193-259 | under a Fahrenheit default, 32 shows as 0 in Celsius, and after relabelling the scale to Kelvin it shows as -241.15 |
| TemperatureClass.FibonacciScenario | test_temperature.py:332-345 | under a Fahrenheit default, 1 + 2 = 3F and the chained sums reach 8F, all ints, and the operands are unchanged |

## Left out

- `main()` and its demo (temperature.py:265-322) are left out: they only print and draw random values.
- `__str__` and `__repr__` (temperature.py:60-64) are left out as text, because that text depends on Python's float formatting (`100.0` against `100`). Only the repr of an integral magnitude is modelled (`Parsing.IntRepr`), to state the parse round trip.
- Floats are exact reals, with no inf, no nan and no overflow. IEEE rounding is not modelled, so some `==` and `<` answers differ from the program's: `0.1K + 0.2K == 0.3K` holds here but not for doubles. A float `nan` magnitude, for which `==` is not reflexive, cannot be built here. `Readings.ComparisonLaws`, `Readings.OrderDecomposition`, `Arithmetic.NumberRoundTrip`, `Arithmetic.SameScaleRoundTrip` and `Scales.ConvertRoundTrip` hold over the reals, not for the program's doubles. The OverflowError that converting a huge int to float raises inside `c2k`, `f2k`, the comparisons and mixed-scale `+`/`-` (temperature.py:96, 147) is not modelled either.
- Readings.Number: `Int` stands for both Python 2 `int` and `long`, and so do the number cases `Parsing.Arg.NumArg` and `Arithmetic.Addend.NumberAddend`. In the program `isinstance(x, int)` is false for a `long` (a value beyond `sys.maxint`, which `int("99999999999999999999")` or an overflowing int sum produce). So a `long` argument to `Temperature()` or the value setter, and a `long` operand of `+` or `-`, raise TypeError (temperature.py:22-27, 80-86, 119-125). The model accepts them as numbers.
- Readings.DisplayValue: in the Python 2 the program is written for, `f2c` on an int magnitude, `(f - 32) * 5/9`, is integer floor division (temperature.py:238). The model divides exactly. So `DisplayValue`, `Temperature.DValue` and `Readings.DisplayValueSameTemperature` hold for the exact quotient, and an int Fahrenheit magnitude shown in Celsius is not truncated here.
- `int()` and `float()` accept only an optional sign, digits and one optional '.', with at least one digit, after stripping whitespace. Exponents, `inf`/`nan`, underscores, whitespace between the sign and the digits, non-ASCII digits and Python 2's `L` suffix are left out.
- The argument of `__init__` and of the setters is classified up front (`Arg`: none, number, string, other). Python's `bool` counts as an int there; the model has no separate case for it, and Python 2 `unicode` strings count as "other".
- Comparing a Temperature with anything else crashes with AttributeError in the source (temperature.py:146). Here the comparisons take two temperatures by type.
- `DEFAULT_SCALE` is a class attribute shared by the whole process. Here it is a `Defaults` object passed to construction and to the value setter.
- `__add__` and `__sub__` start from `Temperature()`, which reads the default scale, and then overwrite all three fields. The model starts from the object's own scale instead. Nothing observable differs.
- The `+=` and `-=` rebinding in the tests is not modelled separately: it calls `__add__` and `__sub__`, which are.
