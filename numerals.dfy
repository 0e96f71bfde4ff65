/** The part of Python's str.strip, int() and float() that the temperature
    parser relies on: whitespace trimming, and decimal integer and decimal
    fraction literals with an optional sign. */
module Numerals {
  import opened Wrappers

  /** The characters str.strip() removes by default. */
  predicate IsSpace(ch: char)
  {
    ch == ' ' || ch == '\t' || ch == '\n' || ch == '\r' || ch == '\U{B}' || ch == '\U{C}'
  }

  predicate IsDigit(ch: char)
  {
    '0' <= ch <= '9'
  }

  predicate AllDigits(s: string)
  {
    forall i :: 0 <= i < |s| ==> IsDigit(s[i])
  }

  predicate AllSpaces(s: string)
  {
    forall i :: 0 <= i < |s| ==> IsSpace(s[i])
  }

  /** True when s neither starts nor ends with whitespace. */
  predicate Trimmed(s: string)
  {
    s == [] || (!IsSpace(s[0]) && !IsSpace(s[|s| - 1]))
  }

  /** s with its leading whitespace removed. */
  function TrimStart(s: string): (r: string)
    ensures |r| <= |s|
    ensures r == [] || !IsSpace(r[0])
  {
    if s != [] && IsSpace(s[0]) then TrimStart(s[1..]) else s
  }

  /** s with its trailing whitespace removed. */
  function TrimEnd(s: string): (r: string)
    ensures |r| <= |s| && r == s[..|r|]
    ensures r == [] || !IsSpace(r[|r| - 1])
  {
    if s != [] && IsSpace(s[|s| - 1]) then TrimEnd(s[..|s| - 1]) else s
  }

  /** str.strip(): s without leading and trailing whitespace. */
  function Strip(s: string): (r: string)
    ensures Trimmed(r)
    ensures |r| <= |s|
  {
    TrimEnd(TrimStart(s))
  }

  lemma {:induction false} TrimStartPadded(pre: string, u: string)
    requires AllSpaces(pre)
    requires u == [] || !IsSpace(u[0])
    ensures TrimStart(pre + u) == u
  {
    if pre != [] {
      assert (pre + u)[1..] == pre[1..] + u;
      TrimStartPadded(pre[1..], u);
    }
  }

  lemma {:induction false} TrimEndPadded(u: string, post: string)
    requires AllSpaces(post)
    requires u == [] || !IsSpace(u[|u| - 1])
    ensures TrimEnd(u + post) == u
  {
    if post != [] {
      var n := |post| - 1;
      assert (u + post)[..|u + post| - 1] == u + post[..n];
      TrimEndPadded(u, post[..n]);
    }
  }

  /** Surrounding whitespace is exactly what Strip removes: a trimmed text
      padded on either side with whitespace strips back to itself. */
  lemma {:induction false} StripPadded(pre: string, t: string, post: string)
    requires AllSpaces(pre) && AllSpaces(post) && Trimmed(t)
    ensures Strip(pre + t + post) == t
  {
    if t == [] {
      assert pre + t + post == pre + post + [];
      assert AllSpaces(pre + post);
      TrimStartPadded(pre + post, []);
    } else {
      assert pre + t + post == pre + (t + post);
      TrimStartPadded(pre, t + post);
      TrimEndPadded(t, post);
    }
  }

  /** Stripping twice is stripping once. */
  lemma StripIdempotent(s: string)
    ensures Strip(Strip(s)) == Strip(s)
  {
    var t := Strip(s);
    assert [] + t + [] == t;
    StripPadded([], t, []);
  }

  lemma AllSpacesConcat(a: string, b: string)
    requires AllSpaces(a) && AllSpaces(b)
    ensures AllSpaces(a + b)
  {
    forall i | 0 <= i < |a + b|
      ensures IsSpace((a + b)[i])
    {
      if i < |a| {
        assert (a + b)[i] == a[i];
      } else {
        assert (a + b)[i] == b[i - |a|];
      }
    }
  }

  /** What TrimStart removes is whitespace. */
  lemma {:induction false} TrimStartSplit(s: string) returns (lead: string)
    ensures AllSpaces(lead) && s == lead + TrimStart(s)
  {
    if s != [] && IsSpace(s[0]) {
      var tail := s[1..];
      var rest := TrimStartSplit(tail);
      lead := [s[0]] + rest;
      assert TrimStart(s) == TrimStart(tail);
      assert s == [s[0]] + tail;
      assert tail == rest + TrimStart(tail);
      AllSpacesConcat([s[0]], rest);
    } else {
      lead := [];
    }
  }

  /** What TrimEnd removes is whitespace. */
  lemma {:induction false} TrimEndSplit(s: string) returns (trail: string)
    ensures AllSpaces(trail) && s == TrimEnd(s) + trail
  {
    if s != [] && IsSpace(s[|s| - 1]) {
      var n := |s| - 1;
      var init := s[..n];
      var rest := TrimEndSplit(init);
      trail := rest + [s[n]];
      assert TrimEnd(s) == TrimEnd(init);
      assert s == init + [s[n]];
      assert init == TrimEnd(init) + rest;
      AllSpacesConcat(rest, [s[n]]);
    } else {
      trail := [];
    }
  }

  /** Every text is its stripped form with whitespace on either side. */
  lemma StripSplit(s: string) returns (lead: string, trail: string)
    ensures AllSpaces(lead) && AllSpaces(trail)
    ensures s == lead + Strip(s) + trail
  {
    lead := TrimStartSplit(s);
    trail := TrimEndSplit(TrimStart(s));
  }

  lemma Regroup(pre: string, lead: string, core: string, trail: string, post: string)
    ensures pre + (lead + core + trail) + post == (pre + lead) + core + (trail + post)
  {
  }

  /** Whitespace added around a text does not change what Strip returns. */
  lemma {:induction false} StripOfPadded(pre: string, s: string, post: string)
    requires AllSpaces(pre) && AllSpaces(post)
    ensures Strip(pre + s + post) == Strip(s)
  {
    var lead, trail := StripSplit(s);
    Regroup(pre, lead, Strip(s), trail, post);
    AllSpacesConcat(pre, lead);
    AllSpacesConcat(trail, post);
    StripPadded(pre + lead, Strip(s), trail + post);
  }

  /** Appending a non-space character commutes with trimming the front. */
  lemma {:induction false} TrimStartAppend(p: string, ch: char)
    requires !IsSpace(ch)
    ensures TrimStart(p + [ch]) == TrimStart(p) + [ch]
  {
    if p != [] {
      assert (p + [ch])[1..] == p[1..] + [ch];
      TrimStartAppend(p[1..], ch);
    }
  }

  /** A text ending in a non-space character loses only its leading whitespace. */
  lemma StripEndingWith(p: string, ch: char)
    requires !IsSpace(ch)
    ensures Strip(p + [ch]) == TrimStart(p) + [ch]
  {
    TrimStartAppend(p, ch);
  }

  /** The value of a run of decimal digits, most significant first. */
  function DigitsValue(ds: string): nat
    requires AllDigits(ds)
  {
    if ds == [] then 0 else DigitsValue(ds[..|ds| - 1]) * 10 + (ds[|ds| - 1] as int - '0' as int)
  }

  function Pow10(n: nat): (r: nat)
    ensures r >= 1
  {
    if n == 0 then 1 else 10 * Pow10(n - 1)
  }

  /** Position of the first '.' in s, or |s| when there is none. */
  function DotIndex(s: string): (k: nat)
    ensures k <= |s|
    ensures forall i :: 0 <= i < k ==> s[i] != '.'
    ensures k < |s| ==> s[k] == '.'
  {
    if s == [] || s[0] == '.' then 0 else 1 + DotIndex(s[1..])
  }

  /** An optional leading '+' or '-': whether it was '-', and what follows it. */
  function SplitSign(t: string): (r: (bool, string))
    ensures r.1 == if t != [] && t[0] in {'+', '-'} then t[1..] else t
    ensures r.0 <==> t != [] && t[0] == '-'
  {
    if t != [] && (t[0] == '-' || t[0] == '+') then (t[0] == '-', t[1..]) else (false, t)
  }

  /** int() on an already stripped text: sign? digit+. */
  function IntLiteral(t: string): Option<int>
  {
    var (negative, body) := SplitSign(t);
    if body != [] && AllDigits(body) then
      var v: int := DigitsValue(body);
      Some(if negative then -v else v)
    else
      None
  }

  /** float() on an already stripped text: sign? digit* ('.' digit*)?, with at least one digit. */
  function FloatLiteral(t: string): Option<real>
  {
    var (negative, body) := SplitSign(t);
    var k := DotIndex(body);
    var whole := body[..k];
    var fraction := if k < |body| then body[k + 1..] else [];
    if AllDigits(whole) && AllDigits(fraction) && |whole| + |fraction| > 0 then
      var x := DigitsValue(whole) as real + DigitsValue(fraction) as real / Pow10(|fraction|) as real;
      Some(if negative then -x else x)
    else
      None
  }

  /** Python's int(s): surrounding whitespace is allowed. */
  function ParseInt(s: string): Option<int>
  {
    IntLiteral(Strip(s))
  }

  /** Python's float(s), restricted to plain decimal notation. */
  function ParseFloat(s: string): Option<real>
  {
    FloatLiteral(Strip(s))
  }

  /** Every text int() accepts, float() accepts too, with the same value. */
  lemma IntIsFloat(s: string)
    requires ParseInt(s).Some?
    ensures ParseFloat(s) == Some(ParseInt(s).value as real)
  {
    var (negative, body) := SplitSign(Strip(s));
    assert DotIndex(body) == |body|;
    assert body[..|body|] == body;
  }

  /** A text whose last character is neither a digit nor '.' is not a number. */
  lemma NotNumberBeforeLetter(t: string)
    requires t != [] && !IsDigit(t[|t| - 1]) && t[|t| - 1] != '.'
    ensures IntLiteral(t) == None && FloatLiteral(t) == None
  {
    var (negative, body) := SplitSign(t);
    if body != [] {
      assert body[|body| - 1] == t[|t| - 1];
      var k := DotIndex(body);
      if k < |body| {
        var fraction := body[k + 1..];
        assert k < |body| - 1;
        assert fraction[|fraction| - 1] == t[|t| - 1];
      } else {
        assert body[..k][|body| - 1] == t[|t| - 1];
      }
    }
  }

  function DigitChar(d: nat): (ch: char)
    requires d < 10
    ensures IsDigit(ch) && ch as int - '0' as int == d
  {
    ('0' as int + d) as char
  }

  /** The decimal text Python prints for a natural number. */
  function NatText(n: nat): (r: string)
    ensures r != [] && AllDigits(r)
    ensures '.' !in r
  {
    if n < 10 then [DigitChar(n)] else NatText(n / 10) + [DigitChar(n % 10)]
  }

  /** The decimal text Python prints for an integer (str(n)). */
  function IntText(n: int): (r: string)
    ensures r != [] && IsDigit(r[|r| - 1])
    ensures r[0] == '-' || IsDigit(r[0])
    ensures '.' !in r
  {
    if n < 0 then "-" + NatText(-n) else NatText(n)
  }

  lemma {:induction false} NatTextValue(n: nat)
    ensures DigitsValue(NatText(n)) == n
  {
    if n >= 10 {
      var r := NatText(n);
      assert r[..|r| - 1] == NatText(n / 10);
      NatTextValue(n / 10);
    }
  }

  /** int() reads a signed run of digits as its value. */
  lemma SignedDigits(negative: bool, ds: string)
    requires ds != [] && AllDigits(ds)
    ensures IntLiteral(if negative then "-" + ds else ds)
         == Some(if negative then -(DigitsValue(ds) as int) else DigitsValue(ds))
  {
    if negative {
      assert ("-" + ds)[1..] == ds;
    }
  }

  /** int(str(n)) == n. */
  lemma {:induction false} IntTextRoundTrip(n: int)
    ensures ParseInt(IntText(n)) == Some(n)
  {
    var t := IntText(n);
    assert [] + t + [] == t;
    StripPadded([], t, []);
    var m: nat := if n < 0 then -n else n;
    NatTextValue(m);
    SignedDigits(n < 0, NatText(m));
  }
}
