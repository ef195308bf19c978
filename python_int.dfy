/** Python's built-in conversions between `int` and `str` in base 10, as the
    frontend uses them: `int(value)` parses the amount of a volume command and
    `str(volume)` prints the payload of a volume message. */
module PythonInt {

  datatype Option<+T> = None | Some(value: T)

  /** The characters `int()` ignores, any number of them, before and after the
      literal: those for which `str.isspace()` holds, except U+001C to U+001F,
      which `int()` keeps and then rejects. */
  predicate IsSpace(c: char) {
    ('\t' <= c <= '\r') || c == ' ' ||
    c == '\U{85}' || c == '\U{A0}' || c == '\U{1680}' ||
    ('\U{2000}' <= c <= '\U{200A}') || c == '\U{2028}' || c == '\U{2029}' ||
    c == '\U{202F}' || c == '\U{205F}' || c == '\U{3000}'
  }

  predicate IsDigit(c: char) {
    '0' <= c <= '9'
  }

  predicate AllDigits(s: string) {
    forall k :: 0 <= k < |s| ==> IsDigit(s[k])
  }

  function DigitValue(c: char): (d: nat)
    requires IsDigit(c)
    ensures d < 10
  {
    c as int - '0' as int
  }

  function DigitChar(d: nat): (c: char)
    requires d < 10
    ensures IsDigit(c) && DigitValue(c) == d
  {
    ('0' as int + d) as char
  }

  /** `s` without its leading whitespace. */
  function TrimStart(s: string): (r: string)
    ensures |r| <= |s| && r == s[|s| - |r|..]
    ensures forall k :: 0 <= k < |s| - |r| ==> IsSpace(s[k])
    ensures r == [] || !IsSpace(r[0])
  {
    if |s| > 0 && IsSpace(s[0]) then TrimStart(s[1..]) else s
  }

  /** `s` without its trailing whitespace. */
  function TrimEnd(s: string): (r: string)
    ensures |r| <= |s| && r == s[..|r|]
    ensures forall k :: |r| <= k < |s| ==> IsSpace(s[k])
    ensures r == [] || !IsSpace(r[|r| - 1])
  {
    if |s| > 0 && IsSpace(s[|s| - 1]) then TrimEnd(s[..|s| - 1]) else s
  }

  /** Python's `str.strip()`. */
  function Strip(s: string): string {
    TrimEnd(TrimStart(s))
  }

  /** The digits of a base-10 literal as Python writes them: decimal digits,
      where a single underscore may stand between two digits. */
  predicate IsDigitGroups(s: string) {
    |s| > 0 && IsDigit(s[0]) && IsDigit(s[|s| - 1]) &&
    (forall k :: 0 <= k < |s| ==> IsDigit(s[k]) || s[k] == '_') &&
    (forall k :: 0 <= k < |s| - 1 ==> s[k] == '_' ==> s[k + 1] != '_')
  }

  function RemoveUnderscores(s: string): (r: string)
    ensures (forall k :: 0 <= k < |s| ==> IsDigit(s[k]) || s[k] == '_') ==> AllDigits(r)
    ensures AllDigits(s) ==> r == s
  {
    if s == [] then [] else (if s[0] == '_' then [] else [s[0]]) + RemoveUnderscores(s[1..])
  }

  /** The number a string of decimal digits denotes, most significant first. */
  function DigitsValue(ds: string): nat
    requires AllDigits(ds)
  {
    if ds == [] then 0 else 10 * DigitsValue(ds[..|ds| - 1]) + DigitValue(ds[|ds| - 1])
  }

  /** The digits after the sign: `None` unless Python's literal grammar holds. */
  function ParseDigits(body: string): (r: Option<nat>)
    ensures r.Some? <==> IsDigitGroups(body)
  {
    if IsDigitGroups(body) then Some(DigitsValue(RemoveUnderscores(body))) else None
  }

  /** An optional sign followed by the digits, with no surrounding whitespace. */
  function ParseSigned(t: string): Option<int> {
    if |t| == 0 then None
    else if t[0] == '-' || t[0] == '+' then
      match ParseDigits(t[1..])
      case None => None
      case Some(n) => Some(if t[0] == '-' then -(n as int) else n as int)
    else
      match ParseDigits(t)
      case None => None
      case Some(n) => Some(n)
  }

  /** Python's grammar for a base-10 `int` literal without surrounding
      whitespace: an optional sign, then digit groups. */
  predicate IsIntLiteral(t: string) {
    |t| > 0 && IsDigitGroups(if t[0] == '-' || t[0] == '+' then t[1..] else t)
  }

  /** Python's `int(s)` for a string `s`: `None` stands for the `ValueError`
      it raises. Surrounding whitespace is ignored, a sign is optional. */
  function ParseInt(s: string): (r: Option<int>)
  {
    ParseSigned(Strip(s))
  }

  /** What `int()` accepts and the sign of what it returns: once whitespace
      is stripped, exactly the literals made of an optional sign and digit
      groups; the result is negative only after a `-` and never positive
      after one. */
  lemma ParseIntAccepts(s: string)
    ensures ParseInt(s).Some? <==> IsIntLiteral(Strip(s))
    ensures ParseInt(s).Some? && ParseInt(s).value < 0 ==> Strip(s)[0] == '-'
    ensures ParseInt(s).Some? && Strip(s)[0] == '-' ==> ParseInt(s).value <= 0
  {
  }

  /** Python's `str(n)` for a non-negative `n`: no sign, no leading zero. */
  function NatToString(n: nat): (s: string)
    ensures |s| > 0 && AllDigits(s)
    ensures n == 0 <==> s == "0"
    ensures n > 0 ==> s[0] != '0'
    decreases n
  {
    if n < 10 then [DigitChar(n)] else NatToString(n / 10) + [DigitChar(n % 10)]
  }

  /** Python's `str(n)` for an `int`: a minus sign exactly for negative numbers,
      then the decimal digits. */
  function IntToString(n: int): (s: string)
    ensures |s| > 0
    ensures s[0] == '-' <==> n < 0
    ensures n < 0 ==> |s| > 1 && AllDigits(s[1..]) && s[1] != '0'
    ensures n >= 0 ==> AllDigits(s)
    ensures n == 0 <==> s == "0"
    ensures n > 0 ==> s[0] != '0'
  {
    if n < 0 then "-" + NatToString(-n) else NatToString(n)
  }

  lemma {:induction false} DigitsValueOfNatToString(n: nat)
    ensures DigitsValue(NatToString(n)) == n
    decreases n
  {
    var s := NatToString(n);
    if n < 10 {
      assert s[..|s| - 1] == [];
    } else {
      DigitsValueOfNatToString(n / 10);
      assert s[..|s| - 1] == NatToString(n / 10);
    }
  }

  lemma ParseDigitsOfNatToString(n: nat)
    ensures ParseDigits(NatToString(n)) == Some(n)
  {
    DigitsValueOfNatToString(n);
  }

  lemma StripUnchanged(s: string)
    requires s != [] && !IsSpace(s[0]) && !IsSpace(s[|s| - 1])
    ensures Strip(s) == s
  {
  }

  lemma ParseSignedOfIntToString(n: int)
    ensures ParseSigned(IntToString(n)) == Some(n)
  {
    var s := IntToString(n);
    if n < 0 {
      var m: nat := -n;
      ParseDigitsOfNatToString(m);
      assert s[1..] == NatToString(m);
    } else {
      ParseDigitsOfNatToString(n);
    }
  }

  /** `int(str(n)) == n`: the decimal text of a number parses back to it. */
  lemma {:induction false} ParseIntOfIntToString(n: int)
    ensures ParseInt(IntToString(n)) == Some(n)
  {
    StripUnchanged(IntToString(n));
    ParseSignedOfIntToString(n);
  }

  lemma ParseDigitsOfDigits(digits: string)
    requires digits != [] && AllDigits(digits)
    ensures IsDigitGroups(digits) && RemoveUnderscores(digits) == digits
    ensures ParseDigits(digits) == Some(DigitsValue(digits))
  {
  }

  lemma ParseSignedWithSign(t: string)
    requires |t| > 1 && (t[0] == '+' || t[0] == '-') && AllDigits(t[1..])
    ensures ParseSigned(t) ==
            Some(if t[0] == '-' then -(DigitsValue(t[1..]) as int) else DigitsValue(t[1..]))
  {
    ParseDigitsOfDigits(t[1..]);
  }

  lemma ParseIntWithSign(t: string)
    requires |t| > 1 && (t[0] == '+' || t[0] == '-') && AllDigits(t[1..])
    ensures ParseInt(t) ==
            Some(if t[0] == '-' then -(DigitsValue(t[1..]) as int) else DigitsValue(t[1..]))
  {
    assert IsDigit(t[|t| - 1]) by {
      assert t[|t| - 1] == t[1..][|t| - 2];
    }
    StripUnchanged(t);
    ParseSignedWithSign(t);
  }

  /** A `+` or `-` sign in front of the digits is accepted. */
  lemma {:induction false} ParseIntSigned(n: nat)
    ensures ParseInt("+" + NatToString(n)) == Some(n)
    ensures ParseInt("-" + NatToString(n)) == Some(-(n as int))
  {
    var digits := NatToString(n);
    DigitsValueOfNatToString(n);
    var plus := "+" + digits;
    assert plus[0] == '+' && plus[1..] == digits;
    ParseIntWithSign(plus);
    var minus := "-" + digits;
    assert minus[0] == '-' && minus[1..] == digits;
    ParseIntWithSign(minus);
  }

  lemma {:induction false} TrimStartSpaces(w: string, s: string)
    requires forall k :: 0 <= k < |w| ==> IsSpace(w[k])
    ensures TrimStart(w + s) == TrimStart(s)
    decreases |w|
  {
    if w != [] {
      assert (w + s)[1..] == w[1..] + s;
      TrimStartSpaces(w[1..], s);
    } else {
      assert w + s == s;
    }
  }

  lemma {:induction false} TrimEndSpaces(s: string, w: string)
    requires forall k :: 0 <= k < |w| ==> IsSpace(w[k])
    ensures TrimEnd(s + w) == TrimEnd(s)
    decreases |w|
  {
    if w != [] {
      assert (s + w)[..|s + w| - 1] == s + w[..|w| - 1];
      TrimEndSpaces(s, w[..|w| - 1]);
    } else {
      assert s + w == s;
    }
  }

  lemma {:induction false} TrimStartAppend(x: string, y: string)
    ensures TrimStart(x) != [] ==> TrimStart(x + y) == TrimStart(x) + y
    ensures TrimStart(x) == [] ==> TrimStart(x + y) == TrimStart(y)
    decreases |x|
  {
    if x == [] {
      assert x + y == y;
    } else if IsSpace(x[0]) {
      assert (x + y)[1..] == x[1..] + y;
      TrimStartAppend(x[1..], y);
    }
  }

  /** `int()` ignores whitespace before and after its argument, whatever the
      argument is. */
  lemma ParseIntIgnoresSpace(w1: string, s: string, w2: string)
    requires forall k :: 0 <= k < |w1| ==> IsSpace(w1[k])
    requires forall k :: 0 <= k < |w2| ==> IsSpace(w2[k])
    ensures ParseInt(w1 + s + w2) == ParseInt(s)
  {
    assert w1 + s + w2 == w1 + (s + w2);
    TrimStartSpaces(w1, s + w2);
    TrimStartAppend(s, w2);
    if TrimStart(s) != [] {
      TrimEndSpaces(TrimStart(s), w2);
    } else {
      TrimStartSpaces(w2, []);
      assert w2 + [] == w2;
    }
  }

  lemma {:induction false} RemoveUnderscoresAppend(x: string, y: string)
    ensures RemoveUnderscores(x + y) == RemoveUnderscores(x) + RemoveUnderscores(y)
    decreases |x|
  {
    if x == [] {
      assert x + y == y;
    } else {
      var head := if x[0] == '_' then [] else [x[0]];
      assert (x + y)[0] == x[0] && (x + y)[1..] == x[1..] + y;
      assert RemoveUnderscores(x + y) == head + RemoveUnderscores(x[1..] + y);
      RemoveUnderscoresAppend(x[1..], y);
    }
  }

  lemma DigitGroupsJoin(a: string, b: string)
    requires a != [] && b != [] && AllDigits(a) && AllDigits(b)
    ensures IsDigitGroups(a + "_" + b)
  {
    var u := a + "_" + b;
    forall k | 0 <= k < |u|
      ensures IsDigit(u[k]) || u[k] == '_'
      ensures k != |a| ==> IsDigit(u[k])
    {
      if k < |a| {
        assert u[k] == a[k];
      } else if k > |a| {
        assert u[k] == b[k - |a| - 1];
      }
    }
  }

  /** An optional sign and Python digits, already stripped, read as one
      unsigned number when no sign is present. */
  lemma ParseUnsignedText(t: string)
    requires IsDigitGroups(t)
    ensures ParseInt(t) == Some(ParseDigits(t).value as int)
  {
    StripUnchanged(t);
  }

  /** An underscore between two digits does not change the number. */
  lemma ParseIntUnderscore(a: string, b: string)
    requires a != [] && b != [] && AllDigits(a) && AllDigits(b)
    ensures ParseInt(a + "_" + b) == ParseInt(a + b)
  {
    var u, v := a + "_" + b, a + b;
    DigitGroupsJoin(a, b);
    assert RemoveUnderscores(u) == v by {
      RemoveUnderscoresAppend(a + "_", b);
      RemoveUnderscoresAppend(a, "_");
    }
    assert AllDigits(v) by {
      forall k | 0 <= k < |v| ensures IsDigit(v[k]) {
        if k < |a| { assert v[k] == a[k]; } else { assert v[k] == b[k - |a|]; }
      }
    }
    ParseUnsignedText(u);
    ParseUnsignedText(v);
  }

  /** A character that is neither whitespace, a digit, a sign nor an underscore
      makes `int()` fail, wherever it stands. */
  lemma ParseIntRejectsForeignChar(s: string, k: nat)
    requires k < |s| && !IsSpace(s[k]) && !IsDigit(s[k])
    requires s[k] != '+' && s[k] != '-' && s[k] != '_'
    ensures ParseInt(s) == None
  {
    var a := TrimStart(s);
    var i := |s| - |a|;
    assert k >= i;
    var t := TrimEnd(a);
    assert k - i < |t|;
    assert t[k - i] == s[k];
    if |t| > 0 {
      var body := if t[0] == '-' || t[0] == '+' then t[1..] else t;
      if k - i == 0 {
        assert body == t && body[0] == s[k];
      } else if t[0] == '-' || t[0] == '+' {
        assert body[k - i - 1] == s[k];
      } else {
        assert body[k - i] == s[k];
      }
    }
  }

  /** A string of nothing but whitespace is not a number. */
  lemma ParseIntBlank(w: string)
    requires forall k :: 0 <= k < |w| ==> IsSpace(w[k])
    ensures ParseInt(w) == None
  {
    TrimStartSpaces(w, []);
    assert w + [] == w;
  }
}
