/** Numeric coercion shared by the calculation engine (src/present/PresentApp.tsx)
    and the evaluation stub (src/api.ts): a field value is a string or a number;
    strings are read with JavaScript's `parseFloat`, and whatever does not parse
    counts as 0. Numbers are exact reals here. Also the sum of the values of a
    JavaScript object (`Object.values(o).reduce((acc, v) => acc + v, 0)`). */
module NumberCoercion {
  import opened Wrappers

  /** `string | number`: what an input cell holds. */
  datatype CellValue = Text(s: string) | Number(n: real)

  predicate IsDigit(c: char)
  {
    '0' <= c <= '9'
  }

  predicate AllDigits(d: string)
  {
    forall i :: 0 <= i < |d| ==> IsDigit(d[i])
  }

  function DigitValue(c: char): (v: nat)
    requires IsDigit(c)
    ensures v <= 9
  {
    (c as int) - ('0' as int)
  }

  function Pow10(k: nat): (p: nat)
    ensures p >= 1
  {
    if k == 0 then 1 else 10 * Pow10(k - 1)
  }

  /** The length of the run of decimal digits that `s` starts with. */
  function DigitRun(s: string): (n: nat)
    ensures n <= |s| && AllDigits(s[..n])
    ensures n < |s| ==> !IsDigit(s[n])
    ensures n > 0 <==> s != [] && IsDigit(s[0])
  {
    if s != [] && IsDigit(s[0]) then
      var n := 1 + DigitRun(s[1..]);
      assert s[..n] == [s[0]] + s[1..][..n - 1];
      n
    else 0
  }

  /** The value of a string of decimal digits, most significant first. */
  function DigitsValue(d: string): nat
    requires AllDigits(d)
  {
    if d == [] then 0 else 10 * DigitsValue(d[..|d| - 1]) + DigitValue(d[|d| - 1])
  }

  /** The white space `parseFloat` skips before the number. */
  predicate IsSpace(c: char)
  {
    c == ' ' || c == '\t' || c == '\n' || c == '\r' || c == '\U{000B}' || c == '\U{000C}' ||
    c == '\U{00A0}' || c == '\U{FEFF}'
  }

  function TrimStart(s: string): (t: string)
    ensures |t| <= |s| && t == s[|s| - |t|..]
    ensures t == [] || !IsSpace(t[0])
    ensures forall i :: 0 <= i < |s| - |t| ==> IsSpace(s[i])
  {
    if s != [] && IsSpace(s[0]) then TrimStart(s[1..]) else s
  }

  /** The factor an exponent part (`e12`, `E-3`) contributes; 1 when `s` does
      not start with a complete exponent. */
  function ExponentScale(s: string): (r: real)
    ensures r > 0.0
    ensures !StartsWithExponent(s) ==> r == 1.0
  {
    if s != [] && (s[0] == 'e' || s[0] == 'E') then
      var negative := |s| > 1 && s[1] == '-';
      var digits := if |s| > 1 && (s[1] == '+' || s[1] == '-') then s[2..] else s[1..];
      var k := DigitRun(digits);
      if k == 0 then 1.0
      else
        var p := Pow10(DigitsValue(digits[..k])) as real;
        if negative then 1.0 / p else p
    else 1.0
  }

  /** `s` starts with a complete exponent part: `e` or `E`, an optional sign,
      and at least one digit. */
  predicate StartsWithExponent(s: string)
  {
    |s| >= 2 && (s[0] == 'e' || s[0] == 'E') &&
    (IsDigit(s[1]) || (|s| >= 3 && (s[1] == '+' || s[1] == '-') && IsDigit(s[2])))
  }

  /** The digit run of digits followed by a non-digit stops where the digits end. */
  lemma {:induction false} DigitRunPrefix(d: string, rest: string)
    requires AllDigits(d)
    requires rest == [] || !IsDigit(rest[0])
    ensures DigitRun(d + rest) == |d|
    decreases |d|
  {
    if d != [] {
      assert (d + rest)[1..] == d[1..] + rest;
      DigitRunPrefix(d[1..], rest);
    }
  }

  /** An exponent part `e<digits>`, `e+<digits>` or `e-<digits>` scales by
      10 to the power of the digits' value, negated after a minus sign;
      whatever follows the digits is not part of the exponent. */
  lemma {:induction false} ExponentScaleValue(marker: char, sign: string, d: string, rest: string)
    requires marker == 'e' || marker == 'E'
    requires sign == "" || sign == "+" || sign == "-"
    requires d != [] && AllDigits(d)
    requires rest == [] || !IsDigit(rest[0])
    ensures ExponentScale([marker] + sign + d + rest) ==
      if sign == "-" then 1.0 / Pow10(DigitsValue(d)) as real else Pow10(DigitsValue(d)) as real
  {
    var s := [marker] + sign + d + rest;
    var digits := if |s| > 1 && (s[1] == '+' || s[1] == '-') then s[2..] else s[1..];
    if sign == "" {
      assert s[1] == d[0] && IsDigit(s[1]);
      assert digits == d + rest;
    } else {
      assert s[1] == sign[0];
      assert digits == d + rest;
    }
    DigitRunPrefix(d, rest);
    assert digits[..|d|] == d;
  }

  /** The number an unsigned decimal literal at the start of `u` denotes:
      digits, an optional point and digits (at least one digit in all), and an
      optional exponent; `None` when `u` does not start with such a literal. */
  function ParseUnsigned(u: string): (r: Option<real>)
    ensures r.Some? <==> (u != [] && IsDigit(u[0])) || StartsWithFraction(u)
  {
    var n := DigitRun(u);
    var afterInt := u[n..];
    var hasFraction := afterInt != [] && afterInt[0] == '.';
    var m := if hasFraction then DigitRun(afterInt[1..]) else 0;
    var fracDigits := if hasFraction then afterInt[1..][..m] else [];
    var afterFrac := if hasFraction then afterInt[1 + m..] else afterInt;
    if n + m == 0 then None
    else
      var mantissa := DigitsValue(u[..n]) as real + DigitsValue(fracDigits) as real / Pow10(m) as real;
      Some(mantissa * ExponentScale(afterFrac))
  }

  /** `parseFloat(s)`: leading white space is skipped, then an optional sign
      and an unsigned decimal literal are read; `None` stands for NaN. */
  function ParseFloat(s: string): (r: Option<real>)
    ensures r.Some? <==> HasNumericPrefix(s)
  {
    var t := TrimStart(s);
    match ParseUnsigned(Unsigned(t))
    case None => None
    case Some(x) => Some(if t != [] && t[0] == '-' then -x else x)
  }

  /** `s` without a leading sign. */
  function Unsigned(s: string): (u: string)
    ensures u == s || (s != [] && (s[0] == '+' || s[0] == '-') && u == s[1..])
  {
    if s != [] && (s[0] == '+' || s[0] == '-') then s[1..] else s
  }

  /** After white space and an optional sign, `s` starts with a digit, or with
      a point and a digit: exactly the strings `parseFloat` does not map to NaN. */
  predicate HasNumericPrefix(s: string)
  {
    var u := Unsigned(TrimStart(s));
    (u != [] && IsDigit(u[0])) || StartsWithFraction(u)
  }

  /** `s` starts with a point followed by a digit. */
  predicate StartsWithFraction(s: string)
  {
    |s| >= 2 && s[0] == '.' && IsDigit(s[1])
  }

  /** The number a cell value stands for in a calculation:
      `typeof raw === "number" ? raw : parseFloat(String(raw))`, with NaN read as 0. */
  function Coerce(v: CellValue): (r: real)
    ensures v.Number? ==> r == v.n
    ensures v.Text? && ParseFloat(v.s).None? ==> r == 0.0
    ensures v.Text? && ParseFloat(v.s).Some? ==> r == ParseFloat(v.s).value
  {
    match v
    case Number(n) => n
    case Text(s) => ParseFloat(s).GetOr(0.0)
  }

  // ---------------------------------------------------------------------------
  // Decimal rendering, the inverse direction

  /** `String(n)` for a natural number `n`. */
  function DecimalString(n: nat): (d: string)
    ensures d != [] && AllDigits(d)
  {
    var last := ['0' + (n % 10) as char];
    if n < 10 then last else DecimalString(n / 10) + last
  }

  lemma {:induction false} DecimalStringValue(n: nat)
    ensures DigitsValue(DecimalString(n)) == n
  {
    var d := DecimalString(n);
    if n >= 10 {
      DecimalStringValue(n / 10);
      assert d[..|d| - 1] == DecimalString(n / 10);
    }
  }

  lemma {:induction false} DigitRunAll(d: string)
    requires AllDigits(d)
    ensures DigitRun(d) == |d|
  {
    if d != [] {
      DigitRunAll(d[1..]);
    }
  }

  lemma {:induction false} ParseAllDigits(d: string)
    requires d != [] && AllDigits(d)
    ensures ParseUnsigned(d) == Some(DigitsValue(d) as real)
  {
    DigitRunAll(d);
    assert d[..|d|] == d;
    assert d[|d|..] == [];
    assert ExponentScale([]) == 1.0;
    assert Pow10(0) == 1 && DigitsValue([]) == 0;
  }

  /** Reading back the decimal rendering of a natural number gives the number. */
  lemma ParseDecimal(n: nat)
    ensures ParseFloat(DecimalString(n)) == Some(n as real)
  {
    var d := DecimalString(n);
    DecimalStringValue(n);
    ParseAllDigits(d);
    assert IsDigit(d[0]) && !IsSpace(d[0]);
    assert TrimStart(d) == d;
    assert Unsigned(d) == d;
  }

  /** The same with a leading minus sign. */
  lemma ParseNegativeDecimal(n: nat)
    ensures ParseFloat("-" + DecimalString(n)) == Some(-(n as real))
  {
    var d := DecimalString(n);
    var s := "-" + d;
    DecimalStringValue(n);
    ParseAllDigits(d);
    assert !IsSpace(s[0]);
    assert TrimStart(s) == s;
    assert Unsigned(s) == d;
  }

  /** Text that does not start, after white space and a sign, with a digit or
      a point and a digit is NaN to `parseFloat`, so it coerces to 0. */
  lemma NonNumericIsZero(s: string)
    requires !HasNumericPrefix(s)
    ensures Coerce(Text(s)) == 0.0
  {
  }

  /** A blank cell reads as 0. */
  lemma BlankIsZero()
    ensures Coerce(Text("")) == 0.0
  {
    NonNumericIsZero("");
  }

  /** "10" reads as 10. */
  lemma CoerceTen(s: string)
    requires s == "10"
    ensures Coerce(Text(s)) == 10.0
  {
    assert IsDigit(s[0]) && IsDigit(s[1]) && !IsSpace(s[0]);
    assert TrimStart(s) == s;
    assert Unsigned(s) == s;
    ParseAllDigits(s);
    assert s[..1] == "1" && DigitsValue(s[..1]) == 1;
    assert DigitsValue(s) == 10;
  }

  /** "abc" is NaN to `parseFloat` and so reads as 0. */
  lemma CoerceAbc(s: string)
    requires s == "abc"
    ensures Coerce(Text(s)) == 0.0
  {
    assert s[0] == 'a' && !IsSpace(s[0]) && !IsDigit(s[0]);
    assert TrimStart(s) == s;
    assert Unsigned(s) == s;
    assert !StartsWithFraction(s);
    NonNumericIsZero(s);
  }

  // ---------------------------------------------------------------------------
  // Sums over the values of an object

  /** The sum of the values of `m`, in no particular order. */
  ghost function Total<K>(m: map<K, real>): real
    decreases |m|
  {
    if |m| == 0 then 0.0
    else
      var k :| k in m;
      m[k] + Total(m - {k})
  }

  lemma SizeAfterRemove<K>(m: map<K, real>, k: K)
    requires k in m
    ensures |m - {k}| == |m| - 1
  {
    assert (m - {k}).Keys == m.Keys - {k};
  }

  /** The sum may be taken starting from any key: the order in which
      `Object.values` lists the values does not matter. */
  lemma {:induction false} TotalPick<K>(m: map<K, real>, k: K)
    requires k in m
    ensures Total(m) == m[k] + Total(m - {k})
    decreases |m|
  {
    assert |m| != 0;
    var j :| j in m && Total(m) == m[j] + Total(m - {j});
    if j != k {
      var mj, mk := m - {j}, m - {k};
      SizeAfterRemove(m, j);
      SizeAfterRemove(m, k);
      assert |mj| < |m| && |mk| < |m|;
      assert k in mj && mj[k] == m[k];
      assert j in mk && mk[j] == m[j];
      var rest := mj - {k};
      assert rest == mk - {j};
      TotalPick(mj, k);
      assert Total(mj) == m[k] + Total(rest);
      TotalPick(mk, j);
      assert Total(mk) == m[j] + Total(rest);
      assert Total(m) == m[j] + (m[k] + Total(rest));
    }
  }

  lemma {:induction false} TotalOfZeros<K>(m: map<K, real>)
    requires forall k :: k in m ==> m[k] == 0.0
    ensures Total(m) == 0.0
    decreases |m|
  {
    if |m| != 0 {
      var k :| k in m;
      TotalPick(m, k);
      SizeAfterRemove(m, k);
      TotalOfZeros(m - {k});
    }
  }

  /** `Object.values(m).reduce((acc, v) => acc + v, 0)`. */
  method SumValues<K>(m: map<K, real>) returns (sum: real)
    ensures sum == Total(m)
  {
    sum := 0.0;
    var rest := m;
    while rest != map[]
      invariant sum + Total(rest) == Total(m)
      decreases |rest|
    {
      var k :| k in rest;
      TotalPick(rest, k);
      SizeAfterRemove(rest, k);
      sum := sum + rest[k];
      rest := rest - {k};
    }
  }
}
