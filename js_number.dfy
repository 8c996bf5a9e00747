/** JavaScript values, the `||` fallback and the number parsing the importer relies on. */
module JsNumber {
  import opened JsText

  datatype Option<T> = None | Some(value: T)

  /** The scalar values a record field or a form field can hold. Money is exact (`real`). */
  datatype JsVal = Undefined | Null | Bool(b: bool) | Num(n: real) | NaN | Str(s: string)

  /** The values JavaScript treats as false: `undefined`, `null`, `false`, `0`, `NaN` and `''`. */
  predicate Falsy(v: JsVal) {
    v == Undefined || v == Null || v == Bool(false) || v == Num(0.0) || v == NaN || v == Str("")
  }

  /** `a || b`: the first operand unless it is falsy. */
  function Or(a: JsVal, b: JsVal): (r: JsVal)
    ensures Falsy(a) ==> r == b
    ensures !Falsy(a) ==> r == a
  {
    if Falsy(a) then b else a
  }

  /** `x || d` for a number that may be NaN (`None`): NaN and 0 both fall back on `d`. */
  function NumOr(x: Option<real>, d: real): (r: real)
    ensures (x == None || x == Some(0.0)) ==> r == d
    ensures x.Some? && x.value != 0.0 ==> r == x.value
  {
    if x.Some? && x.value != 0.0 then x.value else d
  }

  /** The numeric value of a field, `0` when absent or not a number (`valor || 0`). */
  function NumValue(v: JsVal): (r: real)
    ensures v.Num? ==> r == v.n
    ensures !v.Num? ==> r == 0.0
  {
    if v.Num? then v.n else 0.0
  }

  predicate IsDigit(c: char) { '0' <= c <= '9' }

  /** Every character of `d` is a decimal digit. */
  predicate AllDigits(d: string)
    decreases |d|
  {
    |d| == 0 || (IsDigit(d[0]) && AllDigits(d[1..]))
  }

  lemma {:induction false} AllDigitsAt(d: string, i: nat)
    requires AllDigits(d) && i < |d|
    ensures IsDigit(d[i])
    decreases |d|
  {
    if i > 0 {
      AllDigitsAt(d[1..], i - 1);
    }
  }

  /** The value of a decimal digit (0 for any other character). */
  function Digit(c: char): (n: nat)
    ensures n <= 9
  {
    if IsDigit(c) then c as int - '0' as int else 0
  }

  /** The value of the digits of `d` read after the digits worth `acc`, most significant first. */
  function DigitsValue(d: string, acc: nat): nat
    decreases |d|
  {
    if |d| == 0 then acc else DigitsValue(d[1..], 10 * acc + Digit(d[0]))
  }

  function Pow10(n: nat): (r: nat)
    ensures r >= 1
  {
    if n == 0 then 1 else 10 * Pow10(n - 1)
  }

  function Negate(r: Option<real>): (q: Option<real>)
    ensures q.None? <==> r.None?
    ensures r.Some? ==> q.value == -r.value
  {
    match r
    case None => None
    case Some(v) => Some(-v)
  }

  /**
   * `parseFloat(s)` on decimal text: leading white space, an optional sign, digits, an optional
   * fraction; the longest such prefix is read, and `None` stands for NaN.
   */
  function ParseFloat(s: string): (r: Option<real>)
    decreases |s|
  {
    if |s| > 0 && IsWhite(s[0]) then ParseFloat(s[1..])
    else if |s| > 0 && s[0] == '-' then Negate(IntegerPart(s[1..], 0, false))
    else if |s| > 0 && s[0] == '+' then IntegerPart(s[1..], 0, false)
    else IntegerPart(s, 0, false)
  }

  /** The digits before the point, `whole` being the value read so far and `seen` whether there was a digit. */
  function IntegerPart(u: string, whole: nat, seen: bool): (r: Option<real>)
    ensures r.Some? ==> r.value >= 0.0
    decreases |u|
  {
    if |u| > 0 && IsDigit(u[0]) then IntegerPart(u[1..], 10 * whole + Digit(u[0]), true)
    else if |u| > 0 && u[0] == '.' then FractionPart(u[1..], whole, 0, 0, seen)
    else if seen then Some(whole as real)
    else None
  }

  /** The digits after the point: `k` of them read so far, worth `frac`. */
  function FractionPart(u: string, whole: nat, frac: nat, k: nat, seen: bool): (r: Option<real>)
    ensures r.Some? ==> r.value >= 0.0
    decreases |u|
  {
    if |u| > 0 && IsDigit(u[0]) then FractionPart(u[1..], whole, 10 * frac + Digit(u[0]), k + 1, true)
    else if seen then Some(whole as real + Shifted(frac, k))
    else None
  }

  /** `n` with the decimal point moved `k` places to the left. */
  function Shifted(n: nat, k: nat): (r: real)
    ensures r >= 0.0
  {
    if k == 0 then n as real else Shifted(n, k - 1) / 10.0
  }

  /** Moving the point `k` places divides by the `k`-th power of ten. */
  lemma {:induction false} ShiftedDivides(n: nat, k: nat)
    ensures Shifted(n, k) == n as real / Pow10(k) as real
  {
    if k > 0 {
      ShiftedDivides(n, k - 1);
      var p := Pow10(k - 1) as real;
      assert Pow10(k) as real == 10.0 * p;
      assert n as real / p / 10.0 == n as real / (10.0 * p);
    }
  }

  /** `parseInt(s)` in base 10: white space, an optional sign, then the leading digits. */
  function ParseInt(s: string): (r: Option<int>)
    decreases |s|
  {
    if |s| > 0 && IsWhite(s[0]) then ParseInt(s[1..])
    else if |s| > 0 && s[0] == '-' then
      match IntegerDigits(s[1..], 0, false)
      case None => None
      case Some(v) => Some(-v)
    else if |s| > 0 && s[0] == '+' then IntegerDigits(s[1..], 0, false)
    else IntegerDigits(s, 0, false)
  }

  function IntegerDigits(u: string, acc: nat, seen: bool): (r: Option<int>)
    ensures r.Some? ==> r.value >= 0
    decreases |u|
  {
    if |u| > 0 && IsDigit(u[0]) then IntegerDigits(u[1..], 10 * acc + Digit(u[0]), true)
    else if seen then Some(acc)
    else None
  }

  /** A string made only of digits parses to its decimal value. */
  lemma {:induction false} ParseDigits(d: string)
    requires |d| > 0 && AllDigits(d)
    ensures ParseFloat(d) == Some(DigitsValue(d, 0) as real)
    ensures ParseInt(d) == Some(DigitsValue(d, 0))
  {
    assert IsDigit(d[0]);
    assert !IsWhite(d[0]);
    DigitsOnly(d, 0, false);
  }

  /** Reading nothing but digits from a state gives the digits' value. */
  lemma {:induction false} DigitsOnly(d: string, acc: nat, seen: bool)
    requires AllDigits(d) && (seen || |d| > 0)
    ensures IntegerPart(d, acc, seen) == Some(DigitsValue(d, acc) as real)
    ensures IntegerDigits(d, acc, seen) == Some(DigitsValue(d, acc))
    decreases |d|
  {
    if |d| > 0 {
      assert IsDigit(d[0]);
      DigitsOnly(d[1..], 10 * acc + Digit(d[0]), true);
    }
  }

  /** Digits followed by more text: the digits are read and the state carries on after them. */
  lemma {:induction false} IntegerThenRest(w: string, t: string, acc: nat, seen: bool)
    requires AllDigits(w)
    ensures IntegerPart(w + t, acc, seen) == IntegerPart(t, DigitsValue(w, acc), seen || |w| > 0)
    decreases |w|
  {
    if |w| > 0 {
      assert IsDigit(w[0]) && (w + t)[0] == w[0];
      assert (w + t)[1..] == w[1..] + t;
      IntegerThenRest(w[1..], t, 10 * acc + Digit(w[0]), true);
    } else {
      assert w + t == t;
    }
  }

  /** A fraction made only of digits adds their value over the matching power of ten. */
  lemma {:induction false} FractionOnly(f: string, whole: nat, frac: nat, k: nat)
    requires AllDigits(f)
    ensures FractionPart(f, whole, frac, k, true)
         == Some(whole as real + Shifted(DigitsValue(f, frac), k + |f|))
    decreases |f|
  {
    if |f| > 0 {
      assert IsDigit(f[0]);
      FractionOnly(f[1..], whole, 10 * frac + Digit(f[0]), k + 1);
    }
  }

  /** Digits, a point and digits read as the whole part plus the fraction. */
  lemma {:induction false} ParseDecimal(w: string, f: string)
    requires |w| > 0 && AllDigits(w) && AllDigits(f)
    ensures ParseFloat(w + "." + f) == Some(DigitsValue(w, 0) as real + Shifted(DigitsValue(f, 0), |f|))
  {
    WholeThenFraction(w, f);
    FractionOnly(f, DigitsValue(w, 0), 0, 0);
  }

  /** After the whole part and the point, what is left to read is the fraction. */
  lemma {:induction false} WholeThenFraction(w: string, f: string)
    requires |w| > 0 && AllDigits(w)
    ensures ParseFloat(w + "." + f) == FractionPart(f, DigitsValue(w, 0), 0, 0, true)
  {
    var u := w + ("." + f);
    assert u == w + "." + f;
    assert IsDigit(w[0]) && u[0] == w[0] && !IsWhite(u[0]);
    assert ParseFloat(u) == IntegerPart(u, 0, false);
    IntegerThenRest(w, "." + f, 0, false);
    var t := "." + f;
    assert t[0] == '.' && !IsDigit(t[0]) && t[1..] == f;
  }

  /** The decimal digits of a number, as a template literal writes it. */
  function Decimal(n: nat): (s: string)
    ensures |s| > 0 && AllDigits(s)
    decreases n
  {
    var ultimo := ['0' + (n % 10) as char];
    assert AllDigits(ultimo[1..]);
    if n < 10 then ultimo
    else
      var s := Decimal(n / 10) + ultimo;
      AllDigitsConcat(Decimal(n / 10), ultimo);
      s
  }

  lemma {:induction false} AllDigitsConcat(a: string, b: string)
    requires AllDigits(a) && AllDigits(b)
    ensures AllDigits(a + b)
    decreases |a|
  {
    if |a| > 0 {
      assert (a + b)[1..] == a[1..] + b;
      AllDigitsConcat(a[1..], b);
    } else {
      assert a + b == b;
    }
  }

  lemma {:induction false} DigitsValueSnoc(a: string, c: char, acc: nat)
    ensures DigitsValue(a + [c], acc) == 10 * DigitsValue(a, acc) + Digit(c)
    decreases |a|
  {
    if |a| == 0 {
      assert a + [c] == [c];
      assert [c][1..] == [];
    } else {
      assert (a + [c])[1..] == a[1..] + [c];
      DigitsValueSnoc(a[1..], c, 10 * acc + Digit(a[0]));
    }
  }

  /** The digits written read back as the number. */
  lemma {:induction false} DecimalRead(n: nat)
    ensures DigitsValue(Decimal(n), 0) == n
    ensures ParseInt(Decimal(n)) == Some(n)
    decreases n
  {
    var c := '0' + (n % 10) as char;
    assert Digit(c) == n % 10;
    if n < 10 {
      assert Decimal(n) == [c];
      assert [c][1..] == [];
    } else {
      DecimalRead(n / 10);
      DigitsValueSnoc(Decimal(n / 10), c, 0);
    }
    ParseDigits(Decimal(n));
  }

  /** `s.replace(/[^\d,.-]/g, '')`: only the digits, commas, points and minus signs are kept. */
  function KeepNumeric(s: string): (r: string)
    ensures |r| <= |s|
    decreases |s|
  {
    if |s| == 0 then []
    else if IsDigit(s[0]) || s[0] == ',' || s[0] == '.' || s[0] == '-' then [s[0]] + KeepNumeric(s[1..])
    else KeepNumeric(s[1..])
  }

  /** The filter works piece by piece. */
  lemma {:induction false} KeepNumericConcat(a: string, b: string)
    ensures KeepNumeric(a + b) == KeepNumeric(a) + KeepNumeric(b)
    decreases |a|
  {
    if |a| == 0 {
      assert a + b == b;
    } else {
      assert (a + b)[0] == a[0] && (a + b)[1..] == a[1..] + b;
      KeepNumericConcat(a[1..], b);
    }
  }

  /** Digits pass the filter unchanged. */
  lemma {:induction false} KeepNumericDigits(d: string)
    requires AllDigits(d)
    ensures KeepNumeric(d) == d
    decreases |d|
  {
    if |d| > 0 {
      AllDigitsAt(d, 0);
      KeepNumericDigits(d[1..]);
    }
  }

  /** Reading `a + b` is reading `b` after the value of `a`. */
  lemma {:induction false} DigitsValueConcat(a: string, b: string, acc: nat)
    ensures DigitsValue(a + b, acc) == DigitsValue(b, DigitsValue(a, acc))
    decreases |a|
  {
    if |a| == 0 {
      assert a + b == b;
    } else {
      assert (a + b)[0] == a[0] && (a + b)[1..] == a[1..] + b;
      DigitsValueConcat(a[1..], b, 10 * acc + Digit(a[0]));
    }
  }

  /** What was read before `b` is shifted left by the length of `b`. */
  lemma {:induction false} DigitsValueAcc(b: string, acc: nat)
    ensures DigitsValue(b, acc) == acc * Pow10(|b|) + DigitsValue(b, 0)
    decreases |b|
  {
    if |b| > 0 {
      var d, t := Digit(b[0]), b[1..];
      var p := Pow10(|t|);
      DigitsValueAcc(t, 10 * acc + d);
      DigitsValueAcc(t, d);
      assert Pow10(|b|) == 10 * p;
      assert DigitsValue(b, acc) == (10 * acc + d) * p + DigitsValue(t, 0);
      assert DigitsValue(b, 0) == d * p + DigitsValue(t, 0);
      Distributes(acc, d, p);
    }
  }

  /** The arithmetic step of `DigitsValueAcc`. */
  lemma Distributes(acc: nat, d: nat, p: nat)
    ensures (10 * acc + d) * p == acc * (10 * p) + d * p
  {
  }

  /** Digits have no white space, point, comma or sign among them. */
  lemma {:induction false} DigitsPlain(d: string)
    requires AllDigits(d)
    ensures forall i :: 0 <= i < |d| ==> IsDigit(d[i]) && d[i] != '.' && d[i] != ',' && d[i] != '-'
    ensures '.' !in d && ',' !in d
  {
    forall i | 0 <= i < |d| ensures IsDigit(d[i]) {
      AllDigitsAt(d, i);
    }
  }

  /**
   * `Number(s)` for text: the empty or blank text is 0, a decimal numeral between white space is its
   * value, and anything else is NaN.
   */
  function ToNumber(s: string): (r: JsVal)
    ensures r.Num? || r == NaN
  {
    var t := Trim(s);
    if t == "" then Num(0.0)
    else if IsNumeral(t) then (match ParseFloat(t) case Some(x) => Num(x) case None => NaN)
    else NaN
  }

  /** An optional sign, then digits with at most one point and at least one digit. */
  predicate IsNumeral(t: string)
  {
    var u := if |t| > 0 && (t[0] == '-' || t[0] == '+') then t[1..] else t;
    var i := IndexOfChar(u, '.');
    AllDigits(u[..i]) && (i < |u| ==> AllDigits(u[i + 1..])) && (i > 0 || i + 1 < |u|)
  }

  /** A non-empty digit string converts to its decimal value, and the empty text to 0. */
  lemma {:induction false} ToNumberDigits(d: string)
    requires AllDigits(d)
    ensures ToNumber(d) == Num(DigitsValue(d, 0) as real)
  {
    if |d| > 0 {
      AllDigitsAt(d, 0);
      AllDigitsAt(d, |d| - 1);
      assert TrimStart(d) == d;
      assert Trim(d) == d;
      var i := IndexOfChar(d, '.');
      if i < |d| {
        AllDigitsAt(d, i);
      }
      assert d[..|d|] == d;
      assert IsNumeral(d);
      ParseDigits(d);
    } else {
      assert Trim(d) == "";
    }
  }

  /** Text without a single digit is NaN for both parsers. */
  lemma {:induction false} ParseNoDigits(s: string)
    requires forall i :: 0 <= i < |s| ==> !IsDigit(s[i])
    ensures ParseFloat(s) == None && ParseInt(s) == None
    decreases |s|
  {
    if |s| > 0 {
      assert !IsDigit(s[0]);
      var t := s[1..];
      assert forall i :: 0 <= i < |t| ==> !IsDigit(t[i]) by {
        forall i | 0 <= i < |t| ensures !IsDigit(t[i]) { assert t[i] == s[i + 1]; }
      }
      if IsWhite(s[0]) {
        ParseNoDigits(t);
      } else {
        if |t| > 0 {
          assert !IsDigit(t[0]);
          if |t| > 1 { assert t[1..][0] == t[1] && !IsDigit(t[1]); }
        }
        if |s| > 1 { assert s[1..][0] == s[1] && !IsDigit(s[1]); }
      }
    }
  }

  /** `Math.round(x)`: the nearest integer, halves rounded up. */
  function Round(x: real): (r: int)
    ensures x - 0.5 < r as real <= x + 0.5
  {
    (x + 0.5).Floor
  }

  function Max(a: real, b: real): (r: real)
    ensures r >= a && r >= b && (r == a || r == b)
  {
    if a >= b then a else b
  }

  function Min(a: real, b: real): (r: real)
    ensures r <= a && r <= b && (r == a || r == b)
  {
    if a <= b then a else b
  }
}
