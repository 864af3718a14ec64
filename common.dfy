/** Python values, records and string helpers shared by every module of the model. */
module Common {

  datatype Option<T> = None | Some(value: T)

  /** A Python float: a finite real or NaN. Infinities are not modelled. */
  datatype Float = Fin(r: real) | NaN

  /**
   * A dynamically typed Python value as it appears in a record loaded from
   * CSV or JSON. VObj stands for any other object (a non-empty container,
   * a timestamp, ...), which is truthy and converts to no number.
   */
  datatype Value = VNone | VBool(b: bool) | VInt(i: int) | VFloat(f: Float) | VStr(s: string) | VObj

  /** A dict keyed by column or field name. */
  type Record = map<string, Value>

  /** A DataFrame as a sequence of rows. */
  type Table = seq<Record>

  /** `d.get(k)`: None when the key is missing. */
  function Get(d: Record, k: string): Value
  {
    if k in d then d[k] else VNone
  }

  /** `d.get(k, default)`: a present key wins even when its value is None. */
  function GetOr(d: Record, k: string, default: Value): (r: Value)
    ensures k in d ==> r == d[k]
    ensures k !in d ==> r == default
  {
    if k in d then d[k] else default
  }

  /** Python truthiness. */
  predicate Truthy(v: Value)
  {
    match v
    case VNone => false
    case VBool(b) => b
    case VInt(i) => i != 0
    case VFloat(f) => f != Fin(0.0)
    case VStr(s) => s != ""
    case VObj => true
  }

  /** `not d` is false for a dict argument: it is given and non-empty. */
  predicate Present(d: Option<Record>)
  {
    d.Some? && |d.value| > 0
  }

  /** `pd.isna(v)` for a scalar. */
  predicate IsNa(v: Value)
  {
    v == VNone || v == VFloat(NaN)
  }

  // ---------------------------------------------------------------------
  // Float comparisons: every comparison involving NaN is false.

  predicate Lt(a: Float, b: Float) { a.Fin? && b.Fin? && a.r < b.r }
  predicate Le(a: Float, b: Float) { a.Fin? && b.Fin? && a.r <= b.r }

  function Abs(a: Float): Float
  {
    match a
    case NaN => NaN
    case Fin(r) => if r < 0.0 then Fin(-r) else Fin(r)
  }

  function AbsReal(r: real): real { if r < 0.0 then -r else r }

  function MinInt(a: int, b: int): int { if a <= b then a else b }

  // ---------------------------------------------------------------------
  // Characters and strings.

  /** Whitespace as `str.isspace` and the regex class `\s` see it (ASCII and common Unicode spaces). */
  predicate IsSpace(c: char)
  {
    c == ' ' || c == '\t' || c == '\n' || c == '\r' || c == '\U{000B}' || c == '\U{000C}'
    || c == '\U{00A0}' || c == '\U{2028}' || c == '\U{3000}'
  }

  /** `\d` and `str.isdigit`, restricted to ASCII digits. */
  predicate IsDigit(c: char) { '0' <= c <= '9' }

  predicate AllDigits(s: string) { forall i :: 0 <= i < |s| ==> IsDigit(s[i]) }

  function LowerChar(c: char): char
  {
    if 'A' <= c <= 'Z' then (c as int + 32) as char else c
  }

  function UpperChar(c: char): char
  {
    if 'a' <= c <= 'z' then (c as int - 32) as char else c
  }

  /** `str.lower()` (ASCII letters; Hangul has no case). */
  function Lower(s: string): (r: string)
    ensures |r| == |s|
    ensures forall i :: 0 <= i < |s| ==> r[i] == LowerChar(s[i])
  {
    if s == [] then [] else [LowerChar(s[0])] + Lower(s[1..])
  }

  /** `str.upper()` (ASCII letters). */
  function Upper(s: string): (r: string)
    ensures |r| == |s|
    ensures forall i :: 0 <= i < |s| ==> r[i] == UpperChar(s[i])
  {
    if s == [] then [] else [UpperChar(s[0])] + Upper(s[1..])
  }

  lemma LowerIdempotent(s: string)
    ensures Lower(Lower(s)) == Lower(s)
  {
    assert forall i :: 0 <= i < |s| ==> Lower(Lower(s))[i] == Lower(s)[i];
  }

  lemma UpperIdempotent(s: string)
    ensures Upper(Upper(s)) == Upper(s)
  {
    assert forall i :: 0 <= i < |s| ==> Upper(Upper(s))[i] == Upper(s)[i];
  }

  function StripLeft(s: string): (r: string)
    ensures r == [] || !IsSpace(r[0])
    ensures |r| <= |s| && r == s[|s| - |r|..]
    ensures forall i :: 0 <= i < |s| - |r| ==> IsSpace(s[i])
  {
    if s != [] && IsSpace(s[0]) then StripLeft(s[1..]) else s
  }

  function StripRight(s: string): (r: string)
    ensures r == [] || !IsSpace(r[|r| - 1])
    ensures |r| <= |s| && r == s[..|r|]
    ensures forall i :: |r| <= i < |s| ==> IsSpace(s[i])
  {
    if s != [] && IsSpace(s[|s| - 1]) then StripRight(s[..|s| - 1]) else s
  }

  /** `str.strip()`: s without its leading and trailing whitespace. */
  function Strip(s: string): (r: string)
    ensures r == [] || (!IsSpace(r[0]) && !IsSpace(r[|r| - 1]))
    ensures |r| <= |s|
  {
    StripRight(StripLeft(s))
  }

  /** A string already free of surrounding whitespace is its own strip. */
  lemma StripOfStripped(s: string)
    requires s == [] || (!IsSpace(s[0]) && !IsSpace(s[|s| - 1]))
    ensures Strip(s) == s
  {
  }

  lemma StripIdempotent(s: string)
    ensures Strip(Strip(s)) == Strip(s)
  {
    StripOfStripped(Strip(s));
  }

  predicate StartsWith(s: string, p: string)
  {
    |p| <= |s| && s[..|p|] == p
  }

  predicate EndsWith(s: string, p: string)
  {
    |p| <= |s| && s[|s| - |p|..] == p
  }

  /** `sub in s`. */
  predicate Contains(s: string, sub: string)
    decreases |s|
  {
    StartsWith(s, sub) || (s != [] && Contains(s[1..], sub))
  }

  lemma {:induction false} ContainsAt(s: string, sub: string, i: nat)
    requires i + |sub| <= |s| && s[i..i + |sub|] == sub
    ensures Contains(s, sub)
    decreases i
  {
    if i > 0 {
      assert s[1..][i - 1..i - 1 + |sub|] == sub;
      ContainsAt(s[1..], sub, i - 1);
    }
  }

  lemma ContainsPrefix(s: string, t: string)
    ensures Contains(s + t, s)
  {
    assert (s + t)[..|s|] == s;
  }

  lemma {:induction false} ContainsSuffix(s: string, t: string)
    ensures Contains(s + t, t)
  {
    ContainsAt(s + t, t, |s|);
  }

  lemma ContainsInfix(a: string, b: string, c: string)
    ensures Contains(a + b + c, b)
  {
    assert (a + b + c)[|a|..|a| + |b|] == b;
    ContainsAt(a + b + c, b, |a|);
  }

  lemma {:induction false} ContainsExtendRight(t: string, u: string, s: string)
    requires Contains(t, u)
    ensures Contains(t + s, u)
    decreases |t|
  {
    if StartsWith(t, u) {
      assert (t + s)[..|u|] == t[..|u|];
    } else {
      assert (t + s)[1..] == t[1..] + s;
      ContainsExtendRight(t[1..], u, s);
    }
  }

  lemma {:induction false} ContainsExtendLeft(s: string, t: string, u: string)
    requires Contains(t, u)
    ensures Contains(s + t, u)
    decreases |s|
  {
    if s == [] {
      assert s + t == t;
    } else {
      assert (s + t)[1..] == s[1..] + t;
      ContainsExtendLeft(s[1..], t, u);
    }
  }

  /** A substring of a substring is a substring. */
  lemma {:induction false} ContainsTrans(s: string, u: string, v: string)
    requires Contains(s, u) && Contains(u, v)
    ensures Contains(s, v)
    decreases |s|
  {
    if StartsWith(s, u) {
      ContainsExtendRight(u, v, s[|u|..]);
      assert u + s[|u|..] == s;
    } else {
      ContainsTrans(s[1..], u, v);
    }
  }

  /** Every character of s except those equal to c (`s.replace(c, "")`). */
  function RemoveChar(s: string, c: char): (r: string)
    ensures c !in r
    ensures |r| <= |s|
  {
    if s == [] then [] else (if s[0] == c then [] else [s[0]]) + RemoveChar(s[1..], c)
  }

  /** Every non-whitespace character of s, in order. */
  function RemoveSpaces(s: string): (r: string)
    ensures forall i :: 0 <= i < |r| ==> !IsSpace(r[i])
    ensures |r| <= |s|
  {
    if s == [] then [] else (if IsSpace(s[0]) then [] else [s[0]]) + RemoveSpaces(s[1..])
  }

  /** `s.count(c)` for one character. */
  function CountChar(s: string, c: char): nat
  {
    if s == [] then 0 else (if s[0] == c then 1 else 0) + CountChar(s[1..], c)
  }

  /** `sep.join(parts)`. */
  function Join(parts: seq<string>, sep: string): string
  {
    if parts == [] then "" else if |parts| == 1 then parts[0] else parts[0] + sep + Join(parts[1..], sep)
  }

  /** A join starts with its first part. */
  lemma JoinStartsWith(parts: seq<string>, sep: string)
    requires parts != []
    ensures StartsWith(Join(parts, sep), parts[0])
  {
    if |parts| > 1 {
      assert (parts[0] + sep + Join(parts[1..], sep))[..|parts[0]|] == parts[0];
    }
  }

  /** Text that neither starts nor ends with whitespace (the empty text included). */
  predicate Trimmed(s: string)
  {
    s == [] || (!IsSpace(s[0]) && !IsSpace(s[|s| - 1]))
  }

  /** `s[:n]` for n >= 0. */
  function Take(s: string, n: nat): (r: string)
    ensures |r| == MinInt(n, |s|) && r == s[..|r|]
  {
    if n < |s| then s[..n] else s
  }

  /** Python's string order: lexicographic by code point, a proper prefix first. */
  predicate StrLe(a: string, b: string)
    decreases |a|
  {
    a == [] || (b != [] && (a[0] < b[0] || (a[0] == b[0] && StrLe(a[1..], b[1..]))))
  }

  lemma {:induction false} StrLeRefl(a: string)
    ensures StrLe(a, a)
  {
    if a != [] {
      StrLeRefl(a[1..]);
    }
  }

  lemma {:induction false} StrLeTotal(a: string, b: string)
    ensures StrLe(a, b) || StrLe(b, a)
    decreases |a|
  {
    if a != [] && b != [] && a[0] == b[0] {
      StrLeTotal(a[1..], b[1..]);
    }
  }

  lemma {:induction false} StrLeTrans(a: string, b: string, c: string)
    requires StrLe(a, b) && StrLe(b, c)
    ensures StrLe(a, c)
    decreases |a|
  {
    if a != [] && b != [] && c != [] && a[0] == b[0] && b[0] == c[0] {
      StrLeTrans(a[1..], b[1..], c[1..]);
    }
  }

  lemma {:induction false} StrLeAntisym(a: string, b: string)
    requires StrLe(a, b) && StrLe(b, a)
    ensures a == b
    decreases |a|
  {
    if a != [] {
      StrLeAntisym(a[1..], b[1..]);
    }
  }

  // ---------------------------------------------------------------------
  // Numbers and their text.

  function DigitChar(d: nat): char
    requires d < 10
  {
    ('0' as int + d) as char
  }

  function NatToString(n: nat): (r: string)
    ensures r != [] && AllDigits(r)
  {
    if n < 10 then [DigitChar(n)] else NatToString(n / 10) + [DigitChar(n % 10)]
  }

  /** `str(i)` for a Python int. */
  function IntToString(i: int): string
  {
    if i < 0 then "-" + NatToString(-i) else NatToString(i)
  }

  /** The value of one decimal digit; callers only pass digits. */
  function DigitOf(c: char): nat
  {
    if IsDigit(c) then c as int - '0' as int else 0
  }

  /** `int(ds)` for a string of decimal digits. */
  function DigitsValue(ds: string): nat
  {
    if ds == [] then 0 else DigitsValue(ds[..|ds| - 1]) * 10 + DigitOf(ds[|ds| - 1])
  }

  function Pow10(n: nat): (r: nat)
    ensures r >= 1
  {
    if n == 0 then 1 else 10 * Pow10(n - 1)
  }

  function IndexOfChar(s: string, c: char): (r: nat)
    ensures r <= |s|
    ensures r < |s| ==> s[r] == c
    ensures forall i :: 0 <= i < r ==> s[i] != c
  {
    if s == [] then 0 else if s[0] == c then 0 else 1 + IndexOfChar(s[1..], c)
  }

  /** An unsigned decimal: digits, optionally a '.' and more digits, at least one digit in all. */
  function ParseUnsignedDecimal(t: string): Option<real>
  {
    var k := IndexOfChar(t, '.');
    var whole := t[..k];
    var frac := if k < |t| then t[k + 1..] else "";
    if AllDigits(whole) && AllDigits(frac) && |whole| + |frac| > 0 then
      Some(DigitsValue(whole) as real + DigitsValue(frac) as real / Pow10(|frac|) as real)
    else None
  }

  /** `float(s)` for a str: surrounding whitespace, an optional sign, a decimal, or "nan". None is ValueError. */
  function ParseFloat(s: string): Option<Float>
  {
    var t := Strip(s);
    var sign := if t != [] && (t[0] == '-' || t[0] == '+') then t[..1] else "";
    var body := t[|sign|..];
    if Lower(body) == "nan" then Some(NaN)
    else match ParseUnsignedDecimal(body)
      case None => None
      case Some(x) => Some(Fin(if sign == "-" then -x else x))
  }

  /** `int(s)` for a str: surrounding whitespace, an optional sign and one or more digits. None is ValueError. */
  function ParseInt(s: string): Option<int>
  {
    SignedDigits(Strip(s))
  }

  /** An optional sign followed by one or more digits, and nothing else. */
  function SignedDigits(t: string): Option<int>
  {
    var sign := if t != [] && (t[0] == '-' || t[0] == '+') then t[..1] else "";
    var body := t[|sign|..];
    if body != [] && AllDigits(body) then
      Some(if sign == "-" then -(DigitsValue(body) as int) else DigitsValue(body))
    else None
  }

  /** `float(v)`; None stands for the TypeError or ValueError Python raises. */
  function FloatOf(v: Value): Option<Float>
  {
    match v
    case VNone => None
    case VBool(b) => Some(Fin(if b then 1.0 else 0.0))
    case VInt(i) => Some(Fin(i as real))
    case VFloat(f) => Some(f)
    case VStr(s) => ParseFloat(s)
    case VObj => None
  }

  /** Numbers that take part in arithmetic and ordering (bool is an int in Python). */
  function NumberOf(v: Value): Option<Float>
  {
    match v
    case VBool(b) => Some(Fin(if b then 1.0 else 0.0))
    case VInt(i) => Some(Fin(i as real))
    case VFloat(f) => Some(f)
    case _ => None
  }

  /** `int(x)` truncates a real toward zero. */
  function Trunc(r: real): int
  {
    if r >= 0.0 then r.Floor else -((-r).Floor)
  }

  /** Plain decimal text of a non-negative real with at most `k` decimals, if it has one. */
  function DecimalText(r: real, k: nat, limit: nat): Option<string>
    requires r >= 0.0
    decreases limit - k
  {
    var scaled := r * Pow10(k) as real;
    if scaled == scaled.Floor as real then
      var n := scaled.Floor;
      var ds := NatToString(n);
      var padded := if |ds| <= k then seq(k + 1 - |ds|, _ => '0') + ds else ds;
      var point := |padded| - k;
      Some(padded[..point] + "." + (if k == 0 then "0" else padded[point..]))
    else if k < limit then DecimalText(r, k + 1, limit)
    else None
  }

  /**
   * `str(x)` for a float: the plain decimal Python prints for values in
   * [1e-4, 1e16) with at most 15 decimals, "nan" for NaN; other floats
   * (exponent notation, long binary expansions) print as "<float>".
   */
  function FloatText(f: Float): string
  {
    match f
    case NaN => "nan"
    case Fin(r) =>
      var a := AbsReal(r);
      var sign := if r < 0.0 then "-" else "";
      if r == 0.0 then "0.0"
      else if a < 1.0 / 10000.0 || a >= 10000000000000000.0 then "<float>"
      else match DecimalText(a, 0, 15)
        case Some(t) => sign + t
        case None => "<float>"
  }

  /** `str(v)`. */
  function Str(v: Value): string
  {
    match v
    case VNone => "None"
    case VBool(b) => if b then "True" else "False"
    case VInt(i) => IntToString(i)
    case VFloat(f) => FloatText(f)
    case VStr(s) => s
    case VObj => "<object>"
  }

  /** `fillna("").astype(str)` applied to one cell. */
  function CellText(v: Value): string
  {
    if IsNa(v) then "" else Str(v)
  }

  lemma StrOfString(s: string)
    ensures Str(VStr(s)) == s && CellText(VStr(s)) == s
  {
  }

  /** Reading back the digits of a natural number gives the number. */
  lemma {:induction false} DigitsOfNat(n: nat)
    ensures DigitsValue(NatToString(n)) == n
  {
    if n >= 10 {
      DigitsOfNat(n / 10);
      var s := NatToString(n);
      assert s[..|s| - 1] == NatToString(n / 10);
    }
  }

  /** A string of digits is its own strip. */
  lemma DigitStringStripped(s: string)
    requires AllDigits(s)
    ensures Strip(Str(VStr(s))) == s
  {
    if s != [] {
      assert IsDigit(s[0]) && IsDigit(s[|s| - 1]);
    }
    StripOfStripped(s);
  }

  /** `int` of a digit string. */
  lemma ParseDigits(t: string)
    requires t != [] && AllDigits(t)
    ensures ParseInt(t) == Some(DigitsValue(t) as int)
  {
    assert IsDigit(t[0]) && IsDigit(t[|t| - 1]);
    StripOfStripped(t);
  }

  lemma StripSignedDigits(t: string)
    requires t != [] && AllDigits(t)
    ensures Strip("-" + t) == "-" + t
  {
    var s := "-" + t;
    assert IsDigit(t[|t| - 1]) && s[|s| - 1] == t[|t| - 1];
    StripOfStripped(s);
  }

  lemma NegDigits(t: string)
    requires t != [] && AllDigits(t)
    ensures SignedDigits("-" + t) == Some(-(DigitsValue(t) as int))
  {
    var s := "-" + t;
    assert s[..1] == "-" && s[1..] == t;
  }

  /** `int` of a digit string after a minus sign. */
  lemma ParseNegDigits(t: string)
    requires t != [] && AllDigits(t)
    ensures ParseInt("-" + t) == Some(-(DigitsValue(t) as int))
  {
    StripSignedDigits(t);
    NegDigits(t);
  }

  /** `int(str(i))` gives `i` back. */
  lemma IntTextRoundTrip(i: int)
    ensures ParseInt(IntToString(i)) == Some(i)
  {
    var n: nat := if i < 0 then -i else i;
    DigitsOfNat(n);
    if i < 0 {
      ParseNegDigits(NatToString(n));
    } else {
      ParseDigits(NatToString(n));
    }
  }
}
