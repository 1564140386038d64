/**
 * Python values as they arrive from the data provider (`Any` in the
 * source), with the builtins the core applies to them: truthiness,
 * `dict.get` and `float()`.
 */
module PyValue {
  import opened Errors
  import opened PyText

  /**
   * A dynamically typed value: a number (int or float), a bool, a str,
   * `None`, a dict with string keys, or another object. `VOther` stands
   * for an object that is truthy, that `float()` rejects with `TypeError`
   * and that has no `get` or `keys` method (a non-empty list, say); falsy
   * containers such as `[]`, mappings that are not dicts and objects that
   * `float()` converts (a `Decimal`, say) are not represented.
   */
  datatype Value =
    | VNum(num: real)
    | VBool(flag: bool)
    | VStr(text: string)
    | VNull
    | VTable(table: map<string, Value>)
    | VOther

  /** `bool(v)`; a `VOther` object counts as true. */
  predicate Truthy(v: Value) {
    match v
    case VNum(x) => x != 0.0
    case VBool(b) => b
    case VStr(s) => s != []
    case VNull => false
    case VTable(t) => t != map[]
    case VOther => true
  }

  /** The falsy values are exactly zero, `False`, the empty string, `None` and the empty dict. */
  lemma FalsyValues(v: Value)
    ensures !Truthy(v) <==> v in {VNum(0.0), VBool(false), VStr([]), VNull, VTable(map[])}
  {
  }

  /** `d.get(key, default)`. */
  function GetOr(d: map<string, Value>, key: string, default: Value): (v: Value)
    ensures key in d ==> v == d[key]
    ensures key !in d ==> v == default
  {
    if key in d then d[key] else default
  }

  /** `d.get(key)`: the entry for a present key, `None` for a missing one. */
  function Get(d: map<string, Value>, key: string): (v: Value)
    ensures key in d ==> v == d[key]
    ensures key !in d ==> v == VNull
  {
    GetOr(d, key, VNull)
  }

  predicate IsDigit(c: char) {
    '0' <= c <= '9'
  }

  predicate AllDigits(s: string) {
    forall k :: 0 <= k < |s| ==> IsDigit(s[k])
  }

  /** The number a string of decimal digits denotes, most significant digit first. */
  function DigitsValue(ds: string): (n: nat)
    requires AllDigits(ds)
  {
    if ds == [] then 0
    else DigitsValue(ds[..|ds| - 1]) * 10 + (ds[|ds| - 1] as int - '0' as int)
  }

  /** `10 ** n`, which is never zero and so can divide. */
  function Pow10(n: nat): (p: nat)
    ensures p >= 1
  {
    if n == 0 then 1 else 10 * Pow10(n - 1)
  }

  /** `x * 10 ** e` for a whole exponent of either sign. */
  function Scale(x: real, e: int): real {
    if e >= 0 then x * Pow10(e) as real else x / Pow10(-e) as real
  }

  /** The index of the first character of `s` satisfying `p`, or `|s|` if none does. */
  function FirstIndex(s: string, p: char -> bool): (i: nat)
    ensures i <= |s|
    ensures forall k :: 0 <= k < i ==> !p(s[k])
    ensures i < |s| ==> p(s[i])
  {
    if s == [] then 0
    else if p(s[0]) then 0
    else 1 + FirstIndex(s[1..], p)
  }

  predicate IsDot(c: char) {
    c == '.'
  }

  predicate IsExponentMark(c: char) {
    c == 'e' || c == 'E'
  }

  /** A decimal mantissa `digits[.digits]` with at least one digit. */
  function ParseMantissa(m: string): Option<real> {
    var d := FirstIndex(m, IsDot);
    var whole := m[..d];
    var fraction := if d < |m| then m[d + 1..] else [];
    if AllDigits(whole) && AllDigits(fraction) && |whole| + |fraction| >= 1 then
      Some(DigitsValue(whole) as real + DigitsValue(fraction) as real / Pow10(|fraction|) as real)
    else
      None
  }

  /** An exponent `[+|-]digits` with at least one digit. */
  function ParseExponent(x: string): Option<int> {
    var neg := x != [] && x[0] == '-';
    var ds := if x != [] && (x[0] == '+' || x[0] == '-') then x[1..] else x;
    if ds != [] && AllDigits(ds) then
      Some(if neg then -(DigitsValue(ds) as int) else DigitsValue(ds))
    else
      None
  }

  /** An unsigned number in decimal notation with an optional exponent. */
  function ParseUnsigned(u: string): Option<real> {
    var e := FirstIndex(u, IsExponentMark);
    var mantissa := ParseMantissa(u[..e]);
    var exponent := if e < |u| then ParseExponent(u[e + 1..]) else Some(0);
    if mantissa.Some? && exponent.Some? then Some(Scale(mantissa.value, exponent.value))
    else None
  }

  /**
   * `float(s)` for a str: surrounding whitespace, an optional sign, then a
   * number in decimal notation; `None` where Python raises `ValueError`.
   */
  function ParseFloat(s: string): (r: Option<real>)
    ensures Strip(s) == [] ==> r.None?
  {
    var t := Strip(s);
    var neg := t != [] && t[0] == '-';
    var u := if t != [] && (t[0] == '+' || t[0] == '-') then t[1..] else t;
    match ParseUnsigned(u)
    case None => None
    case Some(x) => Some(if neg then -x else x)
  }

  lemma FirstIndexAbsent(s: string, p: char -> bool)
    requires forall k :: 0 <= k < |s| ==> !p(s[k])
    ensures FirstIndex(s, p) == |s|
  {
  }

  lemma DigitsMantissa(ds: string)
    requires ds != [] && AllDigits(ds)
    ensures ParseMantissa(ds) == Some(DigitsValue(ds) as real)
  {
    FirstIndexAbsent(ds, IsDot);
    assert ds[..|ds|] == ds;
    assert DigitsValue([]) as real / Pow10(0) as real == 0.0;
  }

  lemma DigitsUnsigned(ds: string)
    requires ds != [] && AllDigits(ds)
    ensures ParseUnsigned(ds) == Some(DigitsValue(ds) as real)
  {
    FirstIndexAbsent(ds, IsExponentMark);
    assert ds[..|ds|] == ds;
    DigitsMantissa(ds);
    assert Scale(DigitsValue(ds) as real, 0) == DigitsValue(ds) as real;
  }

  /** A plain string of digits parses to the whole number it spells. */
  lemma DigitsParse(ds: string)
    requires ds != [] && AllDigits(ds)
    ensures ParseFloat(ds) == Some(DigitsValue(ds) as real)
  {
    assert IsDigit(ds[0]) && IsDigit(ds[|ds| - 1]);
    StripFixed(ds);
    assert ds[0] != '+' && ds[0] != '-';
    DigitsUnsigned(ds);
  }

  lemma MantissaNeedsDigit(m: string)
    requires forall k :: 0 <= k < |m| ==> !IsDigit(m[k])
    ensures ParseMantissa(m).None?
  {
    var d := FirstIndex(m, IsDot);
    if d < |m| && |m[d + 1..]| >= 1 {
      assert m[d + 1..][0] == m[d + 1];
    }
  }

  lemma UnsignedNeedsDigit(u: string)
    requires forall k :: 0 <= k < |u| ==> !IsDigit(u[k])
    ensures ParseUnsigned(u).None?
  {
    var e := FirstIndex(u, IsExponentMark);
    MantissaNeedsDigit(u[..e]);
  }

  /** A string with no decimal digit in it is never a number. */
  lemma NoDigitRejected(s: string)
    requires forall k :: 0 <= k < |s| ==> !IsDigit(s[k])
    ensures ParseFloat(s).None?
  {
    var t := Strip(s);
    StripKeepsCharacters(s);
    forall k | 0 <= k < |t|
      ensures !IsDigit(t[k])
    {
      assert t[k] in t;
    }
    var u := if t != [] && (t[0] == '+' || t[0] == '-') then t[1..] else t;
    UnsignedNeedsDigit(u);
  }
}
