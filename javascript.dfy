/** The fragment of JavaScript the request handler relies on: the values
    `JSON.parse` produces, the `undefined` that reading a missing property
    yields, truthiness (ToBoolean), property access, and ToString as a
    template literal applies it to a substituted value (ECMA-262, sections
    7.1.2, 7.1.17, 7.1.1.1 and 6.1.6.1.20). */
module JavaScript {
  import opened Wrappers

  /** The significand of a finite non-zero double written in its shortest
      decimal form: positive and free of trailing zero digits. */
  type Significand = s: nat | s > 0 && s % 10 != 0 witness 1

  /** A double as `JSON.parse` can produce it (never NaN: a JSON number
      literal too large for a double parses to an infinity).
      `Finite(neg, s, e)` denotes (-1)^neg * s * 10^e where `s` is the
      shortest digit string that rounds to the double, so the integers
      n, k and s of Number::toString are determined by it. */
  datatype Number =
    | Zero(negative: bool)
    | Finite(negative: bool, s: Significand, e: int)
    | Infinite(negative: bool)

  /** A value produced by `JSON.parse`, with each string a sequence of
      Unicode scalar values (so a string holding a lone surrogate is not
      represented). An object is the map from its own property names to
      their values (for a repeated key the last one wins, as in
      `JSON.parse`). */
  datatype Json =
    | Null
    | Bool(b: bool)
    | Num(n: Number)
    | Str(s: string)
    | Arr(elems: seq<Json>)
    | Obj(fields: map<string, Json>)

  /** A JavaScript value the handler reads: a parsed JSON value, or
      `undefined` for a property that is not there. */
  datatype Value = Undefined | Val(json: Json)

  /** ToBoolean: `undefined`, `null`, `false`, `+0`, `-0` and `""` are
      falsy; every other value, every array and every object included, is
      truthy. */
  predicate Truthy(v: Value) {
    match v
    case Undefined => false
    case Val(Null) => false
    case Val(Bool(b)) => b
    case Val(Num(n)) => !n.Zero?
    case Val(Str(s)) => s != ""
    case Val(Arr(_)) => true
    case Val(Obj(_)) => true
  }

  /** `v?.key`, which is also `v.key` whenever `v` is neither null nor
      undefined. Only an object has an own property of the names the
      handler reads, and none of those names is inherited from
      Object.prototype, Array.prototype or String.prototype. */
  function Member(v: Value, key: string): Value {
    if v.Val? && v.json.Obj? && key in v.json.fields then Val(v.json.fields[key]) else Undefined
  }

  function Pow10(k: nat): (p: nat)
    ensures p >= 1
  {
    if k == 0 then 1 else 10 * Pow10(k - 1)
  }

  lemma {:induction false} Pow10Grows(a: nat, b: nat)
    requires a <= b
    ensures Pow10(a) <= Pow10(b)
  {
    if a < b {
      Pow10Grows(a, b - 1);
    }
  }

  function Abs(i: int): nat {
    if i < 0 then -i else i
  }

  /** The character of a decimal digit. */
  function Digit(d: nat): (c: char)
    requires d < 10
    ensures '0' <= c <= '9' && c as int - '0' as int == d
  {
    ('0' as int + d) as char
  }

  predicate IsDigits(r: string) {
    forall i :: 0 <= i < |r| ==> '0' <= r[i] <= '9'
  }

  /** The decimal numeral of `x`, without leading zeros. */
  function Decimal(x: nat): (r: string)
    ensures |r| >= 1 && IsDigits(r)
    ensures x > 0 ==> r[0] != '0'
    ensures x < 10 <==> |r| == 1
  {
    if x < 10 then [Digit(x)] else Decimal(x / 10) + [Digit(x % 10)]
  }

  /** The number a string of decimal digits denotes (the inverse of
      Decimal). */
  function DecimalValue(r: string): nat
    requires IsDigits(r)
  {
    if r == [] then 0 else 10 * DecimalValue(r[..|r| - 1]) + (r[|r| - 1] as int - '0' as int)
  }

  lemma {:induction false} DecimalRoundTrip(x: nat)
    ensures DecimalValue(Decimal(x)) == x
  {
    if x >= 10 {
      var r := Decimal(x);
      assert r[..|r| - 1] == Decimal(x / 10);
      DecimalRoundTrip(x / 10);
    }
  }

  /** A numeral has at most `m` digits exactly when its value is below
      10^m. */
  lemma {:induction false} DecimalLength(x: nat, m: nat)
    requires m >= 1
    ensures |Decimal(x)| <= m <==> x < Pow10(m)
  {
    if x >= 10 && m >= 2 {
      DecimalLength(x / 10, m - 1);
    } else if x >= 10 {
      assert |Decimal(x)| >= 2;
    }
  }

  function Zeros(k: nat): (r: string)
    ensures |r| == k && IsDigits(r)
  {
    seq(k, _ => '0')
  }

  lemma MulPositive(a: nat, b: nat)
    requires a >= 1 && b >= 1
    ensures a * b >= 1
  {
  }

  lemma MulTen(a: nat, b: nat)
    ensures a * (10 * b) == 10 * (a * b)
  {
  }

  /** Appending z zero digits to a numeral multiplies its value by 10^z. */
  lemma {:induction false} DecimalShift(t: nat, z: nat)
    requires t > 0
    ensures Decimal(t * Pow10(z)) == Decimal(t) + Zeros(z)
  {
    if z > 0 {
      DecimalShift(t, z - 1);
      var y := t * Pow10(z - 1);
      assert y >= 1 by { MulPositive(t, Pow10(z - 1)); }
      var x := 10 * y;
      assert t * Pow10(z) == x by { MulTen(t, Pow10(z - 1)); }
      assert x / 10 == y && x % 10 == 0 && x >= 10;
      calc {
        Decimal(x);
        Decimal(y) + [Digit(0)];
        Decimal(t) + Zeros(z - 1) + ['0'];
        { assert Zeros(z - 1) + ['0'] == Zeros(z); }
        Decimal(t) + Zeros(z);
      }
    }
  }

  /** The number `(-1)^negative * s * 10^e` in the Number form: trailing
      zero digits of `s` move into the exponent. */
  function Canonical(negative: bool, s: nat, e: int): (n: Number)
    ensures n.negative == negative && !n.Infinite?
    ensures n.Zero? <==> s == 0
    ensures n.Finite? ==> e <= n.e && n.s * Pow10(n.e - e) == s
    decreases s
  {
    if s == 0 then Zero(negative)
    else if s % 10 == 0 then
      var n := Canonical(negative, s / 10, e + 1);
      assert n.s * Pow10(n.e - e) == 10 * (n.s * Pow10(n.e - (e + 1)));
      n
    else Finite(negative, s, e)
  }

  /** The double that denotes the integer `i` (every integer the handler
      produces is far below 2^53, so none is rounded). */
  function FromInt(i: int): (n: Number)
    ensures n.Zero? <==> i == 0
    ensures n.Finite? ==> n.negative == (i < 0) && n.e >= 0 && n.s * Pow10(n.e) == Abs(i)
  {
    Canonical(i < 0, Abs(i), 0)
  }

  /** Number::toString(x) in radix 10 (ECMA-262 section 6.1.6.1.20). */
  function NumberToString(x: Number): string {
    match x
    case Zero(_) => "0"
    case Infinite(negative) => (if negative then "-" else "") + "Infinity"
    case Finite(negative, s, e) => (if negative then "-" else "") + PositiveToString(s, e)
  }

  /** Number::toString of s * 10^e, with k the number of digits of s and
      n = e + k the position of the decimal point. */
  function PositiveToString(s: Significand, e: int): string {
    var digits := Decimal(s);
    var k := |digits|;
    var n := e + k;
    if k <= n <= 21 then digits + Zeros(n - k)
    else if 0 < n <= 21 then digits[..n] + "." + digits[n..]
    else if -6 < n <= 0 then "0." + Zeros(-n) + digits
    else
      var exponent := n - 1;
      var suffix := "e" + (if exponent >= 0 then "+" else "-") + Decimal(Abs(exponent));
      if k == 1 then digits + suffix else digits[..1] + "." + digits[1..] + suffix
  }

  /** An integer below 10^21 in magnitude prints as its decimal numeral. */
  lemma FromIntToString(i: int)
    requires Abs(i) < Pow10(21)
    ensures NumberToString(FromInt(i)) == (if i < 0 then "-" else "") + Decimal(Abs(i))
  {
    var n := FromInt(i);
    if n.Finite? {
      DecimalShift(n.s, n.e);
      DecimalLength(Abs(i), 21);
    }
  }

  /** The values on which ToString throws a TypeError: an object with an
      own `toString` property (a parsed value is never callable, and the
      inherited `valueOf` returns the object itself, so no primitive is
      found), and an array holding such a value at any depth. */
  predicate Unprintable(j: Json) {
    match j
    case Obj(fields) => "toString" in fields
    case Arr(elems) => exists i :: 0 <= i < |elems| && Unprintable(elems[i])
    case _ => false
  }

  /** ToString of a value substituted into a template literal; `None`
      where it throws a TypeError. */
  function ToString(v: Value): Option<string> {
    match v
    case Undefined => Some("undefined")
    case Val(j) => JsonToString(j)
  }

  /** ToString of a parsed value. An object yields Object.prototype.toString's
      "[object Object]"; an array yields Array.prototype.join with ",". */
  function JsonToString(j: Json): Option<string>
    decreases j, 1, 0
  {
    match j
    case Null => Some("null")
    case Bool(b) => Some(if b then "true" else "false")
    case Num(n) => Some(NumberToString(n))
    case Str(s) => Some(s)
    case Arr(elems) => if elems == [] then Some("") else Join(elems, 0)
    case Obj(fields) => if "toString" in fields then None else Some("[object Object]")
  }

  /** Array.prototype.join(",") over elems[i..], which is not empty: a null
      element contributes the empty string, any other its ToString, and the
      first TypeError propagates. */
  function Join(elems: seq<Json>, i: nat): Option<string>
    requires i < |elems|
    decreases Arr(elems), 0, |elems| - i
  {
    var head := if elems[i] == Null then Some("") else JsonToString(elems[i]);
    if head.None? then None
    else if i + 1 == |elems| then head
    else
      var tail := Join(elems, i + 1);
      if tail.None? then None else Some(head.value + "," + tail.value)
  }

  /** ToString throws exactly on the unprintable values. */
  lemma {:induction false} JsonToStringThrows(j: Json)
    ensures JsonToString(j).None? <==> Unprintable(j)
    decreases j, 1, 0
  {
    match j
    case Arr(elems) =>
      if elems != [] {
        JoinThrows(elems, 0);
      }
    case _ =>
  }

  lemma {:induction false} JoinThrows(elems: seq<Json>, i: nat)
    requires i < |elems|
    ensures Join(elems, i).None? <==> exists k :: i <= k < |elems| && Unprintable(elems[k])
    decreases Arr(elems), 0, |elems| - i
  {
    JsonToStringThrows(elems[i]);
    if i + 1 < |elems| {
      JoinThrows(elems, i + 1);
    }
  }
}
