/**
 * The slice of PHP semantics the SDK's models and events rely on: decoded JSON
 * values, array lookups (`isset`, `array_key_exists`, `??`), `empty()`, the
 * `(int)` and `(bool)` casts, the coercions PHP applies when a value is stored
 * in a typed property or passed to a typed parameter (non-strict mode), and
 * timestamps, whose parsing is left to a caller-supplied `Runtime`.
 */
module Php {

  datatype Option<+T> = None | Some(value: T)

  datatype Result<+T, +E> = Success(value: T) | Failure(error: E) {
    predicate IsFailure() { Failure? }
    function PropagateFailure<U>(): Result<U, E>
      requires Failure?
    {
      Failure(error)
    }
    function Extract(): T
      requires Success?
    {
      value
    }
  }

  /** A decoded JSON value as PHP's `json_decode($s, true)` gives it.
      Both lists and objects are PHP arrays. JSON numbers that
      `json_decode` makes floats (a fraction, an exponent, or an integer
      outside 64 bits) are not represented. */
  datatype Json =
    | JNull
    | JBool(b: bool)
    | JInt(i: Int64)
    | JString(s: string)
    | JList(items: seq<Json>)
    | JObject(fields: map<string, Json>)

  /** `is_array($v)` */
  predicate IsArray(v: Json) {
    v.JList? || v.JObject?
  }

  /** The string-keyed entries of an array. A list has only integer keys, and
      every key the SDK looks up is a non-numeric name, so a list contributes
      no entry. */
  function Entries(v: Json): (m: map<string, Json>)
    ensures v.JObject? ==> m == v.fields
    ensures !v.JObject? ==> m == map[]
  {
    if v.JObject? then v.fields else map[]
  }

  /** `isset($a[$k])`: the key is there and its value is not null. */
  predicate IsSet(a: map<string, Json>, k: string) {
    k in a && a[k] != JNull
  }

  /** `$a[$k] ?? null`, and also `$a[$k]` read without a guard: an undefined
      key only warns and yields null. */
  function Read(a: map<string, Json>, k: string): (v: Json)
    ensures v != JNull ==> k in a && a[k] == v
    ensures k !in a ==> v == JNull
  {
    if k in a then a[k] else JNull
  }

  /** `$v[$k]` on a value that may not be an array: the entry when `$v` is
      an array holding the key, null otherwise. */
  function ReadIn(v: Json, k: string): Json {
    Read(Entries(v), k)
  }

  /** PHP's `empty($v)`: null, false, 0, "", "0" and the empty array. */
  predicate Empty(v: Json) {
    match v
    case JNull => true
    case JBool(b) => !b
    case JInt(i) => i == 0
    case JString(s) => s == "" || s == "0"
    case JList(items) => items == []
    case JObject(fields) => fields == map[]
  }

  /** `(bool)$v` */
  function BoolCast(v: Json): (b: bool)
    ensures b <==> !Empty(v)
  {
    match v
    case JNull => false
    case JBool(b) => b
    case JInt(i) => i != 0
    case JString(s) => s != "" && s != "0"
    case JList(items) => items != []
    case JObject(fields) => fields != map[]
  }

  // ---------------------------------------------------------------------------
  // Integers in text

  predicate IsDigit(c: char) { '0' <= c <= '9' }

  predicate IsSpace(c: char) {
    c == ' ' || c == '\t' || c == '\n' || c == '\r' || c == '\U{0B}' || c == '\U{0C}'
  }

  /** The value of a decimal digit. */
  function DigitValue(c: char): nat
    requires IsDigit(c)
  {
    c as int - '0' as int
  }

  /** The value of a string of decimal digits. */
  function DigitsValue(s: string): (n: nat)
    requires forall i :: 0 <= i < |s| ==> IsDigit(s[i])
  {
    if s == [] then 0 else 10 * DigitsValue(s[..|s| - 1]) + DigitValue(s[|s| - 1])
  }

  /** A number read from text: `(if negative then -1 else 1) * mantissa *
      10^exponent`. `integral` says the text had neither a decimal point
      nor an exponent. */
  datatype Numeric = Numeric(negative: bool, mantissa: nat, exponent: int, integral: bool)

  /** How far `is_numeric_string` has got in its left-to-right pass over
      the text, with what it has read so far. */
  datatype Phase =
    | Lead                                                // white space only
    | Signed(negative: bool)                              // a sign, no digit yet
    | Whole(negative: bool, m: nat)                       // integer digits
    | Point(negative: bool, m: nat, digits: bool)         // `.`; `digits`: integer digits came before it
    | Fraction(negative: bool, m: nat, places: nat)       // fraction digits, `places` of them
    | Mark(x: Numeric)                                    // `e` or `E` after a number
    | MarkSign(x: Numeric, minus: bool)                   // `e` and a sign
    | Power(x: Numeric, minus: bool, e: nat)              // exponent digits

  /** `x` scaled by the exponent read after it. */
  function WithExponent(x: Numeric, minus: bool, e: nat): Numeric {
    x.(exponent := x.exponent + (if minus then -(e as int) else e), integral := false)
  }

  /** The number read when the text ends in phase `p`. An `e` or `e` and
      sign with no digit after it is not an exponent and is left to trail
      the number. */
  function Finish(p: Phase): Option<Numeric> {
    match p
    case Lead => None
    case Signed(_) => None
    case Whole(neg, m) => Some(Numeric(neg, m, 0, true))
    case Point(neg, m, digits) => if digits then Some(Numeric(neg, m, 0, false)) else None
    case Fraction(neg, m, k) => Some(Numeric(neg, m, -(k as int), false))
    case Mark(x) => Some(x)
    case MarkSign(x, _) => Some(x)
    case Power(x, minus, e) => Some(WithExponent(x, minus, e))
  }

  /** The pass from position `i` in phase `p`: white space, an optional
      sign, digits with an optional `.` and fraction digits (or `.` and at
      least one fraction digit), then an optional `e`/`E`, sign and
      digits. The first character that does not continue the number ends
      it, and the rest of the text trails it; `None` when no digit was
      read. */
  function Scan(s: string, i: nat, p: Phase): Option<Numeric>
    decreases |s| - i
  {
    if i >= |s| then Finish(p)
    else
      var c := s[i];
      match p
      case Lead =>
        if IsSpace(c) then Scan(s, i + 1, Lead)
        else if c == '-' || c == '+' then Scan(s, i + 1, Signed(c == '-'))
        else if IsDigit(c) then Scan(s, i + 1, Whole(false, DigitValue(c)))
        else if c == '.' then Scan(s, i + 1, Point(false, 0, false))
        else None
      case Signed(neg) =>
        if IsDigit(c) then Scan(s, i + 1, Whole(neg, DigitValue(c)))
        else if c == '.' then Scan(s, i + 1, Point(neg, 0, false))
        else None
      case Whole(neg, m) =>
        if IsDigit(c) then Scan(s, i + 1, Whole(neg, 10 * m + DigitValue(c)))
        else if c == '.' then Scan(s, i + 1, Point(neg, m, true))
        else if c == 'e' || c == 'E' then Scan(s, i + 1, Mark(Numeric(neg, m, 0, true)))
        else Some(Numeric(neg, m, 0, true))
      case Point(neg, m, digits) =>
        if IsDigit(c) then Scan(s, i + 1, Fraction(neg, 10 * m + DigitValue(c), 1))
        else if !digits then None
        else if c == 'e' || c == 'E' then Scan(s, i + 1, Mark(Numeric(neg, m, 0, false)))
        else Some(Numeric(neg, m, 0, false))
      case Fraction(neg, m, k) =>
        if IsDigit(c) then Scan(s, i + 1, Fraction(neg, 10 * m + DigitValue(c), k + 1))
        else if c == 'e' || c == 'E' then Scan(s, i + 1, Mark(Numeric(neg, m, -(k as int), false)))
        else Some(Numeric(neg, m, -(k as int), false))
      case Mark(x) =>
        if IsDigit(c) then Scan(s, i + 1, Power(x, false, DigitValue(c)))
        else if c == '-' || c == '+' then Scan(s, i + 1, MarkSign(x, c == '-'))
        else Some(x)
      case MarkSign(x, minus) =>
        if IsDigit(c) then Scan(s, i + 1, Power(x, minus, DigitValue(c)))
        else Some(x)
      case Power(x, minus, e) =>
        if IsDigit(c) then Scan(s, i + 1, Power(x, minus, 10 * e + DigitValue(c)))
        else Some(WithExponent(x, minus, e))
  }

  /** The numeric prefix of `s` as PHP's `is_numeric_string` reads it,
      trailing text allowed; `None` when `s` has no such prefix. */
  function NumericPrefix(s: string): Option<Numeric> {
    Scan(s, 0, Lead)
  }

  /** `m * 10^e` rounded toward zero, one power of ten at a time. Rounding
      down at each step loses nothing: `(m / 10^k) / 10` is `m / 10^(k+1)`. */
  function Magnitude(m: nat, e: int): nat
    decreases if e < 0 then -e else e
  {
    if e > 0 then 10 * Magnitude(m, e - 1)
    else if e < 0 then Magnitude(m, e + 1) / 10
    else m
  }

  /** The value of `x` rounded toward zero. */
  function Truncated(x: Numeric): int {
    var m := Magnitude(x.mantissa, x.exponent);
    if x.negative then -(m as int) else m
  }

  // ---------------------------------------------------------------------------
  // 64-bit integers

  /** PHP's `int` on a 64-bit build: `PHP_INT_MIN` to `PHP_INT_MAX`. */
  type Int64 = i: int | -0x8000_0000_0000_0000 <= i <= 0x7FFF_FFFF_FFFF_FFFF

  const IntMin: Int64 := -0x8000_0000_0000_0000
  const IntMax: Int64 := 0x7FFF_FFFF_FFFF_FFFF
  const TwoTo63: nat := 0x8000_0000_0000_0000

  /** The least magnitude a double rounds to infinity: 2^1024 - 2^970. */
  const DoubleOverflow: nat :=
    0xFFFF_FFFF_FFFF_FC00_0000_0000_0000_0000_0000_0000_0000_0000_0000_0000_0000_0000_0000_0000_0000_0000_0000_0000_0000_0000_0000_0000_0000_0000_0000_0000_0000_0000_0000_0000_0000_0000_0000_0000_0000_0000_0000_0000_0000_0000_0000_0000_0000_0000_0000_0000_0000_0000_0000_0000_0000_0000_0000_0000_0000_0000_0000_0000_0000_0000

  /** `ZEND_DOUBLE_FITS_LONG`: the value, rounded toward zero, lies in
      [-2^63, 2^63). */
  predicate FitsInt64(x: Numeric) {
    if x.negative then Magnitude(x.mantissa, x.exponent) <= TwoTo63 else Magnitude(x.mantissa, x.exponent) < TwoTo63
  }

  /** A value too large for a double: it rounds to infinity. */
  predicate Infinite(x: Numeric) {
    Magnitude(x.mantissa, x.exponent) >= DoubleOverflow
  }

  /** A number stored as a 64-bit integer, as `zend_dval_to_lval_cap`
      does with the double a numeric string reads as; `CapToInt64Caps`
      states the result. */
  function CapToInt64(x: Numeric): Int64 {
    if Infinite(x) then 0
    else if !FitsInt64(x) then (if x.negative then IntMin else IntMax)
    else Truncated(x)
  }

  /** The value rounded toward zero when it fits, the nearest bound when it
      does not, and 0 for a value too large for a double (infinity). */
  lemma CapToInt64Caps(x: Numeric)
    ensures FitsInt64(x) ==> CapToInt64(x) == Truncated(x)
    ensures !FitsInt64(x) && !Infinite(x) ==> CapToInt64(x) == (if x.negative then IntMin else IntMax)
    ensures Infinite(x) ==> CapToInt64(x) == 0
  {
  }

  /** The decimal text of a natural number. */
  function NatToDecimal(n: nat): (s: string)
    ensures |s| > 0
    ensures forall i :: 0 <= i < |s| ==> IsDigit(s[i])
  {
    var d := ['0' + (n % 10) as char];
    if n < 10 then d else NatToDecimal(n / 10) + d
  }

  /** `(string)$n` for an integer. */
  function IntToDecimal(n: int): string {
    if n < 0 then "-" + NatToDecimal(-n) else NatToDecimal(n)
  }

  // ---------------------------------------------------------------------------
  // Casts and coercions

  /** `(int)` applied to a string: its numeric prefix, capped to the
      64-bit range (`CapToInt64`), or 0 when it has none. */
  function TextCastInt(s: string): Int64 {
    match NumericPrefix(s) case Some(x) => CapToInt64(x) case None => 0
  }

  /** `(int)$v`: never fails. A string is read by `TextCastInt`; an array
      gives 1 when non-empty. */
  function IntCast(v: Json): (n: Int64)
    ensures v.JInt? ==> n == v.i
  {
    match v
    case JNull => 0
    case JBool(b) => if b then 1 else 0
    case JInt(i) => i
    case JString(s) => TextCastInt(s)
    case JList(items) => if items == [] then 0 else 1
    case JObject(fields) => if fields == map[] then 0 else 1
  }

  /** Storing `$v` in a property or parameter declared `string` (coercive
      mode). `None` is PHP's TypeError: null and arrays are refused, the other
      scalars become their text. */
  function ToStr(v: Json): (r: Option<string>)
    ensures r.None? <==> v.JNull? || IsArray(v)
    ensures v.JString? ==> r == Some(v.s)
  {
    match v
    case JString(s) => Some(s)
    case JInt(i) => Some(IntToDecimal(i))
    case JBool(b) => Some(if b then "1" else "")
    case _ => None
  }

  /** A string stored in a property or parameter declared `int`
      (`zend_parse_arg_long_weak`); `TextToIntReads` states what it gives. */
  function TextToInt(s: string): Option<Int64> {
    match NumericPrefix(s)
    case Some(x) => if FitsInt64(x) then Some(CapToInt64(x)) else None
    case None => None
  }

  /** A string with a numeric prefix is accepted (with a warning when text
      trails it, with a deprecation when it has a fraction) if its value
      fits in 64 bits, and rounded toward zero, as `(int)` would; any other
      string is a TypeError. */
  lemma TextToIntReads(s: string)
    ensures TextToInt(s).Some? <==> NumericPrefix(s).Some? && FitsInt64(NumericPrefix(s).value)
    ensures TextToInt(s).Some? ==> TextToInt(s).value == Truncated(NumericPrefix(s).value) == TextCastInt(s)
  {
    if NumericPrefix(s).Some? {
      CapToInt64Caps(NumericPrefix(s).value);
    }
  }

  /** Storing `$v` in a property or parameter declared `int` (coercive
      mode): integers are kept, booleans become 0 or 1, strings are read by
      `TextToInt`; null and arrays are a TypeError. */
  function ToInt(v: Json): (r: Option<Int64>)
    ensures v.JInt? ==> r == Some(v.i)
    ensures v.JNull? || IsArray(v) ==> r.None?
  {
    match v
    case JInt(i) => Some(i)
    case JBool(b) => Some(if b then 1 else 0)
    case JString(s) => TextToInt(s)
    case _ => None
  }

  /** Reading the decimal text of `n` gives `n` back. */
  lemma {:induction false} DecimalValue(n: nat)
    ensures DigitsValue(NatToDecimal(n)) == n
  {
    if n >= 10 {
      var s := NatToDecimal(n);
      assert s[..|s| - 1] == NatToDecimal(n / 10);
      DecimalValue(n / 10);
    }
  }

  /** A run of digits from `start` to the end of the text is read whole:
      the integer digits so far are `s[start..i]`. */
  lemma {:induction false} ScanDigitsToEnd(s: string, start: nat, i: nat, neg: bool)
    requires start <= i <= |s|
    requires forall k :: start <= k < |s| ==> IsDigit(s[k])
    ensures Scan(s, i, Whole(neg, DigitsValue(s[start..i]))) == Some(Numeric(neg, DigitsValue(s[start..]), 0, true))
    decreases |s| - i
  {
    if i == |s| {
      assert s[start..i] == s[start..];
    } else {
      var w := s[start..i + 1];
      assert w[..|w| - 1] == s[start..i] && w[|w| - 1] == s[i];
      ScanDigitsToEnd(s, start, i + 1, neg);
    }
  }

  /** The text of an integer is a numeric string with no fraction and no
      exponent, whose sign and magnitude are the integer's. */
  lemma DecimalIsNumeric(n: int)
    ensures NumericPrefix(IntToDecimal(n)) == Some(Numeric(n < 0, if n < 0 then -n else n, 0, true))
  {
    var s := IntToDecimal(n);
    var m := if n < 0 then -n else n;
    var start := if n < 0 then 1 else 0;
    assert s[start..] == NatToDecimal(m);
    DecimalValue(m);
    var w := s[start..start + 1];
    assert w[..0] == [] && w[0] == s[start];
    assert DigitsValue(w) == DigitValue(s[start]);
    if n < 0 {
      assert Scan(s, 0, Lead) == Scan(s, 1, Signed(true));
      assert Scan(s, 1, Signed(true)) == Scan(s, 2, Whole(true, DigitsValue(w)));
    } else {
      assert Scan(s, 0, Lead) == Scan(s, 1, Whole(false, DigitsValue(w)));
    }
    ScanDigitsToEnd(s, start, start + 1, n < 0);
  }

  /** `(string)` then `(int)`, or `(string)` then an `int` property, gives
      a 64-bit integer back unchanged. */
  lemma DecimalRoundTrip(n: Int64)
    ensures IntCast(JString(IntToDecimal(n))) == n
    ensures ToInt(JString(IntToDecimal(n))) == Some(n)
    ensures ToInt(JString(ToStr(JInt(n)).value)) == Some(n)
  {
    DecimalIsNumeric(n);
  }

  /** An exponent counts: `(int)"1e3"` is 1000. */
  lemma ExponentCounts()
    ensures NumericPrefix("1e3") == Some(Numeric(false, 1, 3, false))
    ensures IntCast(JString("1e3")) == 1000 && ToInt(JString("1e3")) == Some(1000)
  {
  }

  /** White space before the sign is skipped, and text after the digits
      is dropped: `(int)" -12abc"` is -12. */
  lemma TrailingTextDropped()
    ensures NumericPrefix(" -12abc") == Some(Numeric(true, 12, 0, true))
    ensures IntCast(JString(" -12abc")) == -12 && ToInt(JString(" -12abc")) == Some(-12)
  {
  }

  /** A fraction is dropped toward zero: `(int)"1.9"` is 1. */
  lemma FractionTruncated()
    ensures NumericPrefix("1.9") == Some(Numeric(false, 19, -1, false))
    ensures IntCast(JString("1.9")) == 1 && ToInt(JString("1.9")) == Some(1)
  {
  }

  /** Text with no numeric prefix casts to 0 and is refused by an `int`
      property. */
  lemma NoNumericPrefix()
    ensures NumericPrefix("abc").None?
    ensures IntCast(JString("abc")) == 0 && ToInt(JString("abc")).None?
  {
  }

  /** A value beyond 64 bits is capped by `(int)` and refused by an `int`
      property: 10^19 is more than 2^63 - 1. */
  lemma BeyondInt64()
    ensures IntCast(JString("1e19")) == IntMax && ToInt(JString("1e19")).None?
    ensures IntCast(JString("-1e19")) == IntMin && ToInt(JString("-1e19")).None?
  {
    assert NumericPrefix("1e19") == Some(Numeric(false, 1, 19, false));
    assert NumericPrefix("-1e19") == Some(Numeric(true, 1, 19, false));
    assert Magnitude(1, 5) == 100_000;
    assert Magnitude(1, 10) == 10_000_000_000;
    assert Magnitude(1, 15) == 1_000_000_000_000_000;
    assert Magnitude(1, 19) == 10_000_000_000_000_000_000;
  }

  /** Storing `$v` in a property declared `bool`: scalars by their truth
      value; null and arrays are a TypeError. */
  function ToBool(v: Json): (r: Option<bool>)
    ensures v.JBool? ==> r == Some(v.b)
    ensures r.None? <==> v.JNull? || IsArray(v)
    ensures r.Some? ==> r.value == !Empty(v)
  {
    match v
    case JBool(b) => Some(b)
    case JInt(i) => Some(i != 0)
    case JString(s) => Some(s != "" && s != "0")
    case _ => None
  }

  /** Nullable variants (`?string`, `?int`, `?bool`): null is stored as null. */
  function ToNullableStr(v: Json): Option<Option<string>> {
    if v.JNull? then Some(None) else match ToStr(v) case Some(s) => Some(Some(s)) case None => None
  }

  function ToNullableInt(v: Json): Option<Option<Int64>> {
    if v.JNull? then Some(None) else match ToInt(v) case Some(n) => Some(Some(n)) case None => None
  }

  function ToNullableBool(v: Json): Option<Option<bool>> {
    if v.JNull? then Some(None) else match ToBool(v) case Some(b) => Some(Some(b)) case None => None
  }

  // ---------------------------------------------------------------------------
  // Timestamps and the runtime

  /** A PHP `DateTime`, identified with its `DateTime::ATOM` rendering
      (RFC 3339 section 5.6 `date-time`, e.g. "2024-01-01T00:00:00+00:00");
      `format(DateTime::ATOM)` is `atom`. */
  datatype DateTime = DateTime(atom: string)

  /** What the code takes from the PHP runtime without computing it itself:
      `new DateTime($text)` and `DateTime::createFromFormat(DateTime::ATOM,
      $text)`, both partial (the clock hides in `construct`, which is how ""
      and "now" are read), and the order in which `foreach` and `array_map`
      visit the keys of a decoded JSON object (its document order, which a
      `map` does not keep). */
  datatype Runtime = Runtime(
    construct: string -> Option<DateTime>,
    fromAtom: string -> Option<DateTime>,
    keyOrder: KeyOrder)

  /** `ks` lists every key of `m`, each once. */
  ghost predicate ListsEachKeyOnce(m: map<string, Json>, ks: seq<string>) {
    (forall k :: k in ks <==> k in m) && (forall i, j :: 0 <= i < j < |ks| ==> ks[i] != ks[j])
  }

  /** Some listing of a set of keys, each once. */
  ghost function SomeListing(s: set<string>): (ks: seq<string>)
    ensures forall k :: k in ks <==> k in s
    ensures forall i, j :: 0 <= i < j < |ks| ==> ks[i] != ks[j]
  {
    if s == {} then []
    else
      var k :| k in s;
      [k] + SomeListing(s - {k})
  }

  /** `f` lists the keys of every object, each once. */
  ghost predicate OrdersKeys(f: map<string, Json> -> seq<string>) {
    forall m :: ListsEachKeyOnce(m, f(m))
  }

  /** An order in which `foreach` visits an object: each of its keys, once. */
  type KeyOrder = f: map<string, Json> -> seq<string> | OrdersKeys(f)
    ghost witness (m: map<string, Json>) => SomeListing(m.Keys)

  /** A listing of each key once is as long as the object. */
  lemma {:induction false} ListingSize(m: map<string, Json>, ks: seq<string>)
    requires ListsEachKeyOnce(m, ks)
    ensures |ks| == |m|
    decreases |ks|
  {
    if ks != [] {
      var k := ks[0];
      var m' := m - {k};
      assert ListsEachKeyOnce(m', ks[1..]) by {
        forall j | j in ks[1..]
          ensures j != k
        {
          var i :| 0 <= i < |ks[1..]| && ks[1..][i] == j;
          assert ks[i + 1] == j;
        }
        forall j | j in m'
          ensures j in ks[1..]
        {
          assert j in ks && j != ks[0];
          var i :| 0 <= i < |ks| && ks[i] == j;
          assert ks[1..][i - 1] == j;
        }
      }
      ListingSize(m', ks[1..]);
      assert m'.Keys == m.Keys - {k};
    } else {
      assert m.Keys == {};
    }
  }

  /** The text `new DateTime($v)` receives: null becomes "" (deprecated
      since PHP 8.1, still accepted), other scalars their text; an array is a
      TypeError (`None`). */
  function DateArg(v: Json): (r: Option<string>)
    ensures r.None? <==> IsArray(v)
    ensures v.JNull? ==> r == Some("")
  {
    if v.JNull? then Some("") else ToStr(v)
  }

  /** The JSON form of a nullable field, as `toArray` emits it. */
  function OptStr(o: Option<string>): Json {
    match o case None => JNull case Some(s) => JString(s)
  }

  function OptInt(o: Option<Int64>): Json {
    match o case None => JNull case Some(n) => JInt(n)
  }

  function OptBool(o: Option<bool>): Json {
    match o case None => JNull case Some(b) => JBool(b)
  }

  /** `$d?->format(DateTime::ATOM)` */
  function OptDate(o: Option<DateTime>): Json {
    match o case None => JNull case Some(d) => JString(d.atom)
  }

  /** The failures PHP raises while copying data into typed objects. */
  datatype PhpError =
    | TypeError(target: string)      // a value a typed property or parameter refuses
    | MalformedDate(text: string)    // `new DateTime($text)` threw
    | ClassNotFound(name: string)    // `new X()` of a class no file declares
    | NullCall(name: string)       // `$x->m()` with `$x` null

  /** The error a step raised, if any. */
  function ErrorOf<T>(r: Result<T, PhpError>): (e: Option<PhpError>)
    ensures e.None? <==> r.Success?
    ensures e.Some? ==> e.value == r.error
  {
    if r.Success? then None else Some(r.error)
  }

  /** The error of two steps taken in order: the first one's, if it
      raised, since PHP stops at the first exception. */
  function FirstOf(a: Option<PhpError>, b: Option<PhpError>): (e: Option<PhpError>)
    ensures e.None? <==> a.None? && b.None?
    ensures e.Some? ==> e == a || (a.None? && e == b)
  {
    if a.Some? then a else b
  }

  const DateTarget := "DateTime::__construct(): Argument #1 ($datetime)"

  /** `new DateTime($v)`, reported against `target` when `$v` is an array. */
  function NewDate(rt: Runtime, v: Json, target: string): (r: Result<DateTime, PhpError>)
    ensures IsArray(v) ==> r == Failure(TypeError(target))
    ensures !IsArray(v) && r.Success? ==> rt.construct(DateArg(v).value) == Some(r.value)
  {
    match DateArg(v)
    case None => Failure(TypeError(target))
    case Some(text) =>
      match rt.construct(text)
      case None => Failure(MalformedDate(text))
      case Some(d) => Success(d)
  }

  /** A runtime whose date constructor reads every ATOM rendering back as
      the same date: what a `toArray`/`setData` round trip needs. */
  ghost predicate ReadsAtomBack(rt: Runtime) {
    forall t: DateTime {:trigger rt.construct(t.atom)} :: rt.construct(t.atom) == Some(t)
  }

  // ---------------------------------------------------------------------------
  // Storing a decoded value in a typed property

  /** The state after a run of assignments: all of them done, or stopped by
      an error with the earlier ones already in place. */
  datatype Update<T> = Updated(fields: T) | Stopped(fields: T, error: PhpError) {
    predicate IsFailure() { Stopped? }
    function PropagateFailure(): Update<T>
      requires Stopped?
    {
      this
    }
    function Extract(): T
      requires Updated?
    {
      fields
    }
  }

  /** `$o->p = $v` for a `string`/`?string` property named by `target`. */
  function AsStr(v: Json, target: string): (r: Result<string, PhpError>)
    ensures r.Success? <==> ToStr(v).Some?
    ensures r.Success? ==> ToStr(v) == Some(r.value)
    ensures r.Failure? ==> r.error == TypeError(target)
  {
    match ToStr(v) case Some(s) => Success(s) case None => Failure(TypeError(target))
  }

  /** The same for an `int`/`?int` property. */
  function AsInt(v: Json, target: string): (r: Result<Int64, PhpError>)
    ensures r.Success? <==> ToInt(v).Some?
    ensures r.Success? ==> ToInt(v) == Some(r.value)
    ensures r.Failure? ==> r.error == TypeError(target)
  {
    match ToInt(v) case Some(n) => Success(n) case None => Failure(TypeError(target))
  }

  /** The same for a `bool`/`?bool` property. */
  function AsBool(v: Json, target: string): (r: Result<bool, PhpError>)
    ensures r.Success? <==> ToBool(v).Some?
    ensures r.Success? ==> ToBool(v) == Some(r.value)
    ensures r.Failure? ==> r.error == TypeError(target)
  {
    match ToBool(v) case Some(b) => Success(b) case None => Failure(TypeError(target))
  }

  /** Storing `$v` in a property declared `float`/`?float`. Floats are not
      part of `Json`: the stored value is kept as the JSON it came from (an
      integer, or a string with a numeric prefix); booleans become 0 or 1. */
  function ToFloat(v: Json): (r: Option<Json>)
    ensures r.Some? ==> r.value.JInt? || r.value.JString?
    ensures r.None? ==> v.JNull? || IsArray(v) || v.JString?
  {
    match v
    case JInt(_) => Some(v)
    case JBool(b) => Some(JInt(if b then 1 else 0))
    case JString(s) => if NumericPrefix(s).Some? then Some(v) else None
    case _ => None
  }

  function AsFloat(v: Json, target: string): (r: Result<Json, PhpError>)
    ensures r.Success? <==> ToFloat(v).Some?
    ensures r.Success? ==> ToFloat(v) == Some(r.value)
    ensures r.Failure? ==> r.error == TypeError(target)
  {
    match ToFloat(v) case Some(j) => Success(j) case None => Failure(TypeError(target))
  }

  /** The same for an `array`/`?array` property: only arrays are accepted. */
  function AsArray(v: Json, target: string): (r: Result<Json, PhpError>)
    ensures r.Success? <==> IsArray(v)
    ensures r.Success? ==> r.value == v
    ensures r.Failure? ==> r.error == TypeError(target)
  {
    if IsArray(v) then Success(v) else Failure(TypeError(target))
  }

  /** The same for a `?string` parameter or property: null is kept. */
  function AsNullableStr(v: Json, target: string): (r: Result<Option<string>, PhpError>)
    ensures r.Success? <==> ToNullableStr(v).Some?
    ensures r.Success? ==> ToNullableStr(v) == Some(r.value)
    ensures r.Failure? ==> r.error == TypeError(target)
  {
    match ToNullableStr(v) case Some(s) => Success(s) case None => Failure(TypeError(target))
  }

  /** The same for a `?int` parameter or property. */
  function AsNullableInt(v: Json, target: string): (r: Result<Option<Int64>, PhpError>)
    ensures r.Success? <==> ToNullableInt(v).Some?
    ensures r.Success? ==> ToNullableInt(v) == Some(r.value)
    ensures r.Failure? ==> r.error == TypeError(target)
  {
    match ToNullableInt(v) case Some(n) => Success(n) case None => Failure(TypeError(target))
  }

  // What each kind of property shows for a stored value, in `toArray`'s terms

  function StrImage(v: Json, target: string): (r: Result<Json, PhpError>)
    ensures r.Success? <==> ToStr(v).Some?
  {
    match ToStr(v) case Some(s) => Success(JString(s)) case None => Failure(TypeError(target))
  }

  function IntImage(v: Json, target: string): (r: Result<Json, PhpError>)
    ensures r.Success? <==> ToInt(v).Some?
  {
    match ToInt(v) case Some(n) => Success(JInt(n)) case None => Failure(TypeError(target))
  }

  function BoolImage(v: Json, target: string): (r: Result<Json, PhpError>)
    ensures r.Success? <==> ToBool(v).Some?
  {
    match ToBool(v) case Some(b) => Success(JBool(b)) case None => Failure(TypeError(target))
  }

  function DateImage(rt: Runtime, v: Json): (r: Result<Json, PhpError>)
    ensures r.Success? <==> NewDate(rt, v, DateTarget).Success?
  {
    match NewDate(rt, v, DateTarget) case Success(t) => Success(JString(t.atom)) case Failure(e) => Failure(e)
  }

  /** A value already in the image of its kind is taken back unchanged:
      what makes `toArray` output acceptable to `setData`. */
  lemma ImagesAreFixed(rt: Runtime, s: string, n: Int64, b: bool, t: DateTime, target: string)
    requires ReadsAtomBack(rt)
    ensures StrImage(JString(s), target) == Success(JString(s))
    ensures IntImage(JInt(n), target) == Success(JInt(n))
    ensures BoolImage(JBool(b), target) == Success(JBool(b))
    ensures DateImage(rt, JString(t.atom)) == Success(JString(t.atom))
  {
    assert rt.construct(t.atom) == Some(t);
  }
}
