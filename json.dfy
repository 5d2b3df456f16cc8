/**
 * JavaScript values as the sync pipeline sees them: what `JSON.parse` yields,
 * plus `undefined`. Numbers are integers (no floating point, no NaN).
 * Objects are maps from own property names to values.
 */
module Json {
  import opened Wrappers

  type byte = x: int | 0 <= x < 256

  datatype Value =
    | Undefined
    | Null
    | Bool(b: bool)
    | Num(n: int)
    | Str(s: string)
    | Arr(items: seq<Value>)
    | Obj(fields: map<string, Value>)

  /** JavaScript truthiness (`!!v`). */
  predicate Truthy(v: Value)
  {
    match v
    case Undefined => false
    case Null => false
    case Bool(b) => b
    case Num(n) => n != 0
    case Str(s) => s != ""
    case Arr(_) => true
    case Obj(_) => true
  }

  /** `typeof v === 'object'`: true of null, arrays and plain objects. */
  predicate TypeofObject(v: Value)
  {
    v.Null? || v.Arr? || v.Obj?
  }

  /** The position `k` names among the first `n` indices ("0", "1", ...), if any. */
  function IndexNamed(k: string, n: nat): (r: Option<nat>)
    ensures r.Some? ==> r.value < n && NatToString(r.value) == k
    ensures r.None? ==> forall i :: 0 <= i < n ==> NatToString(i) != k
  {
    if n == 0 then None
    else if NatToString(n - 1) == k then Some(n - 1)
    else IndexNamed(k, n - 1)
  }

  /** A name that does not start with a digit designates no index. */
  lemma NotAnIndex(k: string, n: nat)
    requires |k| > 0 && !('0' <= k[0] <= '9')
    ensures IndexNamed(k, n).None?
  {
  }

  /**
   * `Object.prototype.hasOwnProperty.call(v, k)`: an object's own members, an
   * array's or a string's `length` and indices; numbers and booleans have none.
   */
  predicate HasOwn(v: Value, k: string)
  {
    match v
    case Obj(f) => k in f
    case Arr(items) => k == "length" || IndexNamed(k, |items|).Some?
    case Str(s) => k == "length" || IndexNamed(k, |s|).Some?
    case _ => false
  }

  /** What reading an absent key yields: `undefined`. */
  function Lookup(f: map<string, Value>, k: string): Value
  {
    if k in f then f[k] else Undefined
  }

  /**
   * Property access `v.k`. Reading a property of `null` or `undefined` throws
   * a TypeError; other primitives and arrays answer `length` and indices.
   * Inherited members (`toString`, ...) are not modelled and read as undefined.
   */
  function Member(v: Value, k: string): (r: Result<Value, string>)
    ensures r.Failure? <==> v.Null? || v.Undefined?
    ensures v.Obj? ==> r == Success(Lookup(v.fields, k))
  {
    match v
    case Undefined => Failure("Cannot read properties of undefined (reading '" + k + "')")
    case Null => Failure("Cannot read properties of null (reading '" + k + "')")
    case Obj(f) => Success(Lookup(f, k))
    case Arr(items) =>
      Success(if k == "length" then Num(|items|)
              else match IndexNamed(k, |items|)
                   case Some(i) => items[i]
                   case None => Undefined)
    case Str(s) =>
      Success(if k == "length" then Num(|s|)
              else match IndexNamed(k, |s|)
                   case Some(i) => Str([s[i]])
                   case None => Undefined)
    case _ => Success(Undefined)
  }

  function Digit(d: int): (c: char)
    requires 0 <= d < 10
    ensures '0' <= c <= '9'
  {
    "0123456789"[d]
  }

  /** Decimal numeral of a natural number, most significant digit first. */
  function NatToString(n: nat): (s: string)
    ensures |s| > 0
    ensures forall i :: 0 <= i < |s| ==> '0' <= s[i] <= '9'
    decreases n
  {
    if n < 10 then [Digit(n)] else NatToString(n / 10) + [Digit(n % 10)]
  }

  /** `String(n)` for an integer. */
  function IntToString(n: int): string
  {
    if n < 0 then "-" + NatToString(-n) else NatToString(n)
  }

  /** The value of a decimal digit character. */
  function DigitValue(c: char): int
  {
    c as int - '0' as int
  }

  predicate AllDigits(s: string)
  {
    forall i :: 0 <= i < |s| ==> '0' <= s[i] <= '9'
  }

  /** The number a string of decimal digits denotes, most significant digit first. */
  function DigitsValue(s: string): nat
    requires AllDigits(s)
    decreases |s|
  {
    if s == [] then 0 else DigitsValue(s[..|s| - 1]) * 10 + DigitValue(s[|s| - 1])
  }

  /**
   * `Number(s)` for the integer numerals: the empty string is 0, and digits
   * with an optional sign denote their value. Every other string is `None`,
   * which stands for NaN (and for the forms the model leaves out).
   */
  function StringToNumber(s: string): Option<int>
  {
    if s == [] then Some(0)
    else if (s[0] == '-' || s[0] == '+') && |s| > 1 && AllDigits(s[1..]) then
      var m: int := DigitsValue(s[1..]);
      Some(if s[0] == '-' then -m else m)
    else if AllDigits(s) then Some(DigitsValue(s))
    else None
  }

  /**
   * `Number(v)`, as a comparison with a number applies it: `null` is 0,
   * booleans 0 or 1, strings their numeral, arrays the numeral of their
   * joined text; `undefined` and plain objects are NaN (`None`).
   */
  function ToNumber(v: Value): (r: Option<int>)
    ensures v.Num? ==> r == Some(v.n)
    ensures v.Undefined? || v.Obj? ==> r.None?
  {
    match v
    case Undefined => None
    case Null => Some(0)
    case Bool(b) => Some(if b then 1 else 0)
    case Num(n) => Some(n)
    case Str(s) => StringToNumber(s)
    case Arr(_) => StringToNumber(ToString(v))
    case Obj(_) => None
  }

  lemma DigitOfValue(d: int)
    requires 0 <= d < 10
    ensures DigitValue(Digit(d)) == d
  {
    if d == 0 {} else if d == 1 {} else if d == 2 {} else if d == 3 {} else if d == 4 {}
    else if d == 5 {} else if d == 6 {} else if d == 7 {} else if d == 8 {} else {}
  }

  /** Reading back the numeral of a natural number gives the number. */
  lemma {:induction false} NatNumeralValue(n: nat)
    ensures DigitsValue(NatToString(n)) == n
    decreases n
  {
    var s := NatToString(n);
    if n < 10 {
      DigitOfValue(n);
      assert s[..0] == [];
    } else {
      NatNumeralValue(n / 10);
      DigitOfValue(n % 10);
      assert s[..|s| - 1] == NatToString(n / 10);
    }
  }

  /** An unsigned numeral reads as its digits' value. */
  lemma UnsignedNumeral(d: string)
    requires d != [] && AllDigits(d)
    ensures StringToNumber(d) == Some(DigitsValue(d))
  {
    assert '0' <= d[0] <= '9';
  }

  /** A numeral after a minus sign reads as the negated value of its digits. */
  lemma NegatedNumeral(d: string)
    requires d != [] && AllDigits(d)
    ensures StringToNumber("-" + d) == Some(-(DigitsValue(d) as int))
  {
    var s := "-" + d;
    assert s[1..] == d;
  }

  /** `Number(String(n))` is `n` for every integer. */
  lemma IntNumeralRoundTrip(n: int)
    ensures StringToNumber(IntToString(n)) == Some(n)
  {
    if n < 0 {
      var m: nat := -n;
      var d := NatToString(m);
      NatNumeralValue(m);
      NegatedNumeral(d);
      assert IntToString(n) == "-" + d;
    } else {
      var d := NatToString(n);
      NatNumeralValue(n);
      UnsignedNumeral(d);
      assert IntToString(n) == d;
    }
  }

  /**
   * `String(v)`, as a template literal `${v}` applies it: arrays join their
   * elements with commas (null and undefined elements become empty), plain
   * objects print as "[object Object]".
   */
  function ToString(v: Value): string
    decreases v, 1
  {
    match v
    case Undefined => "undefined"
    case Null => "null"
    case Bool(b) => if b then "true" else "false"
    case Num(n) => IntToString(n)
    case Str(s) => s
    case Arr(items) => Join(v, items)
    case Obj(_) => "[object Object]"
  }

  function Join(ghost parent: Value, items: seq<Value>): string
    requires forall i :: 0 <= i < |items| ==> items[i] < parent
    decreases parent, 0, |items|
  {
    if items == [] then ""
    else
      var last := items[|items| - 1];
      var text := if last.Null? || last.Undefined? then "" else ToString(last);
      if |items| == 1 then text else Join(parent, items[..|items| - 1]) + "," + text
  }

  /**
   * JSON.parse(JSON.stringify(v)) for a value that is not `undefined` itself:
   * object members whose value is `undefined` are dropped, `undefined` array
   * elements become `null`.
   */
  function Wire(v: Value): (r: Value)
    ensures r != Undefined
    ensures v.Obj? <==> r.Obj?
    decreases v
  {
    match v
    case Undefined => Null
    case Arr(items) =>
      Arr(seq(|items|, i requires 0 <= i < |items| => if items[i].Undefined? then Null else Wire(items[i])))
    case Obj(f) => Obj(map k | k in f && f[k] != Undefined :: Wire(f[k]))
    case _ => v
  }

  /** A value that came from JSON.parse: it holds no `undefined` anywhere. */
  predicate IsJson(v: Value)
    decreases v
  {
    match v
    case Undefined => false
    case Arr(items) => forall i :: 0 <= i < |items| ==> IsJson(items[i])
    case Obj(f) => forall k :: k in f ==> IsJson(f[k])
    case _ => true
  }

  /** Serialising and re-parsing a value that came from JSON.parse gives it back. */
  lemma {:induction false} WireOfJson(v: Value)
    requires IsJson(v)
    ensures Wire(v) == v
    decreases v
  {
    match v
    case Arr(items) =>
      forall i | 0 <= i < |items| ensures Wire(items[i]) == items[i] {
        WireOfJson(items[i]);
      }
    case Obj(f) =>
      forall k | k in f ensures Wire(f[k]) == f[k] {
        WireOfJson(f[k]);
      }
    case _ =>
  }

  /** The members of a serialised object: those whose value is defined, each serialised. */
  lemma WireMember(f: map<string, Value>, k: string)
    ensures Lookup(Wire(Obj(f)).fields, k) == (if Lookup(f, k).Undefined? then Undefined else Wire(f[k]))
  {
  }
}
