/** The slice of JavaScript's value semantics that the modelled code relies on:
    truthiness (`||`, `&&`, `if (x)`), optional property access (`x?.key`),
    `'key' in x`, `typeof x === 'object'`, `instanceof Error` and `String(x)`.
    Numbers are integers; floating point is not modelled. */
module Js {

  /** A JavaScript value. `ErrorObj` is an instance of `Error`: its `message`
      is always a string, other own properties live in `props`. */
  datatype Value =
    | Undefined
    | Null
    | Bool(b: bool)
    | Num(n: int)
    | Str(s: string)
    | Arr(items: seq<Value>)
    | Obj(fields: map<string, Value>)
    | ErrorObj(message: string, props: map<string, Value>)

  /** How an awaited promise settles: with a value, or by throwing `reason`. */
  datatype Settled<+T> = Resolved(value: T) | Rejected(reason: Value)

  /** ECMAScript ToBoolean on the modelled values. */
  predicate Truthy(v: Value) {
    match v
    case Undefined => false
    case Null => false
    case Bool(b) => b
    case Num(n) => n != 0
    case Str(s) => s != ""
    case _ => true
  }

  /** `a || b`: the left operand when it is truthy, the right one otherwise.
      The result is always one of the operands, and it is truthy exactly when
      at least one of them is. */
  function Or(a: Value, b: Value): (r: Value)
    ensures r == a || r == b
    ensures Truthy(r) <==> Truthy(a) || Truthy(b)
    ensures Truthy(a) ==> r == a
  {
    if Truthy(a) then a else b
  }

  /** `'key' in v` for an object-typed `v` and the property names the core asks
      about ("message", "status", "response", "data"); no built-in prototype
      property has one of these names, except `Error.prototype.message`. */
  predicate HasProperty(v: Value, key: string) {
    match v
    case Obj(fields) => key in fields
    case ErrorObj(_, props) => key == "message" || key in props
    case _ => false
  }

  /** `v?.key` for the same property names: `undefined` when `v` is nullish,
      a primitive, or lacks the property. */
  function Get(v: Value, key: string): (r: Value)
    ensures !HasProperty(v, key) ==> r == Undefined
    ensures v.Obj? && key in v.fields ==> r == v.fields[key]
  {
    match v
    case Obj(fields) => if key in fields then fields[key] else Undefined
    case ErrorObj(message, props) =>
      if key == "message" then Str(message)
      else if key in props then props[key] else Undefined
    case _ => Undefined
  }

  /** `typeof v === 'object'` (true for `null` as well). */
  predicate IsObjectType(v: Value) {
    v.Null? || v.Arr? || v.Obj? || v.ErrorObj?
  }

  /** `v instanceof Error`. */
  predicate IsErrorInstance(v: Value) {
    v.ErrorObj?
  }

  /** `new Error(text)`: a fresh error object with no property but its message. */
  function NewError(text: string): (e: Value)
    ensures IsErrorInstance(e) && Get(e, "message") == Str(text)
    ensures !HasProperty(e, "response") && !HasProperty(e, "status")
  {
    ErrorObj(text, map[])
  }

  // ---------------------------------------------------------------------------
  // Decimal rendering of integers, as in template literals and String(n).

  predicate IsDigit(c: char) {
    '0' <= c <= '9'
  }

  function DigitChar(d: nat): (c: char)
    requires d < 10
    ensures IsDigit(c) && (c as int) - ('0' as int) == d
  {
    ['0', '1', '2', '3', '4', '5', '6', '7', '8', '9'][d]
  }

  function DigitValue(c: char): nat
    requires IsDigit(c)
  {
    (c as int) - ('0' as int)
  }

  /** The decimal numeral of `n`, without leading zeros. */
  function NatToString(n: nat): (s: string)
    ensures |s| > 0
    ensures forall i :: 0 <= i < |s| ==> IsDigit(s[i])
    ensures s[0] == '0' ==> n == 0
  {
    if n < 10 then [DigitChar(n)]
    else NatToString(n / 10) + [DigitChar(n % 10)]
  }

  /** The value of a string of decimal digits; the inverse of NatToString. */
  function ParseNat(s: string): nat
    requires forall i :: 0 <= i < |s| ==> IsDigit(s[i])
  {
    if |s| == 0 then 0
    else ParseNat(s[..|s| - 1]) * 10 + DigitValue(s[|s| - 1])
  }

  /** Rendering a number in decimal loses nothing: it parses back to itself. */
  lemma {:induction false} ParseNatToString(n: nat)
    ensures ParseNat(NatToString(n)) == n
  {
    var s := NatToString(n);
    if n >= 10 {
      var front := NatToString(n / 10);
      assert s[..|s| - 1] == front;
      ParseNatToString(n / 10);
    }
  }

  /** A decimal numeral with an optional leading minus sign. */
  predicate IsIntNumeral(s: string) {
    if |s| > 0 && s[0] == '-' then |s| > 1 && forall i :: 1 <= i < |s| ==> IsDigit(s[i])
    else |s| > 0 && forall i :: 0 <= i < |s| ==> IsDigit(s[i])
  }

  /** The value of a signed decimal numeral; the inverse of IntToString. */
  function ParseInt(s: string): int
    requires IsIntNumeral(s)
  {
    if s[0] == '-' then
      var digits := s[1..];
      assert forall i :: 0 <= i < |digits| ==> IsDigit(digits[i]) by {
        forall i | 0 <= i < |digits| ensures IsDigit(digits[i]) {
          assert digits[i] == s[i + 1];
        }
      }
      -(ParseNat(digits) as int)
    else ParseNat(s)
  }

  /** `String(n)` / `${n}` for an integer: a signed numeral whose sign is a
      minus exactly for a negative number. */
  function IntToString(n: int): (s: string)
    ensures IsIntNumeral(s)
    ensures s[0] == '-' <==> n < 0
  {
    if n < 0 then "-" + NatToString(-n) else NatToString(n)
  }

  /** Rendering any integer, negative ones included, loses nothing. */
  lemma {:induction false} ParseIntToString(n: int)
    ensures ParseInt(IntToString(n)) == n
  {
    var s := IntToString(n);
    if n < 0 {
      var digits := NatToString(-n);
      assert s == "-" + digits;
      assert s[1..] == digits;
      ParseNatToString(-n);
      assert ParseInt(s) == -(ParseNat(digits) as int);
    } else {
      ParseNatToString(n);
    }
  }

  // ---------------------------------------------------------------------------
  // String(v), which `new Error(v)` applies to its argument.

  /** `parts.join(",")`. */
  function JoinWithCommas(parts: seq<string>): string {
    if |parts| == 0 then ""
    else if |parts| == 1 then parts[0]
    else parts[0] + "," + JoinWithCommas(parts[1..])
  }

  /** `String(v)`. An array renders as its elements joined by commas, with
      `null` and `undefined` elements rendered empty. */
  function ToJsString(v: Value): string
    decreases v
  {
    match v
    case Undefined => "undefined"
    case Null => "null"
    case Bool(b) => if b then "true" else "false"
    case Num(n) => IntToString(n)
    case Str(s) => s
    case Arr(items) =>
      JoinWithCommas(seq(|items|, i requires 0 <= i < |items| =>
        if items[i].Undefined? || items[i].Null? then "" else ToJsString(items[i])))
    case Obj(_) => "[object Object]"
    case ErrorObj(m, _) => if m == "" then "Error" else "Error: " + m
  }

  /** Only an array can be truthy and still render as the empty string. */
  lemma TruthyTextEmptyOnlyForArrays(v: Value)
    requires Truthy(v)
    ensures ToJsString(v) == "" ==> v.Arr?
  {
  }

  /** `String([])` is empty although `[]` is truthy: the witness that the
      empty-message case of `HttpClient.RejectionMessage` can occur. */
  lemma EmptyArrayTextIsEmpty()
    ensures Truthy(Arr([])) && ToJsString(Arr([])) == ""
  {
  }
}
