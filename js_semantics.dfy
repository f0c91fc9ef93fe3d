/**
 * The few JavaScript evaluation rules that the modelled TypeScript relies on:
 * property lookup on an object literal, truthiness of optional strings under `||`
 * and `!`, and the decimal rendering of an integer inside a template literal.
 */
module JsSemantics {
  import opened Wrappers

  /**
   * The property names an object literal inherits from Object.prototype
   * (section 20.1.3 and Annex B.2.2 of ECMA-262). `obj[key]` yields one of
   * these (a function, or Object.prototype itself for `__proto__`) when `key`
   * is not an own property of `obj`.
   */
  const ObjectPrototypeMembers: set<string> := {
    "constructor", "hasOwnProperty", "isPrototypeOf", "propertyIsEnumerable",
    "toLocaleString", "toString", "valueOf", "__proto__",
    "__defineGetter__", "__defineSetter__", "__lookupGetter__", "__lookupSetter__"
  }

  /** What `obj[key]` evaluates to on an object literal. */
  datatype Property<+T> = Own(value: T) | Inherited(name: string) | Undefined

  /** `obj[key]`, where `own` holds the object literal's own properties. */
  function Lookup<T>(own: map<string, T>, key: string): (p: Property<T>)
    ensures p.Undefined? <==> key !in own && key !in ObjectPrototypeMembers
    ensures p.Own? ==> key in own && p.value == own[key]
    ensures p.Inherited? ==> key !in own && p.name == key
  {
    if key in own then Own(own[key])
    else if key in ObjectPrototypeMembers then Inherited(key)
    else Undefined
  }

  /** Truthiness of a string-valued field that may be missing: only a non-empty string is truthy. */
  predicate Truthy(s: Option<string>) {
    s.Some? && s.value != ""
  }

  /** `s || fallback` for a string-valued field that may be missing. */
  function OrElse(s: Option<string>, fallback: string): (r: string)
    ensures Truthy(s) ==> r == s.value
    ensures !Truthy(s) ==> r == fallback
    ensures fallback != "" ==> r != ""
  {
    if Truthy(s) then s.value else fallback
  }

  predicate IsDigit(c: char) {
    '0' <= c <= '9'
  }

  predicate AllDigits(s: string) {
    forall i :: 0 <= i < |s| ==> IsDigit(s[i])
  }

  function DigitChar(d: nat): (c: char)
    requires d < 10
    ensures IsDigit(c) && c as int - '0' as int == d
  {
    ('0' as int + d) as char
  }

  /** `${n}` for a non-negative integer n: its decimal digits, without leading zeros. */
  function DecimalString(n: nat): (s: string)
    ensures 1 <= |s| && AllDigits(s)
    ensures |s| > 1 ==> s[0] != '0'
    decreases n
  {
    if n < 10 then [DigitChar(n)] else DecimalString(n / 10) + [DigitChar(n % 10)]
  }

  /** The integer a string of decimal digits denotes. */
  function DecimalValue(s: string): nat
    requires AllDigits(s)
  {
    if s == [] then 0 else DecimalValue(s[..|s| - 1]) * 10 + (s[|s| - 1] as int - '0' as int)
  }

  /** Reading back the decimal rendering of n gives n. */
  lemma {:induction false} DecimalRoundTrip(n: nat)
    ensures DecimalValue(DecimalString(n)) == n
  {
    if n >= 10 {
      DecimalRoundTrip(n / 10);
      var s := DecimalString(n);
      assert s[..|s| - 1] == DecimalString(n / 10);
    }
  }

  /** A four-digit integer renders as exactly four characters. */
  lemma FourDigits(n: nat)
    requires 1000 <= n <= 9999
    ensures |DecimalString(n)| == 4
  {
    assert DecimalString(n / 1000) == [DigitChar(n / 1000)];
    assert (n / 10) / 10 == n / 100;
    assert (n / 100) / 10 == n / 1000;
    assert |DecimalString(n / 100)| == 2;
    assert |DecimalString(n / 10)| == 3;
  }
}
