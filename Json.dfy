/**
 * The JSON values the weather service sends, and the few JavaScript operations
 * the core applies to them: the `in` operator, property reads and number-to-text
 * conversion for the diagnostics.
 */
module Json {

  /** A decoded JSON value. A number is kept as the text JavaScript prints for it:
      the core never computes with the numbers it receives, it only copies them. */
  datatype Json =
    | JNull
    | JBool(b: bool)
    | JNum(text: string)
    | JStr(s: string)
    | JArr(items: seq<Json>)
    | JObj(fields: map<string, Json>)

  /** A JavaScript value as the core reads it out of an object: a JSON value,
      `undefined` for an absent property, or the NaN placeholder of a template. */
  datatype JsValue = Undefined | NotANumber | Of(json: Json)

  /** The values on which `key in v` does not throw a TypeError. */
  predicate ObjectLike(j: Json) {
    j.JObj? || j.JArr?
  }

  /** `key in j`. An array answers true only for its indices and for "length",
      and no template key is either, so for arrays this is false. */
  predicate Has(j: Json, key: string) {
    j.JObj? && key in j.fields
  }

  function Get(j: Json, key: string): Json
    requires Has(j, key)
  {
    j.fields[key]
  }

  /** The own properties of an object, as the `in` operator and property reads see them. */
  function Props(j: Json): (p: map<string, JsValue>)
    ensures forall k :: k in p <==> Has(j, k)
    ensures forall k :: Has(j, k) ==> p[k] == Of(Get(j, k))
  {
    if j.JObj? then map k | k in j.fields :: Of(j.fields[k]) else map[]
  }

  /** `obj.key`: the property's value, or `undefined` when the object has no such key. */
  function Read(props: map<string, JsValue>, key: string): JsValue {
    if key in props then props[key] else Undefined
  }

  /** The values over which a `for…in` walk followed by `key in v` tests runs
      without a TypeError: every value except a non-empty string primitive
      (whose walk yields indices that `in` then refuses). */
  predicate Walkable(j: Json) {
    !(j.JStr? && j.s != "")
  }

  /** The keys a `for…in` walk over `j` yields that the model enumerates. An
      array's indices are also found by `in`, so walking them adds nothing. */
  function ForInKeys(j: Json): set<string> {
    if j.JObj? then j.fields.Keys else {}
  }

  /** Decimal text of a natural number, as `"" + n` gives it in JavaScript. */
  function NatText(n: nat): (s: string)
    ensures |s| >= 1
    ensures forall i :: 0 <= i < |s| ==> '0' <= s[i] <= '9'
    ensures |s| > 1 ==> s[0] != '0'
  {
    if n < 10 then [Digit(n)] else NatText(n / 10) + [Digit(n % 10)]
  }

  function Digit(d: nat): (c: char)
    requires d < 10
    ensures '0' <= c <= '9'
    ensures c as int - '0' as int == d
  {
    ('0' as int + d) as char
  }

  /** Reads a string of decimal digits back as a number. */
  function DigitsValue(s: string): nat
    requires forall i :: 0 <= i < |s| ==> '0' <= s[i] <= '9'
  {
    if s == [] then 0 else 10 * DigitsValue(s[..|s| - 1]) + (s[|s| - 1] as int - '0' as int)
  }

  /** NatText loses nothing: the number is recovered from its text, so two
      diagnostics that differ only in a count or day index are different strings. */
  lemma {:induction false} NatTextRoundTrip(n: nat)
    ensures DigitsValue(NatText(n)) == n
  {
    if n >= 10 {
      NatTextRoundTrip(n / 10);
      var s := NatText(n);
      assert s == NatText(n / 10) + [Digit(n % 10)];
      assert s[..|s| - 1] == NatText(n / 10);
    }
  }

  lemma NatTextInjective(m: nat, n: nat)
    requires NatText(m) == NatText(n)
    ensures m == n
  {
    NatTextRoundTrip(m);
    NatTextRoundTrip(n);
  }
}
