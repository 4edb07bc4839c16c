/**
  The DOM id given to each field: the prefix "rest-scaffold-field-" followed
  by the decimal identity of the field object. CPython's `id` is the object's
  address; the model takes it as an injected natural number (`Field.oid`),
  distinct for distinct fields.
 */
module FieldIds {

  const Prefix: string := "rest-scaffold-field-"

  function DigitChar(d: nat): (c: char)
    requires d < 10
    ensures '0' <= c <= '9'
  {
    ('0' as int + d) as char
  }

  /** The decimal numeral of `n`, as Python's string formatting writes an int. */
  function Decimal(n: nat): (r: string)
    ensures |r| >= 1
    ensures forall i :: 0 <= i < |r| ==> '0' <= r[i] <= '9'
  {
    if n < 10 then [DigitChar(n)] else Decimal(n / 10) + [DigitChar(n % 10)]
  }

  /** The value of a string of decimal digits. */
  function DigitsValue(s: string): nat
    requires forall i :: 0 <= i < |s| ==> '0' <= s[i] <= '9'
  {
    if s == [] then 0 else DigitsValue(s[..|s| - 1]) * 10 + (s[|s| - 1] as int - '0' as int)
  }

  /** Reading the numeral back gives the number: `Decimal` loses nothing. */
  lemma {:induction false} DecimalRoundTrip(n: nat)
    ensures DigitsValue(Decimal(n)) == n
  {
    if n >= 10 {
      var r := Decimal(n);
      DecimalRoundTrip(n / 10);
      assert r[..|r| - 1] == Decimal(n / 10);
    }
  }

  /** The id of the field whose object identity is `oid`. */
  function FieldId(oid: nat): (r: string)
    ensures |r| > |Prefix| && r[..|Prefix|] == Prefix
    ensures forall i :: |Prefix| <= i < |r| ==> '0' <= r[i] <= '9'
  {
    Prefix + Decimal(oid)
  }

  /** Distinct field objects get distinct DOM ids. */
  lemma FieldIdInjective(a: nat, b: nat)
    ensures FieldId(a) == FieldId(b) <==> a == b
  {
    if FieldId(a) == FieldId(b) {
      assert Decimal(a) == FieldId(a)[|Prefix|..];
      assert Decimal(b) == FieldId(b)[|Prefix|..];
      DecimalRoundTrip(a);
      DecimalRoundTrip(b);
    }
  }
}
