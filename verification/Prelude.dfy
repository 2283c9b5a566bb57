// Small pieces shared by every component.

module Prelude {
  datatype Option<+T> = None | Some(value: T)

  function Min(a: int, b: int): (m: int)
    ensures m <= a && m <= b && (m == a || m == b)
  {
    if a < b then a else b
  }
}

// Values as JavaScript code sees them.
module JsValues {
  // A field of an object: missing, null, or a value.
  datatype Field<+T> = Undefined | Null | Val(value: T)

  // A body as parsed: an object is identified with the text JSON.stringify gives it.
  datatype Body = NoBody | NullBody | Text(text: string) | Obj(json: string)

  predicate Truthy(f: Field<string>) { f.Val? && f.value != "" }

  ghost predicate NonEmpty(f: Field<string>) { f.Val? && |f.value| > 0 }

  // a || b for texts
  function Or(a: Field<string>, b: Field<string>): Field<string> { if Truthy(a) then a else b }
}

// JavaScript's decimal text of an integer, `String(n)` or `n.toString()`.
module Decimal {
  const DIGITS: string := "0123456789"

  function Text(n: int): string
    decreases if n < 0 then 1 else 0, if n < 0 then -n else n
  {
    if n < 0 then "-" + Text(-n)
    else if n < 10 then [DIGITS[n]]
    else Text(n / 10) + [DIGITS[n % 10]]
  }

  function Digit(c: char): int {
    if '0' <= c <= '9' then c as int - '0' as int else 0
  }

  // Reads a text of digits back.
  function Value(s: string): int {
    if s == [] then 0 else Value(s[..|s| - 1]) * 10 + Digit(s[|s| - 1])
  }

  lemma {:induction false} DigitText(d: int)
    requires 0 <= d < 10
    ensures Digit(DIGITS[d]) == d && '0' <= DIGITS[d] <= '9'
  {
    assert DIGITS[0] == '0' && DIGITS[1] == '1' && DIGITS[2] == '2' && DIGITS[3] == '3' && DIGITS[4] == '4';
    assert DIGITS[5] == '5' && DIGITS[6] == '6' && DIGITS[7] == '7' && DIGITS[8] == '8' && DIGITS[9] == '9';
  }

  // The text of a natural number is made of digits only, has no leading zero and reads back
  // as the number.
  lemma {:induction false} RoundTrip(n: nat)
    ensures Value(Text(n)) == n && |Text(n)| > 0
    ensures forall c :: c in Text(n) ==> '0' <= c <= '9'
    ensures Text(n)[0] == '0' ==> n == 0 && |Text(n)| == 1
  {
    DigitText(n % 10);
    if n < 10 {
      var s := Text(n);
      assert s[..|s| - 1] == [];
    } else {
      RoundTrip(n / 10);
      var s := Text(n);
      assert s[..|s| - 1] == Text(n / 10);
    }
  }

  // A negative number's text is a minus sign before that of its absolute value.
  lemma {:induction false} SignedRoundTrip(n: int)
    requires n < 0
    ensures |Text(n)| > 1 && Text(n)[0] == '-' && Value(Text(n)[1..]) == -n
  {
    hide Text, Value;
    MinusFirst(n);
    RoundTrip(-n);
    assert ("-" + Text(-n))[1..] == Text(-n);
  }

  lemma MinusFirst(n: int)
    requires n < 0
    ensures Text(n) == "-" + Text(-n)
  {
  }
}
