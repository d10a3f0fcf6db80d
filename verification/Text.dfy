/** Strings as the program sees them: sequences of UTF-16 code units, with decimal numerals. */
module Text {

  type CodeUnit = u: int | 0 <= u < 0x1_0000

  type Text = seq<CodeUnit>

  /** The code units of an ASCII literal; anything else becomes a question mark. */
  function Ascii(s: string): (t: Text)
    ensures |t| == |s|
    ensures forall i | 0 <= i < |s| && (s[i] as int) < 128 :: t[i] == s[i] as int
  {
    seq(|s|, i requires 0 <= i < |s| => if (s[i] as int) < 128 then s[i] as int else 63)
  }

  predicate IsDigitUnit(u: CodeUnit) {
    48 <= u <= 57
  }

  /** What may follow a numeral without being read as part of it. */
  predicate EndsNumeral(rest: Text) {
    rest == [] || !IsDigitUnit(rest[0])
  }

  /** The shortest decimal numeral of n. */
  function PrintNat(n: nat): (t: Text)
    ensures t != []
    ensures forall i | 0 <= i < |t| :: IsDigitUnit(t[i])
  {
    if n < 10 then [48 + n] else PrintNat(n / 10) + [48 + n % 10]
  }

  /** The number a digit string denotes; leading zeros are allowed. */
  function NatOf(digits: Text): nat
    requires forall i | 0 <= i < |digits| :: IsDigitUnit(digits[i])
  {
    if digits == [] then 0
    else
      var last := digits[|digits| - 1];
      assert IsDigitUnit(last);
      NatOf(digits[..|digits| - 1]) * 10 + (last as int - 48)
  }

  /** How many leading digits a text has. */
  function DigitSpan(t: Text): (k: nat)
    ensures k <= |t|
    ensures forall i | 0 <= i < k :: IsDigitUnit(t[i])
    ensures EndsNumeral(t[k..])
  {
    if t == [] || !IsDigitUnit(t[0]) then 0 else 1 + DigitSpan(t[1..])
  }

  lemma {:induction false} PrintNatRoundTrip(n: nat)
    ensures NatOf(PrintNat(n)) == n
  {
    if n >= 10 {
      PrintNatRoundTrip(n / 10);
      var front := PrintNat(n / 10);
      assert (front + [48 + n % 10])[..|front|] == front;
    }
  }

  /** A run of digits that something else follows is spanned exactly. */
  lemma {:induction false} DigitSpanOfRun(digits: Text, rest: Text)
    requires forall i | 0 <= i < |digits| :: IsDigitUnit(digits[i])
    requires EndsNumeral(rest)
    ensures DigitSpan(digits + rest) == |digits|
  {
    if digits == [] {
      assert digits + rest == rest;
    } else {
      assert (digits + rest)[1..] == digits[1..] + rest;
      DigitSpanOfRun(digits[1..], rest);
    }
  }

  /** Code unit order, the default order of string sorting. */
  predicate TextLeq(a: Text, b: Text) {
    if a == [] then true
    else if b == [] then false
    else a[0] < b[0] || (a[0] == b[0] && TextLeq(a[1..], b[1..]))
  }

  lemma {:induction false} TextLeqTotal(a: Text, b: Text)
    ensures TextLeq(a, b) || TextLeq(b, a)
    ensures TextLeq(a, b) && TextLeq(b, a) ==> a == b
  {
    if a != [] && b != [] && a[0] == b[0] {
      TextLeqTotal(a[1..], b[1..]);
      if a[1..] == b[1..] {
        assert a == [a[0]] + a[1..];
        assert b == [b[0]] + b[1..];
      }
    }
  }

  lemma {:induction false} TextLeqTransitive(a: Text, b: Text, c: Text)
    requires TextLeq(a, b) && TextLeq(b, c)
    ensures TextLeq(a, c)
  {
    if a != [] && a[0] == b[0] == c[0] {
      TextLeqTransitive(a[1..], b[1..], c[1..]);
    }
  }
}
