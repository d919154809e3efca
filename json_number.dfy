/**
 * The JSON text of a non-negative integer, as `JSON.stringify` writes it and
 * `JSON.parse` reads it back: the `int` production of the number grammar in
 * section 6 of RFC 8259 without minus sign, fraction or exponent.  That is,
 * a non-empty run of decimal digits with no leading zero unless the text is
 * exactly "0".
 */
module JsonNumber {
  import opened Wrappers

  predicate IsDigit(c: char) {
    '0' <= c <= '9'
  }

  predicate AllDigits(s: string) {
    forall i :: 0 <= i < |s| ==> IsDigit(s[i])
  }

  /** The RFC 8259 `int` grammar, restricted to non-negative values. */
  predicate IsCanonical(s: string) {
    |s| > 0 && AllDigits(s) && (|s| > 1 ==> s[0] != '0')
  }

  function DigitChar(d: nat): (c: char)
    requires d < 10
    ensures IsDigit(c) && c as int - '0' as int == d
  {
    ('0' as int + d) as char
  }

  function DigitValue(c: char): (d: nat)
    requires IsDigit(c)
    ensures d < 10
  {
    c as int - '0' as int
  }

  /** `JSON.stringify(n)` for a non-negative integer `n`. */
  function Stringify(n: nat): (s: string)
    ensures IsCanonical(s)
    ensures s[0] == '0' <==> n == 0
  {
    if n < 10 then [DigitChar(n)] else Stringify(n / 10) + [DigitChar(n % 10)]
  }

  /** The value denoted by a run of decimal digits, most significant first. */
  function ValueOf(s: string): nat
    requires AllDigits(s)
  {
    if s == [] then 0 else ValueOf(s[..|s| - 1]) * 10 + DigitValue(s[|s| - 1])
  }

  /** `JSON.parse(s)` where the text denotes a non-negative integer; `None` otherwise. */
  function Parse(s: string): Option<nat> {
    if IsCanonical(s) then Some(ValueOf(s)) else None
  }

  /** A digit run denotes at least the value of its leading digit. */
  lemma {:induction false} ValueOfAtLeastLead(s: string)
    requires |s| > 0 && AllDigits(s)
    ensures ValueOf(s) >= DigitValue(s[0])
  {
    if |s| > 1 {
      var p := s[..|s| - 1];
      assert p[0] == s[0];
      ValueOfAtLeastLead(p);
    }
  }

  /** Writing a count and parsing it back gives the count. */
  lemma {:induction false} ParseStringify(n: nat)
    ensures Parse(Stringify(n)) == Some(n)
  {
    var s := Stringify(n);
    if n >= 10 {
      ParseStringify(n / 10);
      assert s[..|s| - 1] == Stringify(n / 10);
      assert DigitValue(s[|s| - 1]) == n % 10;
      assert ValueOf(s) == (n / 10) * 10 + n % 10;
    } else {
      assert s[..0] == [];
    }
  }

  /** Every text `Parse` accepts is the one `Stringify` writes for its value:
      the stored text of a count is unique. */
  lemma {:induction false} StringifyParse(s: string)
    requires Parse(s).Some?
    ensures Stringify(Parse(s).value) == s
  {
    if |s| > 1 {
      var p := s[..|s| - 1];
      assert p[0] == s[0];
      assert IsCanonical(p);
      StringifyParse(p);
      ValueOfAtLeastLead(p);
      var n := ValueOf(s);
      var d := DigitValue(s[|s| - 1]);
      assert n == ValueOf(p) * 10 + d;
      assert n / 10 == ValueOf(p) && n % 10 == d;
      assert DigitChar(d) == s[|s| - 1];
      assert s == p + [s[|s| - 1]];
    } else {
      assert DigitChar(DigitValue(s[0])) == s[0];
    }
  }
}
