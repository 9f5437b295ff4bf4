// The string building blocks the frontend pages use on form input: the digit
// filter `value.replace(/\D/g, '')`, `substring(0, n)` / `slice(0, n)`,
// `parseInt(s, 10)` on a run of digits, and JavaScript's notion of blank.
module TextInput {
  import opened Domain

  predicate IsDigit(c: char)
  {
    '0' <= c <= '9'
  }

  predicate AllDigits(s: string)
  {
    forall i :: 0 <= i < |s| ==> IsDigit(s[i])
  }

  /** `value.replace(/\D/g, '')`: the ASCII digits of `s`, in order. */
  function Digits(s: string): (r: string)
    ensures AllDigits(r) && |r| <= |s|
    ensures AllDigits(s) ==> r == s
  {
    if s == [] then []
    else if IsDigit(s[0]) then [s[0]] + Digits(s[1..])
    else Digits(s[1..])
  }

  /** Filtering distributes over concatenation. */
  lemma {:induction false} DigitsOfConcat(a: string, b: string)
    ensures Digits(a + b) == Digits(a) + Digits(b)
  {
    if a == [] {
      assert a + b == b;
    } else {
      assert (a + b)[1..] == a[1..] + b;
      assert (a + b)[0] == a[0];
      DigitsOfConcat(a[1..], b);
    }
  }

  /** A character that is not a digit contributes nothing. */
  lemma DigitsOfNonDigit(c: char)
    requires !IsDigit(c)
    ensures Digits([c]) == []
  {
    assert [c][1..] == [];
  }

  function Min(a: int, b: int): int
  {
    if a <= b then a else b
  }

  /** `s.substring(0, n)` / `s.slice(0, n)`: at most the first `n` characters. */
  function Prefix(s: string, n: nat): (r: string)
    ensures |r| == Min(|s|, n)
    ensures r == s[..Min(|s|, n)]
  {
    if |s| <= n then s else s[..n]
  }

  function DigitValue(c: char): (v: nat)
    requires IsDigit(c)
    ensures v <= 9
  {
    (c as int - '0' as int) as nat
  }

  /** `parseInt(s, 10)` on a non-empty run of digits: its decimal value. */
  function DecimalValue(s: string): (v: nat)
    requires AllDigits(s)
  {
    if s == [] then 0 else 10 * DecimalValue(s[..|s| - 1]) + DigitValue(s[|s| - 1])
  }

  lemma DecimalValueOne(s: string)
    requires AllDigits(s) && |s| == 1
    ensures DecimalValue(s) == DigitValue(s[0])
  {
    assert s[..0] == [];
  }

  lemma DecimalValueTwo(s: string)
    requires AllDigits(s) && |s| == 2
    ensures DecimalValue(s) == 10 * DigitValue(s[0]) + DigitValue(s[1])
  {
    DecimalValueOne(s[..1]);
  }

  /** The whitespace `String.prototype.trim` removes (ECMAScript WhiteSpace and LineTerminator). */
  predicate IsJsSpace(c: char)
  {
    || c == ' ' || c == '\t' || c == '\n' || c == '\r' || c == '\U{000B}' || c == '\U{000C}'
    || c == '\U{00A0}' || c == '\U{1680}' || ('\U{2000}' <= c <= '\U{200A}')
    || c == '\U{2028}' || c == '\U{2029}' || c == '\U{202F}' || c == '\U{205F}' || c == '\U{3000}' || c == '\U{FEFF}'
  }

  /** `!s || s.trim() === ''`: the field is empty or only whitespace. */
  predicate Blank(s: string)
  {
    forall i :: 0 <= i < |s| ==> IsJsSpace(s[i])
  }

  /**
   * The leading run of digits of `s`, as `parseFloat` reads a whole number;
   * `None` when `s` does not start with a digit (NaN).
   */
  function LeadingNumber(s: string): (r: Option<nat>)
    ensures r.Some? <==> |s| > 0 && IsDigit(s[0])
    ensures AllDigits(s) && s != [] ==> r == Some(DecimalValue(s))
  {
    var k := DigitRun(s);
    assert AllDigits(s) ==> k == |s| && s[..k] == s;
    if k == 0 then None else Some(DecimalValue(s[..k]))
  }

  /** The length of the leading run of digits. */
  function DigitRun(s: string): (k: nat)
    ensures k <= |s| && AllDigits(s[..k])
    ensures k < |s| ==> !IsDigit(s[k])
    ensures k == 0 <==> s == [] || !IsDigit(s[0])
  {
    if s == [] || !IsDigit(s[0]) then 0
    else
      var k := 1 + DigitRun(s[1..]);
      assert s[..k] == [s[0]] + s[1..][..k - 1];
      k
  }
}
