/** Decimal printing of non-negative integers and `strconv.ParseInt(s, 10, 64)`. */
module Decimals {
  import opened Options

  const MAX_INT64 := 0x7fff_ffff_ffff_ffff
  const MIN_INT64 := -0x8000_0000_0000_0000

  predicate IsDigit(c: char) { '0' <= c <= '9' }

  function DigitChar(d: nat): (c: char)
    requires d < 10
    ensures IsDigit(c) && c as int - '0' as int == d
  {
    ('0' as int + d) as char
  }

  function Print(n: nat): (s: string)
    ensures s != [] && forall k | 0 <= k < |s| :: IsDigit(s[k])
  {
    if n < 10 then [DigitChar(n)] else Print(n / 10) + [DigitChar(n % 10)]
  }

  /** The value of a string of digits, read left to right; None at the first other character. */
  function DigitsValue(s: string): Option<nat> {
    if s == [] then Some(0)
    else
      var c := s[|s| - 1];
      match DigitsValue(s[..|s| - 1])
      case None => None
      case Some(v) => if IsDigit(c) then Some(10 * v + (c as int - '0' as int)) else None
  }

  /** An optional sign, at least one digit, and a value that fits. */
  function ParseInt64(s: string): Option<int> {
    var negative := s != [] && s[0] == '-';
    var digits := if s != [] && (s[0] == '-' || s[0] == '+') then s[1..] else s;
    if digits == [] then None
    else match DigitsValue(digits)
         case None => None
         case Some(v) =>
           var n: int := if negative then -(v as int) else v;
           if MIN_INT64 <= n <= MAX_INT64 then Some(n) else None
  }

  /** Go's `n + 1` on int64. */
  function Next64(n: int): int {
    if n == MAX_INT64 then MIN_INT64 else n + 1
  }

  lemma {:induction false} PrintedValue(n: nat)
    ensures DigitsValue(Print(n)) == Some(n)
  {
    var s := Print(n);
    if n < 10 {
      assert s[..|s| - 1] == [];
    } else {
      assert s[..|s| - 1] == Print(n / 10);
      PrintedValue(n / 10);
    }
  }

  /** What is printed for an id is read back as the same number. */
  lemma ParsePrinted(n: nat)
    requires n <= MAX_INT64
    ensures ParseInt64(Print(n)) == Some(n)
  {
    PrintedValue(n);
    assert IsDigit(Print(n)[0]);
  }

  /** With or without a sign, a number is read exactly if it is a signed 64-bit one. */
  lemma ParseSigned(n: nat)
    ensures n <= 9223372036854775807 ==> ParseInt64(Print(n)) == Some(n) && ParseInt64("+" + Print(n)) == Some(n)
    ensures n > 9223372036854775807 ==> ParseInt64(Print(n)) == None && ParseInt64("+" + Print(n)) == None
    ensures n <= 9223372036854775808 ==> ParseInt64("-" + Print(n)) == Some(-(n as int))
    ensures n > 9223372036854775808 ==> ParseInt64("-" + Print(n)) == None
  {
    hide Print, DigitsValue;
    PrintedValue(n);
    var digits := Print(n);
    assert IsDigit(digits[0]);
    assert ("+" + digits)[1..] == digits && ("-" + digits)[1..] == digits;
  }

  lemma {:induction false} DigitsAreRead(s: string)
    ensures DigitsValue(s).Some? <==> forall k | 0 <= k < |s| :: '0' <= s[k] <= '9'
  {
    if s != [] {
      var front := s[..|s| - 1];
      DigitsAreRead(front);
      assert s == front + [s[|s| - 1]];
    }
  }

  /** Nothing but digits, at least one, with one sign before them at most, is read as a number. */
  lemma ParseRejects(s: string)
    ensures
      var body := if s != [] && s[0] in "+-" then s[1..] else s;
      body == [] || (exists k :: 0 <= k < |body| && !('0' <= body[k] <= '9')) ==> ParseInt64(s) == None
  {
    DigitsAreRead(if s != [] && s[0] in "+-" then s[1..] else s);
  }

  /** Leading zeros do not change a number. */
  lemma {:induction false} LeadingZero(s: string)
    ensures DigitsValue("0" + s) == DigitsValue(s)
  {
    if s == [] {
      assert ("0" + s)[..0] == [];
    } else {
      LeadingZero(s[..|s| - 1]);
      assert ("0" + s)[..|s|] == "0" + s[..|s| - 1];
    }
  }

  lemma PrintInjective(m: nat, n: nat)
    requires Print(m) == Print(n)
    ensures m == n
  {
    PrintedValue(m);
    PrintedValue(n);
  }
}
