/** Decimal text as the C and C++ runtime reads and writes it: the digits
    of a natural number, `atoi`, and the helpers std::stod and
    std::string::find_first_of build on. */
module Decimal {

  predicate Digit(c: char)
  {
    '0' <= c <= '9'
  }

  /** The characters isspace accepts in the C locale. */
  predicate Space(c: char)
  {
    c == ' ' || c == '\t' || c == '\n' || c == '\U{000B}' || c == '\U{000C}' || c == '\r'
  }

  /** The numeric value of a string of digits. */
  function DigitsValue(s: string): (v: nat)
    requires forall i :: 0 <= i < |s| ==> Digit(s[i])
  {
    if |s| == 0 then 0
    else
      assert Digit(s[|s| - 1]);
      DigitsValue(s[..|s| - 1]) * 10 + (s[|s| - 1] as int - '0' as int)
  }

  /** The end of the run of digits starting at `from`. */
  function DigitRunEnd(s: string, from: nat): (r: nat)
    requires from <= |s|
    ensures from <= r <= |s|
    ensures forall i :: from <= i < r ==> Digit(s[i])
    ensures r < |s| ==> !Digit(s[r])
    decreases |s| - from
  {
    if from == |s| || !Digit(s[from]) then from else DigitRunEnd(s, from + 1)
  }

  /** The end of the run of white space starting at `from`. */
  function SpaceRunEnd(s: string, from: nat): (r: nat)
    requires from <= |s|
    ensures from <= r <= |s|
    ensures forall i :: from <= i < r ==> Space(s[i])
    ensures r < |s| ==> !Space(s[r])
    decreases |s| - from
  {
    if from == |s| || !Space(s[from]) then from else SpaceRunEnd(s, from + 1)
  }

  /** The decimal digits of n, as operator<< writes an integer. */
  function NatText(n: nat): (s: string)
    ensures |s| >= 1
    ensures forall i :: 0 <= i < |s| ==> Digit(s[i])
  {
    if n < 10 then [('0' as int + n) as char]
    else NatText(n / 10) + [('0' as int + n % 10) as char]
  }

  /** Reading back the digits of n gives n. */
  lemma {:induction false} NatTextValue(n: nat)
    ensures DigitsValue(NatText(n)) == n
  {
    if n >= 10 {
      NatTextValue(n / 10);
      var s := NatText(n);
      assert s[..|s| - 1] == NatText(n / 10);
    }
  }

  /** The digits of n form one run to the end of the text. */
  lemma NatTextRun(n: nat)
    ensures DigitRunEnd(NatText(n), 0) == |NatText(n)|
    ensures NatText(n)[..|NatText(n)|] == NatText(n)
  {
  }

  /** atoi: leading white space is skipped, then an optional sign, then
      the longest run of digits is converted; text without digits there
      gives 0. */
  function Atoi(s: string): int
  {
    var start := SpaceRunEnd(s, 0);
    var signed := start < |s| && (s[start] == '-' || s[start] == '+');
    var digitsStart := if signed then start + 1 else start;
    var magnitude := DigitsValue(s[digitsStart..DigitRunEnd(s, digitsStart)]);
    if signed && s[start] == '-' then -(magnitude as int) else magnitude
  }

  /** atoi reads back the decimal text of a natural number. */
  lemma AtoiNatText(n: nat)
    ensures Atoi(NatText(n)) == n
  {
    var s := NatText(n);
    assert !Space(s[0]) && !(s[0] == '-' || s[0] == '+') by {
      assert Digit(s[0]);
    }
    NatTextRun(n);
    NatTextValue(n);
  }

  /** ... and of a negative one, written with a minus sign. */
  lemma AtoiNegativeText(n: nat)
    ensures Atoi("-" + NatText(n)) == -(n as int)
  {
    var t := NatText(n);
    var s := "-" + t;
    assert SpaceRunEnd(s, 0) == 0;
    NatTextValue(n);
    forall i | 1 <= i < |s|
      ensures Digit(s[i])
    {
      assert s[i] == t[i - 1];
    }
    assert s[1..DigitRunEnd(s, 1)] == t;
  }

  /** Text that starts with neither white space, a sign nor a digit reads
      as 0. */
  lemma AtoiNoNumber(s: string)
    requires |s| > 0 && !Space(s[0]) && !Digit(s[0]) && s[0] != '-' && s[0] != '+'
    ensures Atoi(s) == 0
  {
    assert s[0..0] == [];
  }
}
