/** Decimal text of integers, as std::to_string writes it, and the value of a string of digits. */
module Decimals {
  import opened Results

  predicate IsDigit(c: char) {
    '0' <= c <= '9'
  }

  predicate AllDigits(s: string) {
    forall i :: 0 <= i < |s| ==> IsDigit(s[i])
  }

  function DigitValue(c: char): (d: nat)
    requires IsDigit(c)
    ensures d < 10
  {
    c as int - '0' as int
  }

  function DigitChar(d: nat): (c: char)
    requires d < 10
    ensures IsDigit(c) && DigitValue(c) == d
  {
    ('0' as int + d) as char
  }

  function NatText(n: nat): (s: string)
    ensures 1 <= |s| && AllDigits(s)
  {
    if n < 10 then [DigitChar(n)] else NatText(n / 10) + [DigitChar(n % 10)]
  }

  function NatValue(s: string): nat
    requires AllDigits(s)
  {
    if s == [] then 0 else 10 * NatValue(s[..|s| - 1]) + DigitValue(s[|s| - 1])
  }

  /** Writing a number and reading the digits gives the number. */
  lemma {:induction false} ValueOfText(n: nat)
    ensures NatValue(NatText(n)) == n
  {
    if n < 10 {
      var s := NatText(n);
      assert s[..0] == [];
      assert NatValue(s[..0]) == 0;
    } else {
      ValueOfText(n / 10);
      var s := NatText(n);
      assert s[..|s| - 1] == NatText(n / 10) && s[|s| - 1] == DigitChar(n % 10);
    }
  }

  lemma {:induction false} PrefixValue(s: string, k: nat)
    requires AllDigits(s) && k <= |s|
    ensures NatValue(s[..k]) <= NatValue(s)
  {
    if k == |s| {
      assert s[..k] == s;
    } else {
      var front := s[..|s| - 1];
      PrefixValue(front, k);
      assert front[..k] == s[..k];
    }
  }

  function IntText(n: int): (s: string)
    ensures 1 <= |s|
  {
    if n < 0 then "-" + NatText(-n) else NatText(n)
  }

  /** A sign and digits, and nothing else. */
  function IntOf(s: string): Option<int> {
    if |s| > 0 && s[0] == '-' then
      if |s| > 1 && AllDigits(s[1..]) then
        var v: int := 0 - NatValue(s[1..]) as int;
        Some(v)
      else None
    else if |s| > 0 && AllDigits(s) then
      var v: int := NatValue(s);
      Some(v)
    else None
  }

  lemma IntOfText(n: int)
    ensures IntOf(IntText(n)) == Some(n)
  {
    hide NatText, NatValue;
    if n < 0 {
      ValueOfText(0 - n);
      assert IntText(n)[1..] == NatText(0 - n);
    } else {
      ValueOfText(n);
      assert IsDigit(IntText(n)[0]);
    }
  }

  lemma IntTextChars(n: int)
    ensures forall i :: 0 <= i < |IntText(n)| ==> IsDigit(IntText(n)[i]) || IntText(n)[i] == '-'
  {
    hide NatText;
  }

  /** Different numbers are written differently. */
  lemma IntTextInjective(m: int, n: int)
    requires IntText(m) == IntText(n)
    ensures m == n
  {
    IntOfText(m);
    IntOfText(n);
  }

  // ---- std::stoi and std::stoll

  predicate IsSpace(c: char) {
    c == ' ' || ('\t' <= c <= '\r')
  }

  function SkipSpace(s: string): string {
    if s != [] && IsSpace(s[0]) then SkipSpace(s[1..]) else s
  }

  function DigitRun(s: string): (r: string)
    ensures AllDigits(r) && |r| <= |s| && r == s[..|r|]
    ensures |r| < |s| ==> !IsDigit(s[|r|])
  {
    if s != [] && IsDigit(s[0]) then [s[0]] + DigitRun(s[1..]) else []
  }

  /** Blanks, a sign and digits, then anything; without digits there is no number. */
  function LeadingInt(s: string): Option<int> {
    var t := SkipSpace(s);
    var signed := t != [] && (t[0] == '-' || t[0] == '+');
    var digits := DigitRun(if signed then t[1..] else t);
    if digits == [] then None
    else
      var n: int := if signed && t[0] == '-' then 0 - NatValue(digits) as int else NatValue(digits) as int;
      Some(n)
  }

  predicate InIntRange(n: int) {
    -0x8000_0000 <= n < 0x8000_0000
  }

  predicate InLongRange(n: int) {
    -0x8000_0000_0000_0000 <= n < 0x8000_0000_0000_0000
  }

  /** None stands for the exceptions: no number, or one out of range. */
  function Stoi(s: string): Option<int> {
    var n := LeadingInt(s);
    if n.Some? && InIntRange(n.value) then n else None
  }

  function Stoll(s: string): Option<int> {
    var n := LeadingInt(s);
    if n.Some? && InLongRange(n.value) then n else None
  }

  lemma {:induction false} DigitRunAll(digits: string)
    requires AllDigits(digits)
    ensures DigitRun(digits) == digits
  {
    if digits != [] {
      DigitRunAll(digits[1..]);
    }
  }

  /** Reading back what std::to_string wrote. */
  lemma LeadingIntOfText(n: int)
    ensures LeadingInt(IntText(n)) == Some(n)
  {
    hide NatText, NatValue;
    var s := IntText(n);
    if n < 0 {
      ValueOfText(0 - n);
      assert s[1..] == NatText(0 - n);
      DigitRunAll(NatText(0 - n));
    } else {
      ValueOfText(n);
      assert IsDigit(s[0]);
      DigitRunAll(NatText(n));
    }
  }

  lemma StoiOfText(n: int)
    requires InIntRange(n)
    ensures Stoi(IntText(n)) == Some(n)
  {
    LeadingIntOfText(n);
  }

  lemma StollOfText(n: int)
    requires InLongRange(n)
    ensures Stoll(IntText(n)) == Some(n)
  {
    LeadingIntOfText(n);
  }

  /** The blanks of the C locale: space, tab, line feed, vertical tab, form feed, carriage return. */
  predicate AllBlank(s: string) {
    forall i :: 0 <= i < |s| ==> s[i] == ' ' || 9 <= s[i] as int <= 13
  }

  lemma {:induction false} SkipsBlanks(blanks: string, t: string)
    requires AllBlank(blanks) && (t != [] ==> t[0] != ' ' && !(9 <= t[0] as int <= 13))
    ensures SkipSpace(blanks + t) == t
  {
    if blanks == [] {
      assert blanks + t == t;
    } else {
      assert (blanks + t)[1..] == blanks[1..] + t;
      SkipsBlanks(blanks[1..], t);
    }
  }

  lemma {:induction false} RunOfDigits(digits: string, junk: string)
    requires AllDigits(digits) && (junk != [] ==> !IsDigit(junk[0]))
    ensures DigitRun(digits + junk) == digits
  {
    if digits == [] {
      assert digits + junk == junk;
    } else {
      assert (digits + junk)[1..] == digits[1..] + junk;
      RunOfDigits(digits[1..], junk);
    }
  }

  /** Blanks, at most one sign, at least one digit, and then anything that is no digit. */
  lemma LeadingIntReads(blanks: string, sign: string, digits: string, junk: string)
    requires AllBlank(blanks) && sign in {"", "+", "-"} && AllDigits(digits)
    requires junk != [] ==> !IsDigit(junk[0])
    requires sign == "" && digits == "" && junk != [] ==> !AllBlank([junk[0]]) && junk[0] != '+' && junk[0] != '-'
    ensures LeadingInt(blanks + sign + digits + junk) ==
              if digits == "" then None
              else if sign == "-" then Some(0 - NatValue(digits)) else Some(NatValue(digits) as int)
  {
    var s := blanks + sign + digits + junk;
    var rest := digits + junk;
    hide NatValue, SkipSpace, DigitRun, LeadingInt, AllBlank, AllDigits, IsDigit;
    RunOfDigits(digits, junk);
    if sign == "" {
      SkipsToDigits(blanks, digits, junk);
      assert s == blanks + rest;
      NumberAfter(s, false, "", rest);
    } else {
      SkipsBlanks(blanks, sign + rest);
      assert s == blanks + (sign + rest);
      assert (sign + rest)[1..] == rest;
      NumberAfter(s, true, sign, rest);
    }
  }

  lemma NumberAfter(s: string, signed: bool, sign: string, rest: string)
    requires SkipSpace(s) == sign + rest
    requires if signed then sign == "-" || sign == "+" else sign == "" && (rest != "" ==> rest[0] !in "+-")
    ensures LeadingInt(s) ==
              if DigitRun(rest) == "" then None
              else if sign == "-" then Some(0 - NatValue(DigitRun(rest))) else Some(NatValue(DigitRun(rest)) as int)
  {
    hide NatValue, SkipSpace, DigitRun;
    var t := SkipSpace(s);
    assert if signed then t[1..] == rest else t == rest;
  }

  lemma SkipsToDigits(blanks: string, digits: string, junk: string)
    requires AllBlank(blanks) && AllDigits(digits)
    requires digits == "" && junk != [] ==> !AllBlank([junk[0]]) && junk[0] != '+' && junk[0] != '-'
    ensures var t := digits + junk;
            SkipSpace(blanks + t) == t && (t != [] ==> t[0] != '+' && t[0] != '-')
  {
    hide SkipSpace;
    var t := digits + junk;
    if t != [] {
      assert t[0] == if digits != "" then digits[0] else junk[0];
      assert digits != "" ==> IsDigit(t[0]);
      assert digits == "" ==> [junk[0]][0] == t[0];
    }
    SkipsBlanks(blanks, t);
  }

  /** The numbers std::stoi gives are those of a 32-bit int, anything else is an exception. */
  lemma StoiReads(blanks: string, sign: string, digits: string, junk: string)
    requires AllBlank(blanks) && sign in {"", "+", "-"} && AllDigits(digits) && digits != ""
    requires junk != [] ==> !IsDigit(junk[0])
    ensures var n := if sign == "-" then 0 - NatValue(digits) else NatValue(digits) as int;
            && Stoi(blanks + sign + digits + junk) == (if -2147483648 <= n <= 2147483647 then Some(n) else None)
            && Stoll(blanks + sign + digits + junk) ==
                 (if -9223372036854775808 <= n <= 9223372036854775807 then Some(n) else None)
  {
    hide NatValue, LeadingInt;
    LeadingIntReads(blanks, sign, digits, junk);
  }

  /** Without a digit after blanks and sign there is no number. */
  lemma StoiNeedsDigits(blanks: string, sign: string, junk: string)
    requires AllBlank(blanks) && sign in {"", "+", "-"} && (junk != [] ==> !IsDigit(junk[0]))
    requires sign == "" && junk != [] ==> !AllBlank([junk[0]]) && junk[0] != '+' && junk[0] != '-'
    ensures Stoi(blanks + sign + junk) == None && Stoll(blanks + sign + junk) == None
  {
    hide LeadingInt;
    LeadingIntReads(blanks, sign, "", junk);
    assert blanks + sign + "" + junk == blanks + sign + junk;
  }

  /** A strict number is an optional minus sign and at least one digit. */
  lemma IntOfIff(s: string)
    ensures IntOf(s).Some? <==> (s != "" && AllDigits(s)) || (|s| >= 2 && s[0] == '-' && AllDigits(s[1..]))
  {
    hide NatValue;
    assert s != "" && s[0] == '-' ==> !IsDigit(s[0]);
  }
}
