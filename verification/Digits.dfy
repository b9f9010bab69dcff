/**
  Boot counters as the environment stores them: text that one tool increments in hexadecimal and
  another compares in decimal.
 */
module Digits {

  predicate IsDec(c: char) {
    '0' <= c <= '9'
  }

  predicate IsHex(c: char) {
    IsDec(c) || 'a' <= c <= 'f' || 'A' <= c <= 'F'
  }

  predicate AllDec(s: string) {
    forall i :: 0 <= i < |s| ==> IsDec(s[i])
  }

  predicate AllHex(s: string) {
    forall i :: 0 <= i < |s| ==> IsHex(s[i])
  }

  function Value(c: char): (v: nat)
    requires IsHex(c)
    ensures v < 16 && (IsDec(c) <==> v < 10)
  {
    if IsDec(c) then c as int - '0' as int
    else if 'a' <= c then c as int - 'a' as int + 10
    else c as int - 'A' as int + 10
  }

  function Digit(d: nat): (c: char)
    requires d < 16
    ensures IsHex(c) && Value(c) == d
  {
    if d < 10 then '0' + d as char else 'a' + (d - 10) as char
  }

  function DecVal(s: string): nat
    requires AllDec(s)
  {
    if s == "" then 0 else 10 * DecVal(s[..|s| - 1]) + Value(s[|s| - 1])
  }

  function HexVal(s: string): nat
    requires AllHex(s)
  {
    if s == "" then 0 else 16 * HexVal(s[..|s| - 1]) + Value(s[|s| - 1])
  }

  function HexText(n: nat): string {
    if n < 16 then [Digit(n)] else HexText(n / 16) + [Digit(n % 16)]
  }

  function DecText(n: nat): string {
    if n < 10 then [Digit(n)] else DecText(n / 10) + [Digit(n % 10)]
  }

  /** What a decimal reader makes of `s`: the value of its leading decimal digits. */
  function DecRead(s: string): nat
    decreases |s|
  {
    if AllDec(s) then DecVal(s) else DecRead(s[..|s| - 1])
  }

  /** What a hexadecimal reader makes of `s`. */
  function HexRead(s: string): nat
    decreases |s|
  {
    if AllHex(s) then HexVal(s) else HexRead(s[..|s| - 1])
  }

  function Space(c: char): bool {
    c == ' ' || '\t' <= c <= '\r'
  }

  function Strip(s: string): string
    decreases |s|
  {
    if s != "" && Space(s[0]) then Strip(s[1..])
    else if s != "" && Space(s[|s| - 1]) then Strip(s[..|s| - 1])
    else s
  }

  lemma {:induction false} StripDigits(s: string)
    requires AllDec(s)
    ensures Strip(s) == s
  {
  }

  lemma {:induction false} DecTextReads(n: nat)
    ensures AllDec(DecText(n)) && DecText(n) != "" && DecVal(DecText(n)) == n
  {
    var s := DecText(n);
    if n < 10 {
      assert s[..0] == "" && DecVal("") == 0;
    } else {
      DecTextReads(n / 10);
      assert s[..|s| - 1] == DecText(n / 10);
    }
  }

  /** Hexadecimal text without the lone zero. */
  function Lead(h: nat): string {
    if h == 0 then "" else HexText(h)
  }

  lemma HexTextNext(h: nat, d: nat)
    requires d < 16
    ensures HexText(16 * h + d) == Lead(h) + [Digit(d)]
  {
    var n := 16 * h + d;
    assert n / 16 == h && n % 16 == d;
  }

  lemma DecReadLast(s: string, d: nat)
    requires AllDec(s) && d < 16
    ensures DecRead(s + [Digit(d)]) == if d < 10 then 10 * DecVal(s) + d else DecVal(s)
    ensures d < 10 ==> AllDec(s + [Digit(d)])
  {
    var t := s + [Digit(d)];
    assert t[..|s|] == s;
    assert !IsDec(Digit(d)) ==> !IsDec(t[|s|]);
  }

  /** Decimal digits read as hexadecimal and printed again are the same decimal number. */
  lemma {:induction false} HexKeepsDecimal(s: string)
    requires AllDec(s)
    ensures AllHex(s)
    ensures var t := Lead(HexVal(s)); AllDec(t) && DecVal(t) == DecVal(s)
  {
    if s != "" {
      HexKeepsDecimal(s[..|s| - 1]);
      KeepsNext(HexVal(s[..|s| - 1]), Value(s[|s| - 1]));
    }
  }

  lemma KeepsNext(h: nat, d: nat)
    requires AllDec(Lead(h)) && d < 10
    ensures var t := Lead(16 * h + d); AllDec(t) && DecVal(t) == 10 * DecVal(Lead(h)) + d
  {
    if h > 0 || d > 0 {
      HexTextNext(h, d);
      DecReadLast(Lead(h), d);
    }
  }

  /** The number a decimal reader sees after a hexadecimal increment of `n`. */
  function Stepped(n: nat): nat {
    if n % 10 == 9 then n / 10 else n + 1
  }

  /** A hexadecimal increment of decimal digits, read in decimal, loses a digit after a 9. */
  lemma IncrementReads(s: string) returns (t: string)
    requires AllDec(s) && s != ""
    ensures AllHex(s) && t == HexText(HexVal(s) + 1) && DecRead(t) == Stepped(DecVal(s))
  {
    var lead, d, n;
    lead, d, n, t := IncrementText(s);
    IncrementDigit(lead, d, n, t);
  }

  lemma IncrementText(s: string) returns (lead: string, d: nat, n: nat, t: string)
    requires AllDec(s) && s != ""
    ensures AllHex(s) && t == HexText(HexVal(s) + 1) && d < 10 && t == lead + [Digit(d + 1)]
    ensures AllDec(lead) && DecVal(lead) == n && DecVal(s) == 10 * n + d
  {
    var u := s[..|s| - 1];
    d, n := Value(s[|s| - 1]), DecVal(u);
    HexKeepsDecimal(u);
    lead, t := Lead(HexVal(u)), HexText(HexVal(s) + 1);
    HexTextNext(HexVal(u), d + 1);
  }

  lemma IncrementDigit(lead: string, d: nat, n: nat, t: string)
    requires AllDec(lead) && DecVal(lead) == n && d < 10 && t == lead + [Digit(d + 1)]
    ensures DecRead(t) == Stepped(10 * n + d)
  {
    DecReadLast(lead, d + 1);
  }

  lemma HexTextIsZeroIff(n: nat)
    ensures HexText(n) == "0" <==> n == 0
  {
    if n >= 16 {
      assert |HexText(n / 16)| >= 1;
    }
  }
}
