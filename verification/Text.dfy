/** Strings as the operator uses them: decimal printing, trimming, searching and joining. */
module Text {
  datatype Option<+T> = None | Some(value: T)

  /** Every element of `s` satisfies `p`. */
  ghost predicate All<T>(s: seq<T>, p: T -> bool) {
    forall i :: 0 <= i < |s| ==> p(s[i])
  }

  predicate IsDigit(c: char) {
    '0' <= c <= '9'
  }

  /** The white space that Go's strings.TrimSpace removes. */
  predicate IsSpace(c: char) {
    || '\t' <= c <= '\r' || c == ' ' || c == '\U{85}' || c == '\U{A0}' || c == '\U{1680}'
    || '\U{2000}' <= c <= '\U{200A}' || c == '\U{2028}' || c == '\U{2029}' || c == '\U{202F}'
    || c == '\U{205F}' || c == '\U{3000}'
  }

  /** The position of the first occurrence of `sub` in `s`. */
  function Index(s: string, sub: string): (at: Option<nat>)
    ensures at.Some? ==> at.value <= |s| && sub <= s[at.value..]
    ensures at.Some? ==> forall j :: 0 <= j < at.value ==> !(sub <= s[j..])
    ensures at.None? ==> forall j :: 0 <= j <= |s| ==> !(sub <= s[j..])
  {
    if sub <= s then
      assert s == s[0..];
      Some(0)
    else if s == [] then
      None
    else
      assert forall j :: 0 < j <= |s| ==> s[j..] == s[1..][j - 1..];
      match Index(s[1..], sub)
      case Some(at) => Some(at + 1)
      case None => None
  }

  predicate Contains(s: string, sub: string) {
    Index(s, sub).Some?
  }

  function TrimLeft(s: string, drop: char -> bool): (t: string)
    ensures |t| <= |s| && t == s[|s| - |t|..]
    ensures t != [] ==> !drop(t[0])
    ensures forall i :: 0 <= i < |s| - |t| ==> drop(s[i])
  {
    if s != [] && drop(s[0]) then TrimLeft(s[1..], drop) else s
  }

  function TrimRight(s: string, drop: char -> bool): (t: string)
    ensures t <= s
    ensures t != [] ==> !drop(t[|t| - 1])
    ensures forall i :: |t| <= i < |s| ==> drop(s[i])
  {
    if s != [] && drop(s[|s| - 1]) then TrimRight(s[..|s| - 1], drop) else s
  }

  /** strings.TrimFunc: removes a maximal run of dropped characters at both ends. */
  function Trim(s: string, drop: char -> bool): (t: string)
    ensures t != [] ==> !drop(t[0]) && !drop(t[|t| - 1])
  {
    TrimRight(TrimLeft(s, drop), drop)
  }

  function TrimSpace(s: string): string {
    Trim(s, IsSpace)
  }

  /** A string that keeps both its ends is not trimmed. */
  lemma TrimKeeps(s: string, drop: char -> bool)
    requires s == [] || (!drop(s[0]) && !drop(s[|s| - 1]))
    ensures Trim(s, drop) == s
  {}

  function Join(parts: seq<string>, separator: string): string {
    if parts == [] then "" else if |parts| == 1 then parts[0] else parts[0] + separator + Join(parts[1..], separator)
  }

  function Concat(parts: seq<string>): string {
    if parts == [] then "" else Concat(parts[..|parts| - 1]) + parts[|parts| - 1]
  }

  function Digit(n: nat): (c: char)
    requires n < 10
    ensures IsDigit(c)
  {
    "0123456789"[n]
  }

  function DecimalNat(n: nat): (s: string)
    ensures s != [] && forall i :: 0 <= i < |s| ==> IsDigit(s[i])
  {
    if n < 10 then [Digit(n)] else DecimalNat(n / 10) + [Digit(n % 10)]
  }

  /** strconv.Itoa and the %d verb. */
  function Decimal(n: int): string {
    if n < 0 then "-" + DecimalNat(-n) else DecimalNat(n)
  }

  lemma DecimalNatInjective(a: nat, b: nat)
    requires DecimalNat(a) == DecimalNat(b)
    ensures a == b
  {
    var s := DecimalNat(a);
    assert s[|s| - 1] == Digit(a % 10) == Digit(b % 10);
    assert "0123456789"[a % 10] == "0123456789"[b % 10] && a % 10 == b % 10;
    assert |s| == 1 <==> a < 10;
    assert |s| == 1 <==> b < 10;
    if a >= 10 {
      assert DecimalNat(a / 10) == s[..|s| - 1] == DecimalNat(b / 10);
      DecimalNatInjective(a / 10, b / 10);
    }
  }

  /** Two strings of plain characters followed by the same kind of stop agree piecewise. */
  lemma {:induction false} SplitAtStop(a: string, b: string, restA: string, restB: string, plain: char -> bool)
    requires All(a, plain) && All(b, plain)
    requires restA == [] || !plain(restA[0])
    requires restB == [] || !plain(restB[0])
    requires a + restA == b + restB
    ensures a == b && restA == restB
  {
    var s, t := a + restA, b + restB;
    assert if a == [] then s == restA else s[0] == a[0];
    assert if b == [] then t == restB else t[0] == b[0];
    if a != [] && b != [] {
      assert s[1..] == a[1..] + restA && t[1..] == b[1..] + restB;
      SplitAtStop(a[1..], b[1..], restA, restB, plain);
    }
  }

  lemma DecimalNatDashInjective(a: nat, b: nat, restA: string, restB: string)
    requires DecimalNat(a) + ("-" + restA) == DecimalNat(b) + ("-" + restB)
    ensures a == b && restA == restB
  {
    SplitAtStop(DecimalNat(a), DecimalNat(b), "-" + restA, "-" + restB, IsDigit);
    assert restA == ("-" + restA)[1..] && restB == ("-" + restB)[1..];
    DecimalNatInjective(a, b);
  }

  lemma DecimalSign(n: int)
    ensures Decimal(n) != "" && (Decimal(n)[0] == '-' <==> n < 0)
    ensures if n < 0 then Decimal(n)[1..] == DecimalNat(-n) else Decimal(n) == DecimalNat(n)
  {}

  /** A printed number followed by a dash can be read back. */
  lemma DecimalDashInjective(a: int, b: int, restA: string, restB: string)
    requires Decimal(a) + ("-" + restA) == Decimal(b) + ("-" + restB)
    ensures a == b && restA == restB
  {
    DecimalSign(a);
    DecimalSign(b);
    FirstAndRest(Decimal(a), "-" + restA);
    FirstAndRest(Decimal(b), "-" + restB);
    hide DecimalNat, Decimal;
    if a < 0 {
      DecimalNatDashInjective(-a, -b, restA, restB);
    } else {
      DecimalNatDashInjective(a, b, restA, restB);
    }
  }

  lemma FirstAndRest(s: string, t: string)
    requires s != ""
    ensures (s + t)[0] == s[0] && (s + t)[1..] == s[1..] + t
  {}

  /** strings.ToLower on ASCII letters. */
  function LowerChar(c: char): char {
    if 'A' <= c <= 'Z' then (c as int - 'A' as int + 'a' as int) as char else c
  }

  function Lower(s: string): (t: string)
    ensures |t| == |s| && forall i :: 0 <= i < |s| ==> t[i] == LowerChar(s[i])
  {
    seq(|s|, i requires 0 <= i < |s| => LowerChar(s[i]))
  }

  lemma LowerConcat(a: string, b: string)
    ensures Lower(a + b) == Lower(a) + Lower(b)
  {}

  /** Digits and dashes have no case. */
  lemma LowerDecimal(n: int)
    ensures Lower(Decimal(n)) == Decimal(n)
  {}
}
