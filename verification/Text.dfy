/** The string helpers the parsers share: trimming, joining, searching. */
module Text {

  predicate Space(c: char) {
    c == ' ' || c == '\t' || c == '\n' || c == '\r' || c == (11 as char) || c == (12 as char)
  }

  function TrimLeft(s: string): (t: string)
    ensures t == [] || !Space(t[0])
  {
    if s != [] && Space(s[0]) then TrimLeft(s[1..]) else s
  }

  function TrimRight(s: string): (t: string)
    ensures t == [] || !Space(t[|t| - 1])
    ensures t <= s
  {
    if s != [] && Space(s[|s| - 1]) then TrimRight(s[..|s| - 1]) else s
  }

  /** strings.TrimSpace */
  function Trim(s: string): (t: string)
    ensures t == [] || (!Space(t[0]) && !Space(t[|t| - 1]))
  {
    var l := TrimLeft(s);
    var t := TrimRight(l);
    assert t != [] ==> t[0] == l[0];
    t
  }

  predicate Trimmed(s: string) {
    s == [] || (!Space(s[0]) && !Space(s[|s| - 1]))
  }

  lemma TrimmedStays(s: string)
    requires Trimmed(s)
    ensures Trim(s) == s
  {
  }

  /** A line of white space only. */
  predicate Blank(s: string) {
    Trim(s) == []
  }

  predicate HasPrefix(s: string, prefix: string) {
    prefix <= s
  }

  function Join(parts: seq<string>, separator: string): string {
    if parts == [] then [] else if |parts| == 1 then parts[0] else parts[0] + separator + Join(parts[1..], separator)
  }

  /** The first index of `c`, or the length. */
  function IndexOf(s: string, c: char): (i: nat)
    ensures i <= |s| && (i < |s| ==> s[i] == c) && forall j :: 0 <= j < i ==> s[j] != c
  {
    if s == [] || s[0] == c then 0 else 1 + IndexOf(s[1..], c)
  }

  /** strconv's decimal digits. */
  function Decimal(n: nat): (s: string)
    ensures s != [] && forall i :: 0 <= i < |s| ==> '0' <= s[i] <= '9'
  {
    if n < 10 then [Digit(n)] else Decimal(n / 10) + [Digit(n % 10)]
  }

  function Digit(d: nat): (c: char)
    requires d < 10
    ensures '0' <= c <= '9' && c as int == '0' as int + d
  {
    ('0' as int + d) as char
  }

  const MAX_INT64: nat := 0x7FFF_FFFF_FFFF_FFFF

  predicate IsDigit(c: char) {
    '0' <= c <= '9'
  }

  function NumberOf(digits: string): nat
    requires forall i :: 0 <= i < |digits| ==> IsDigit(digits[i])
  {
    if digits == [] then 0
    else
      assert IsDigit(digits[|digits| - 1]);
      NumberOf(digits[..|digits| - 1]) * 10 + (digits[|digits| - 1] as int - '0' as int)
  }

  lemma {:induction false} NumberOfDecimal(n: nat)
    ensures forall i :: 0 <= i < |Decimal(n)| ==> IsDigit(Decimal(n)[i])
    ensures NumberOf(Decimal(n)) == n
  {
    if n < 10 {
      assert NumberOf([]) == 0;
      assert Decimal(n)[..0] == [];
    } else {
      NumberOfDecimal(n / 10);
      assert Decimal(n)[..|Decimal(n)| - 1] == Decimal(n / 10);
    }
  }

  /** strings.ToLower, for ASCII letters. */
  function LowerChar(c: char): char {
    if 'A' <= c <= 'Z' then (c as int + 32) as char else c
  }

  function Lower(s: string): (t: string)
    ensures |t| == |s|
  {
    seq(|s|, i requires 0 <= i < |s| => LowerChar(s[i]))
  }

  lemma LowerJoin(a: string, b: string)
    ensures Lower(a + b) == Lower(a) + Lower(b)
  {
  }

  /** Trimming removes white space put after a trimmed text. */
  lemma {:induction false} TrimPadded(core: string, pad: string)
    requires core != [] && Trimmed(core) && forall i :: 0 <= i < |pad| ==> Space(pad[i])
    ensures Trim(core + pad) == core
  {
    assert TrimLeft(core + pad) == core + pad;
    TrimRightPadded(core, pad);
  }

  lemma {:induction false} TrimRightPadded(core: string, pad: string)
    requires core != [] && Trimmed(core) && forall i :: 0 <= i < |pad| ==> Space(pad[i])
    ensures TrimRight(core + pad) == core
  {
    if pad == [] {
      assert core + pad == core;
    } else {
      assert (core + pad)[..|core + pad| - 1] == core + pad[..|pad| - 1];
      TrimRightPadded(core, pad[..|pad| - 1]);
    }
  }

  lemma {:induction false} IndexOfFirst(a: string, b: string, c: char)
    requires c !in a
    ensures IndexOf(a + [c] + b, c) == |a|
  {
    if a != [] {
      assert (a + [c] + b)[1..] == a[1..] + [c] + b;
      IndexOfFirst(a[1..], b, c);
    }
  }
}
