/** The few pieces of Python's str behaviour the core relies on:
    str(int) inside an f-string, str.replace with an empty replacement,
    and str.strip with and without an argument. */
module PyText {
  import opened Values

  function DigitChar(d: nat): (c: char)
    requires d < 10
    ensures '0' <= c <= '9'
  {
    (('0' as int) + d) as char
  }

  function DigitValue(c: char): (d: Option<nat>)
    ensures d.Some? <==> '0' <= c <= '9'
    ensures d.Some? ==> d.value < 10
  {
    if '0' <= c <= '9' then Some(c as int - '0' as int) else None
  }

  /** Decimal digits of n without leading zeros, as str(n) writes them. */
  function NatToString(n: nat): (s: string)
    ensures |s| >= 1
    ensures forall k :: 0 <= k < |s| ==> '0' <= s[k] <= '9'
    ensures n == 0 <==> s == "0"
    ensures n > 0 ==> s[0] != '0'
    decreases n
  {
    if n < 10 then [DigitChar(n)] else NatToString(n / 10) + [DigitChar(n % 10)]
  }

  /** str(i) for a Python int: a minus sign before the digits when negative. */
  function IntToString(i: int): string {
    if i < 0 then "-" + NatToString(-i) else NatToString(i)
  }

  /** Reads a non-empty run of decimal digits; the partner of NatToString. */
  function ParseNat(s: string): Option<nat>
    decreases |s|
  {
    if |s| == 0 then None
    else
      var d := DigitValue(s[|s| - 1]);
      if d.None? then None
      else if |s| == 1 then d
      else match ParseNat(s[..|s| - 1])
        case None => None
        case Some(v) => Some(10 * v + d.value)
  }

  function Negated(n: Option<nat>): Option<int> {
    match n
    case None => None
    case Some(v) => Some(-(v as int))
  }

  function Widened(n: Option<nat>): Option<int> {
    match n
    case None => None
    case Some(v) => Some(v as int)
  }

  /** int(s) restricted to an optional minus sign and digits. */
  function ParseInt(s: string): Option<int> {
    if |s| > 0 && s[0] == '-' then Negated(ParseNat(s[1..])) else Widened(ParseNat(s))
  }

  lemma {:induction false} ParseNatToString(n: nat)
    ensures ParseNat(NatToString(n)) == Some(n)
    decreases n
  {
    if n >= 10 {
      var s := NatToString(n);
      assert s[..|s| - 1] == NatToString(n / 10);
      ParseNatToString(n / 10);
    }
  }

  /** The digits of n read back as n, even behind a minus sign. */
  lemma SignedRoundTrip(n: nat)
    ensures ParseInt(NatToString(n)) == Some(n)
    ensures ParseInt("-" + NatToString(n)) == Some(-(n as int))
  {
    var t := NatToString(n);
    ParseNatToString(n);
    assert t[0] != '-';
    assert ParseInt(t) == Widened(ParseNat(t));
    var s := "-" + t;
    assert s[1..] == t;
    assert ParseInt(s) == Negated(ParseNat(t));
  }

  /** Writing an int and reading it back gives the same int. */
  lemma IntToStringRoundTrip(i: int)
    ensures ParseInt(IntToString(i)) == Some(i)
  {
    if i < 0 {
      SignedRoundTrip(-i);
    } else {
      SignedRoundTrip(i);
    }
  }

  /** s.replace(c, "") for a one-character c: every occurrence removed. */
  function RemoveAll(s: string, c: char): (r: string)
    ensures c !in r
    ensures |r| <= |s|
    ensures forall x :: x in r <==> x in s && x != c
    decreases |s|
  {
    if |s| == 0 then ""
    else if s[0] == c then RemoveAll(s[1..], c)
    else [s[0]] + RemoveAll(s[1..], c)
  }

  /** Removal works piece by piece: the characters that stay keep their
      order and their number. */
  lemma {:induction false} RemoveAllAppend(a: string, b: string, c: char)
    ensures RemoveAll(a + b, c) == RemoveAll(a, c) + RemoveAll(b, c)
    decreases |a|
  {
    if |a| == 0 {
      assert a + b == b;
    } else {
      assert (a + b)[1..] == a[1..] + b;
      RemoveAllAppend(a[1..], b, c);
    }
  }

  /** A string without the character comes back unchanged. */
  lemma {:induction false} RemoveAllAbsent(s: string, c: char)
    requires c !in s
    ensures RemoveAll(s, c) == s
    decreases |s|
  {
    if |s| > 0 {
      RemoveAllAbsent(s[1..], c);
    }
  }

  /** The characters Python's str.isspace() accepts, which str.strip()
      with no argument removes. */
  predicate IsPySpace(c: char) {
    ('\U{0009}' <= c <= '\U{000D}') || ('\U{001C}' <= c <= '\U{0020}') ||
    c == '\U{0085}' || c == '\U{00A0}' || c == '\U{1680}' ||
    ('\U{2000}' <= c <= '\U{200A}') || c == '\U{2028}' || c == '\U{2029}' ||
    c == '\U{202F}' || c == '\U{205F}' || c == '\U{3000}'
  }

  /** How many leading characters of s pass p. */
  function LeadingCount(s: string, p: char -> bool): (n: nat)
    ensures n <= |s|
    ensures forall k :: 0 <= k < n ==> p(s[k])
    ensures n < |s| ==> !p(s[n])
    decreases |s|
  {
    if |s| == 0 || !p(s[0]) then 0 else 1 + LeadingCount(s[1..], p)
  }

  /** How many trailing characters of s pass p. */
  function TrailingCount(s: string, p: char -> bool): (n: nat)
    ensures n <= |s|
    ensures forall k :: |s| - n <= k < |s| ==> p(s[k])
    ensures n < |s| ==> !p(s[|s| - 1 - n])
    decreases |s|
  {
    if |s| == 0 || !p(s[|s| - 1]) then 0 else 1 + TrailingCount(s[..|s| - 1], p)
  }

  /** str.strip: drop leading, then trailing, characters that pass p. */
  function Strip(s: string, p: char -> bool): string {
    var t := s[LeadingCount(s, p)..];
    t[..|t| - TrailingCount(t, p)]
  }

  predicate IsDoubleQuote(c: char) { c == '"' }
  predicate IsSingleQuote(c: char) { c == '\'' }

  /** Strip removes exactly a maximal run of p-characters at each end:
      s is what it removed in front, the result, and what it removed
      behind, and the result neither starts nor ends with a p-character. */
  lemma StripShape(s: string, p: char -> bool)
    ensures var r := Strip(s, p);
      exists i, j :: 0 <= i <= j <= |s| && r == s[i..j] &&
        (forall k :: 0 <= k < i ==> p(s[k])) &&
        (forall k :: j <= k < |s| ==> p(s[k]))
    ensures var r := Strip(s, p);
      r == [] || (!p(r[0]) && !p(r[|r| - 1]))
  {
    var i := LeadingCount(s, p);
    var t := s[i..];
    var j := i + |t| - TrailingCount(t, p);
    assert Strip(s, p) == s[i..j];
    assert forall k :: j <= k < |s| ==> s[k] == t[k - i];
  }
}
