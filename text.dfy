/** The pieces of Python's `str` behaviour that the server relies on:
    whitespace, `strip`, `split(None, 1)`, `split(c)[0]`, `lower`, `in`, `join` and `str(int)`. */
module Text {

  /** Python's `str.isspace()` on one character; a `\s` in a str pattern matches the same set. */
  predicate IsSpace(c: char) {
    c in Whitespace
  }

  const Whitespace: set<char> :=
    {' ', '\t', '\n', '\U{000B}', '\U{000C}', '\r', '\U{001C}', '\U{001D}', '\U{001E}', '\U{001F}', '\U{0085}', '\U{00A0}',
     '\U{1680}', '\U{2000}', '\U{2001}', '\U{2002}', '\U{2003}', '\U{2004}', '\U{2005}', '\U{2006}', '\U{2007}', '\U{2008}',
     '\U{2009}', '\U{200A}', '\U{2028}', '\U{2029}', '\U{202F}', '\U{205F}', '\U{3000}'}

  /** `not s.strip()`: the text holds nothing but whitespace. */
  predicate IsBlank(s: string) {
    forall i :: 0 <= i < |s| ==> IsSpace(s[i])
  }

  /** No whitespace at either end, the shape of everything `strip()` returns. */
  predicate IsStripped(s: string) {
    |s| == 0 || (!IsSpace(s[0]) && !IsSpace(s[|s| - 1]))
  }

  /** `sub` occurs in `s` at offset `i`. */
  predicate OccursAt(s: string, sub: string, i: int) {
    0 <= i && i + |sub| <= |s| && s[i..i + |sub|] == sub
  }

  function StartsWith(s: string, prefix: string): bool {
    |prefix| <= |s| && s[..|prefix|] == prefix
  }

  /** Number of whitespace characters at the front of `s`. */
  function LeadingSpaces(s: string): (k: nat)
    ensures k <= |s|
    ensures IsBlank(s[..k])
    ensures k < |s| ==> !IsSpace(s[k])
  {
    if |s| == 0 || !IsSpace(s[0]) then 0
    else
      1 + LeadingSpaces(s[1..])
  }

  /** Length of `s` once its trailing whitespace is removed. */
  function TrailingStart(s: string): (k: nat)
    ensures k <= |s|
    ensures IsBlank(s[k..])
    ensures k > 0 ==> !IsSpace(s[k - 1])
  {
    if |s| == 0 || !IsSpace(s[|s| - 1]) then |s|
    else
      var k := TrailingStart(s[..|s| - 1]);
      assert forall i :: 0 <= i < |s| - k ==> s[k..][i] == (if i < |s| - 1 - k then s[..|s| - 1][k..][i] else s[|s| - 1]);
      k
  }

  /** Python's `lstrip()`. */
  function LStrip(s: string): string {
    s[LeadingSpaces(s)..]
  }

  /** Python's `strip()`: what is left is the part of `s` between a blank head and a blank tail. */
  function Strip(s: string): (r: string)
    ensures IsStripped(r)
    ensures LeadingSpaces(s) + |r| <= |s|
    ensures r == s[LeadingSpaces(s)..LeadingSpaces(s) + |r|]
    ensures IsBlank(s[..LeadingSpaces(s)]) && IsBlank(s[LeadingSpaces(s) + |r|..])
  {
    var a := LeadingSpaces(s);
    var t := s[a..];
    var k := TrailingStart(t);
    assert t[k..] == s[a + k..];
    t[..k]
  }

  lemma StripBlank(s: string)
    ensures Strip(s) == [] <==> IsBlank(s)
  {
    if Strip(s) != [] {
      assert Strip(s)[0] == s[LeadingSpaces(s)];
    }
  }

  /** `strip()` leaves an already stripped text alone. */
  lemma StripStripped(s: string)
    requires IsStripped(s)
    ensures Strip(s) == s
  {
    if |s| > 0 {
      assert LeadingSpaces(s) == 0;
    }
  }

  /** What `strip()` keeps is the piece of `s` after its leading whitespace. */
  lemma StripPiece(s: string)
    ensures OccursAt(s, Strip(s), LeadingSpaces(s))
  {
  }

  /** A character missing from `s` is missing from every piece of it. */
  lemma NotInPiece(s: string, sub: string, i: int, c: char)
    requires OccursAt(s, sub, i) && c !in s
    ensures c !in sub
  {
  }

  /** `a` inside `b` inside `c` puts `a` inside `c`. */
  lemma InfixTransitive(a: string, b: string, c: string, i: int, j: int)
    requires OccursAt(b, a, i) && OccursAt(c, b, j)
    ensures OccursAt(c, a, j + i)
  {
    forall k | 0 <= k < |a| ensures c[j + i..j + i + |a|][k] == a[k] {
      assert a[k] == b[i + k] == c[j + i + k];
    }
  }

  /** Python's `sub in s`, searching left to right. */
  function Contains(s: string, sub: string): bool
    decreases |s|
  {
    if |sub| > |s| then false
    else if s[..|sub|] == sub then true
    else Contains(s[1..], sub)
  }

  /** The search finds `sub` exactly when it occurs somewhere. */
  lemma {:induction false} ContainsOccurs(s: string, sub: string)
    ensures Contains(s, sub) <==> exists i :: OccursAt(s, sub, i)
    decreases |s|
  {
    if |sub| > |s| {
    } else if s[..|sub|] == sub {
      assert OccursAt(s, sub, 0);
    } else {
      ContainsOccurs(s[1..], sub);
      if Contains(s, sub) {
        var i :| OccursAt(s[1..], sub, i);
        assert s[1..][i..i + |sub|] == s[i + 1..i + 1 + |sub|];
        assert OccursAt(s, sub, i + 1);
      }
      if exists i :: OccursAt(s, sub, i) {
        var i :| OccursAt(s, sub, i);
        assert i != 0;
        assert s[1..][i - 1..i - 1 + |sub|] == s[i..i + |sub|];
        assert OccursAt(s[1..], sub, i - 1);
      }
    }
  }

  /** `s.split(c)[0]`: everything before the first `c`. */
  function BeforeFirst(s: string, c: char): (r: string)
    ensures c !in r && r <= s
    ensures c in s ==> |r| < |s| && s[|r|] == c
    ensures c !in s ==> r == s
  {
    if |s| == 0 then []
    else if s[0] == c then []
    else [s[0]] + BeforeFirst(s[1..], c)
  }

  /** Length of the longest prefix of `s` free of whitespace. */
  function WordLength(s: string): (k: nat)
    ensures k <= |s|
    ensures forall i :: 0 <= i < k ==> !IsSpace(s[i])
    ensures k < |s| ==> IsSpace(s[k])
  {
    if |s| == 0 || IsSpace(s[0]) then 0 else 1 + WordLength(s[1..])
  }

  /** Python's `s.split(None, 1)`: the first whitespace-separated word and, when
      anything but whitespace follows it, the rest with its leading whitespace removed. */
  function SplitOnce(s: string): (parts: seq<string>)
    ensures |parts| <= 2
    ensures parts == [] <==> IsBlank(s)
    ensures |parts| >= 1 ==> IsWord(parts[0]) && parts[0] <= LStrip(s)
    ensures |parts| == 2 ==> parts[1] != [] && !IsSpace(parts[1][0])
    ensures |parts| == 2 ==> OccursAt(s, parts[1], |s| - |parts[1]|)
  {
    var t := LStrip(s);
    if t == [] then
      BlankStrip(s);
      []
    else
      var k := WordLength(t);
      var u := t[k..];
      var rest := u[LeadingSpaces(u)..];
      FirstWord(s, t, k, u, rest);
      if rest == [] then [t[..k]] else [t[..k], rest]
  }

  /** `w` is non-empty and holds no whitespace. */
  predicate IsWord(w: string) {
    w != [] && forall i :: 0 <= i < |w| ==> !IsSpace(w[i])
  }

  /** After the leading whitespace of a text that is not blank comes a word, and
      what follows that word and its own whitespace is a suffix of the text. */
  lemma FirstWord(s: string, t: string, k: nat, u: string, rest: string)
    requires t == LStrip(s) && t != [] && k == WordLength(t) && u == t[k..] && rest == u[LeadingSpaces(u)..]
    ensures !IsBlank(s) && IsWord(t[..k]) && t[..k] <= t
    ensures OccursAt(s, rest, |s| - |rest|) && (rest != [] ==> !IsSpace(rest[0]))
  {
    assert !IsBlank(s) by { assert t[0] == s[LeadingSpaces(s)]; }
    assert IsWord(t[..k]) by { assert forall i :: 0 <= i < k ==> t[..k][i] == t[i]; }
    RestOccurs(s, t, k, u, rest);
  }

  /** What follows the first word and its whitespace is a suffix of the text. */
  lemma RestOccurs(s: string, t: string, k: nat, u: string, rest: string)
    requires t == LStrip(s) && k <= |t| && u == t[k..] && rest == u[LeadingSpaces(u)..]
    ensures OccursAt(s, rest, |s| - |rest|)
  {
    var i := LeadingSpaces(s) + k + LeadingSpaces(u);
    assert rest == s[i..];
    SuffixOccurs(s, i);
  }

  /** A text with nothing left after its leading whitespace is blank. */
  lemma BlankStrip(s: string)
    requires LStrip(s) == []
    ensures IsBlank(s)
  {
    assert s[..LeadingSpaces(s)] == s;
  }

  /** Every suffix of `s` occurs at the end of `s`. */
  lemma SuffixOccurs(s: string, i: nat)
    requires i <= |s|
    ensures OccursAt(s, s[i..], |s| - |s[i..]|)
  {
    assert s[i..][..] == s[i..|s|];
  }

  function LowerChar(c: char): char {
    if 'A' <= c <= 'Z' then (c as int + 32) as char else c
  }

  /** Python's `lower()` on the ASCII letters. */
  function Lower(s: string): (r: string)
    ensures |r| == |s|
    ensures forall i :: 0 <= i < |s| ==> r[i] == LowerChar(s[i])
  {
    seq(|s|, i requires 0 <= i < |s| => LowerChar(s[i]))
  }

  /** Python's `sep.join(parts)`. */
  function Join(parts: seq<string>, sep: string): string {
    if |parts| == 0 then []
    else if |parts| == 1 then parts[0]
    else parts[0] + sep + Join(parts[1..], sep)
  }

  function DigitChar(d: nat): char
    requires d < 10
  {
    "0123456789"[d]
  }

  function NatToString(n: nat): string {
    if n < 10 then [DigitChar(n)] else NatToString(n / 10) + [DigitChar(n % 10)]
  }

  /** Python's `str(n)` for an integer. */
  function IntToString(n: int): string {
    if n < 0 then "-" + NatToString(-n) else NatToString(n)
  }
}
