/** String helpers standing in for the JavaScript string built-ins the app uses.
    A JavaScript string is modelled as a `seq<char>`. A `char` is a Unicode
    scalar value while JavaScript counts UTF-16 code units, so lengths and
    positions agree for text inside the Basic Multilingual Plane only. */
module Strings {

  /** `s.slice(0, n)` / `s.substring(0, n)` for a non-negative `n`. */
  function Take<T>(s: seq<T>, n: nat): (r: seq<T>)
    ensures |r| == if |s| <= n then |s| else n
    ensures r == s[..|r|]
  {
    if |s| <= n then s else s[..n]
  }

  /** `c.repeat(n)` for a one-character string `c`. */
  function Repeat(c: char, n: nat): (r: string)
    ensures |r| == n
    ensures forall i :: 0 <= i < n ==> r[i] == c
  {
    seq(n, _ => c)
  }

  predicate IsUpper(c: char) { 'A' <= c <= 'Z' }

  predicate IsLower(c: char) { 'a' <= c <= 'z' }

  predicate IsDigit(c: char) { '0' <= c <= '9' }

  /** The class `[a-z0-9]` under the `i` flag: ASCII letters of either case and digits. */
  predicate IsAsciiAlnum(c: char) { IsUpper(c) || IsLower(c) || IsDigit(c) }

  /** `toLowerCase` restricted to ASCII: upper-case letters move down by 32, all else stays. */
  function LowerChar(c: char): (r: char)
    ensures IsUpper(c) ==> IsLower(r) && r as int == c as int + 32
    ensures !IsUpper(c) ==> r == c
  {
    if IsUpper(c) then (c as int + 32) as char else c
  }

  /** `s.toLowerCase()` on ASCII: same length, each character lowered, and no
      upper-case ASCII letter left. */
  function Lower(s: string): (r: string)
    ensures |r| == |s|
    ensures forall i :: 0 <= i < |s| ==> r[i] == LowerChar(s[i])
    ensures forall i :: 0 <= i < |r| ==> !IsUpper(r[i])
  {
    seq(|s|, i requires 0 <= i < |s| => LowerChar(s[i]))
  }

  /** `s.startsWith(p)`. */
  predicate StartsWith(s: string, p: string) {
    |p| <= |s| && s[..|p|] == p
  }

  /** `s.includes(sub)`, by scanning the start positions from left to right. */
  predicate Contains(s: string, sub: string)
    decreases |s|
  {
    StartsWith(s, sub) || (|s| > 0 && Contains(s[1..], sub))
  }

  /** `sub` occurs in `s` starting at position `i`. */
  ghost predicate OccursAt(s: string, sub: string, i: int) {
    0 <= i && i + |sub| <= |s| && s[i..i + |sub|] == sub
  }

  /** An occurrence at any position is found by the scan. */
  lemma {:induction false} OccursAtContains(s: string, sub: string, i: int)
    requires OccursAt(s, sub, i)
    ensures Contains(s, sub)
    decreases i
  {
    if i == 0 {
      assert s[..|sub|] == sub;
    } else {
      assert s[1..][i - 1..i - 1 + |sub|] == s[i..i + |sub|];
      OccursAtContains(s[1..], sub, i - 1);
    }
  }

  /** The scan only succeeds at a real occurrence. */
  lemma {:induction false} ContainsOccurs(s: string, sub: string) returns (i: int)
    requires Contains(s, sub)
    ensures OccursAt(s, sub, i)
    decreases |s|
  {
    if StartsWith(s, sub) {
      i := 0;
    } else {
      var j := ContainsOccurs(s[1..], sub);
      assert s[1..][j..j + |sub|] == s[j + 1..j + 1 + |sub|];
      i := j + 1;
    }
  }

  /** The scanning definition of `Contains` agrees with the positional one. */
  lemma ContainsIff(s: string, sub: string)
    ensures Contains(s, sub) <==> exists i :: OccursAt(s, sub, i)
  {
    if Contains(s, sub) {
      var i := ContainsOccurs(s, sub);
    }
    if exists i :: OccursAt(s, sub, i) {
      var i :| OccursAt(s, sub, i);
      OccursAtContains(s, sub, i);
    }
  }

  /** A string never contains a pattern one of whose characters it lacks. */
  lemma {:induction false} MissingCharNotContained(s: string, sub: string, k: nat)
    requires k < |sub| && sub[k] !in s
    ensures !Contains(s, sub)
    decreases |s|
  {
    assert |sub| <= |s| ==> s[..|sub|][k] == s[k];
    if |s| > 0 {
      MissingCharNotContained(s[1..], sub, k);
    }
  }

  /** `a` is never directly followed by `b` in `s`. */
  ghost predicate NoPair(s: string, a: char, b: char) {
    forall i :: 0 <= i < |s| - 1 ==> !(s[i] == a && s[i + 1] == b)
  }

  /** A string never contains a pattern whose first two characters it never
      has side by side. */
  lemma {:induction false} MissingPairNotContained(s: string, sub: string)
    requires |sub| >= 2 && NoPair(s, sub[0], sub[1])
    ensures !Contains(s, sub)
    decreases |s|
  {
    assert |sub| <= |s| ==> s[..|sub|][0] == s[0] && s[..|sub|][1] == s[1];
    if |s| > 0 {
      MissingPairNotContained(s[1..], sub);
    }
  }

  /** `s.split(' ')[0]`: everything before the first space, or all of `s`. */
  function FirstToken(s: string): (r: string)
    ensures |r| <= |s| && r == s[..|r|]
    ensures forall i :: 0 <= i < |r| ==> r[i] != ' '
    ensures |r| < |s| ==> s[|r|] == ' '
  {
    if |s| == 0 || s[0] == ' ' then "" else [s[0]] + FirstToken(s[1..])
  }

  /** A space-free word followed by text that opens with a space splits back
      into that word. */
  lemma {:induction false} FirstTokenOfJoin(word: string, rest: string)
    requires forall i :: 0 <= i < |word| ==> word[i] != ' '
    requires |rest| > 0 && rest[0] == ' '
    ensures FirstToken(word + rest) == word
    decreases |word|
  {
    if |word| > 0 {
      assert (word + rest)[1..] == word[1..] + rest;
      FirstTokenOfJoin(word[1..], rest);
    }
  }

  /** The characters `String.prototype.trim` removes: the WhiteSpace and
      LineTerminator code points of section 12.2 and 12.3 of ECMA-262, all of
      which lie in the Basic Multilingual Plane. */
  predicate IsWhitespace(c: char) {
    c == '\t' || c == '\n' || c == '\U{000B}' || c == '\U{000C}' || c == '\r' ||
    c == ' ' || c == '\U{00A0}' || c == '\U{1680}' || ('\U{2000}' <= c <= '\U{200A}') ||
    c == '\U{2028}' || c == '\U{2029}' || c == '\U{202F}' || c == '\U{205F}' ||
    c == '\U{3000}' || c == '\U{FEFF}'
  }

  function TrimStart(s: string): (r: string)
    ensures |r| <= |s| && r == s[|s| - |r|..]
    ensures |r| > 0 ==> !IsWhitespace(r[0])
    ensures forall i :: 0 <= i < |s| - |r| ==> IsWhitespace(s[i])
  {
    if |s| > 0 && IsWhitespace(s[0]) then TrimStart(s[1..]) else s
  }

  function TrimEnd(s: string): (r: string)
    ensures |r| <= |s| && r == s[..|r|]
    ensures |r| > 0 ==> !IsWhitespace(r[|r| - 1])
    ensures forall i :: |r| <= i < |s| ==> IsWhitespace(s[i])
  {
    if |s| > 0 && IsWhitespace(s[|s| - 1]) then TrimEnd(s[..|s| - 1]) else s
  }

  /** `s.trim()`. */
  function Trim(s: string): string {
    TrimEnd(TrimStart(s))
  }

  /** `!s.trim()`: the string is empty once trimmed. */
  predicate IsBlank(s: string) {
    Trim(s) == ""
  }

  /** A string is blank exactly when every one of its characters is whitespace. */
  lemma BlankIff(s: string)
    ensures IsBlank(s) <==> forall i :: 0 <= i < |s| ==> IsWhitespace(s[i])
  {
    var t := TrimStart(s);
    if forall i :: 0 <= i < |s| ==> IsWhitespace(s[i]) {
      if |t| > 0 {
        assert t[0] == s[|s| - |t|];
      }
    } else {
      var k :| 0 <= k < |s| && !IsWhitespace(s[k]);
      assert |s| - |t| <= k;
      assert t[k - (|s| - |t|)] == s[k];
    }
  }

  function DigitChar(d: nat): (c: char)
    requires d < 10
    ensures IsDigit(c)
  {
    ['0', '1', '2', '3', '4', '5', '6', '7', '8', '9'][d]
  }

  function DigitValue(c: char): (d: nat)
    requires IsDigit(c)
    ensures d < 10
  {
    c as int - '0' as int
  }

  /** The decimal rendering of a natural number, as a template literal prints it. */
  function NatToString(n: nat): (r: string)
    ensures |r| > 0
    ensures forall i :: 0 <= i < |r| ==> IsDigit(r[i])
  {
    if n < 10 then [DigitChar(n)] else NatToString(n / 10) + [DigitChar(n % 10)]
  }

  /** Reads back a string of decimal digits, most significant first. */
  function ParseNat(s: string): nat
    requires forall i :: 0 <= i < |s| ==> IsDigit(s[i])
  {
    if |s| == 0 then 0 else ParseNat(s[..|s| - 1]) * 10 + DigitValue(s[|s| - 1])
  }

  /** The decimal rendering is read back to the number it renders, so two
      distinct numbers never print the same. */
  lemma {:induction false} ParseNatToString(n: nat)
    ensures ParseNat(NatToString(n)) == n
  {
    var r := NatToString(n);
    if n < 10 {
      assert r[..0] == "";
    } else {
      ParseNatToString(n / 10);
      assert r[..|r| - 1] == NatToString(n / 10);
    }
  }

  lemma NatToStringInjective(a: nat, b: nat)
    requires NatToString(a) == NatToString(b)
    ensures a == b
  {
    ParseNatToString(a);
    ParseNatToString(b);
  }

  /** The pieces joined end to end, as repeated `text += piece` produces them. */
  function Concat(pieces: seq<string>): string {
    if |pieces| == 0 then "" else Concat(pieces[..|pieces| - 1]) + pieces[|pieces| - 1]
  }

  /** Appending one more piece extends the joined text by exactly that piece. */
  lemma ConcatSnoc(pieces: seq<string>, k: nat)
    requires k < |pieces|
    ensures Concat(pieces[..k + 1]) == Concat(pieces[..k]) + pieces[k]
  {
    assert pieces[..k + 1][..k] == pieces[..k];
  }

  /** The pieces appear in order: the first `j` pieces, then piece `j`, start
      the joined text. */
  lemma {:induction false} ConcatPieceInPlace(pieces: seq<string>, j: nat)
    requires j < |pieces|
    ensures StartsWith(Concat(pieces), Concat(pieces[..j]) + pieces[j])
    decreases |pieces|
  {
    var n := |pieces|;
    assert pieces[..n] == pieces;
    if j == n - 1 {
      ConcatSnoc(pieces, j);
    } else {
      var front := pieces[..n - 1];
      ConcatPieceInPlace(front, j);
      assert front[..j] == pieces[..j] && front[j] == pieces[j];
      var p := Concat(pieces[..j]) + pieces[j];
      assert Concat(pieces) == Concat(front) + pieces[n - 1];
      assert Concat(pieces)[..|p|] == Concat(front)[..|p|];
    }
  }

  /** Joining two lists of pieces joins their joined texts. */
  lemma {:induction false} ConcatAppend(a: seq<string>, b: seq<string>)
    ensures Concat(a + b) == Concat(a) + Concat(b)
    decreases |b|
  {
    if |b| == 0 {
      assert a + b == a;
    } else {
      var n := |b|;
      assert (a + b)[..|a + b| - 1] == a + b[..n - 1];
      ConcatAppend(a, b[..n - 1]);
    }
  }

  /** A prefix stays a prefix when the same text is put in front and anything
      is put behind. */
  lemma StartsWithFrame(h: string, s: string, t: string, p: string)
    requires StartsWith(s, p)
    ensures StartsWith(h + s + t, h + p)
  {
    assert (h + s + t)[..|h + p|] == h + s[..|p|];
  }

  /** Being a prefix is transitive. */
  lemma StartsWithTrans(s: string, p: string, q: string)
    requires StartsWith(s, p) && StartsWith(p, q)
    ensures StartsWith(s, q)
  {
    assert s[..|q|] == p[..|q|];
  }
}
