/** String helpers over `seq<char>` with the JavaScript and Python meanings the sources rely on.
    Case mapping is ASCII-only: the sources apply `toLowerCase()`/`lower()` to identifiers, slugs
    and URLs, and the non-ASCII case mappings of the host languages are not part of this model. */
module Text {

  // ---------------------------------------------------------------------------------------------
  // Character classes

  predicate IsUpper(c: char) { 'A' <= c <= 'Z' }
  predicate IsLowerLetter(c: char) { 'a' <= c <= 'z' }
  predicate IsDigit(c: char) { '0' <= c <= '9' }

  /** The regex class `[a-z0-9]`. */
  predicate IsLowerAlnum(c: char) { IsLowerLetter(c) || IsDigit(c) }

  /** The regex class `\w` of JavaScript without the `u` flag: `[A-Za-z0-9_]`. */
  predicate IsWordChar(c: char) { IsUpper(c) || IsLowerLetter(c) || IsDigit(c) || c == '_' }

  /** JavaScript white space and line terminators: the class `\s` and what `String.prototype.trim` removes. */
  predicate IsJsSpace(c: char) {
    c == ' ' || c == '\t' || c == '\n' || c == '\r' || c == '\U{000B}' || c == '\U{000C}'
    || c == '\U{00A0}' || c == '\U{1680}' || ('\U{2000}' <= c <= '\U{200A}')
    || c == '\U{2028}' || c == '\U{2029}' || c == '\U{202F}' || c == '\U{205F}'
    || c == '\U{3000}' || c == '\U{FEFF}'
  }

  /** Python's `str.isspace`, what `str.strip()` removes. */
  predicate IsPySpace(c: char) {
    c == ' ' || c == '\t' || c == '\n' || c == '\r' || c == '\U{000B}' || c == '\U{000C}'
    || ('\U{001C}' <= c <= '\U{001F}') || c == '\U{0085}' || c == '\U{00A0}' || c == '\U{1680}'
    || ('\U{2000}' <= c <= '\U{200A}') || c == '\U{2028}' || c == '\U{2029}' || c == '\U{202F}'
    || c == '\U{205F}' || c == '\U{3000}'
  }

  // ---------------------------------------------------------------------------------------------
  // Case mapping

  function LowerChar(c: char): (r: char)
    ensures !IsUpper(r)
    ensures IsUpper(c) ==> IsLowerLetter(r)
    ensures !IsUpper(c) ==> r == c
  {
    if IsUpper(c) then (c as int + 32) as char else c
  }

  /** `toLowerCase()` / `lower()` restricted to ASCII letters. */
  function Lower(s: string): (r: string)
    ensures |r| == |s|
    ensures forall i :: 0 <= i < |s| ==> r[i] == LowerChar(s[i])
  {
    if s == [] then [] else [LowerChar(s[0])] + Lower(s[1..])
  }

  lemma LowerHasNoUpper(s: string)
    ensures forall i :: 0 <= i < |Lower(s)| ==> !IsUpper(Lower(s)[i])
  {
  }

  // ---------------------------------------------------------------------------------------------
  // Prefixes, substrings, trimming

  predicate StartsWith(s: string, prefix: string) {
    |prefix| <= |s| && s[..|prefix|] == prefix
  }

  predicate EndsWith(s: string, suffix: string) {
    |suffix| <= |s| && s[|s| - |suffix|..] == suffix
  }

  /** `s.includes(p)` / Python's `p in s`. */
  predicate Contains(s: string, p: string)
    decreases |s|
  {
    StartsWith(s, p) || (|s| > 0 && Contains(s[1..], p))
  }

  lemma ContainsAt(s: string, p: string, i: nat)
    requires i + |p| <= |s| && s[i..i + |p|] == p
    ensures Contains(s, p)
    decreases i
  {
    if i > 0 {
      assert s[1..][i - 1..i - 1 + |p|] == s[i..i + |p|];
      ContainsAt(s[1..], p, i - 1);
    }
  }

  /** A text contains its own ending. */
  lemma ContainsSuffix(a: string, b: string)
    ensures Contains(a + b, b)
  {
    assert (a + b)[|a|..|a| + |b|] == b;
    ContainsAt(a + b, b, |a|);
  }

  /** A text built from three parts starts with the first, ends with the last, and holds the
      middle one between them. */
  lemma Framed(a: string, b: string, c: string)
    ensures StartsWith(a + b + c, a) && EndsWith(a + b + c, c)
    ensures (a + b + c)[|a|..|a + b + c| - |c|] == b
  {
    assert (a + b + c)[..|a|] == a;
    assert (a + b + c)[|a + b + c| - |c|..] == c;
  }

  /** Appending to a text keeps what it contains. */
  lemma ContainsGrow(s: string, p: string, t: string)
    requires Contains(s, p)
    ensures Contains(s + t, p)
  {
    var i := ContainsWitness(s, p);
    assert (s + t)[i..i + |p|] == s[i..i + |p|];
    ContainsAt(s + t, p, i);
  }

  /** A needle holding a character the text lacks does not occur in it. */
  lemma ContainsNeedsChar(s: string, p: string, k: nat)
    requires k < |p| && p[k] !in s
    ensures !Contains(s, p)
  {
  }

  /** A text that does not contain the pattern has no match of it anywhere. */
  lemma NoMatchAnywhere(s: string, p: string)
    requires !Contains(s, p)
    ensures forall i :: 0 <= i <= |s| ==> !MatchesAt(s[i..], p, false)
  {
    forall i | 0 <= i <= |s| ensures !MatchesAt(s[i..], p, false) {
      if MatchesAt(s[i..], p, false) {
        assert s[i..][..|p|] == s[i..i + |p|];
        ContainsAt(s, p, i);
      }
    }
  }

  lemma ContainsWitness(s: string, p: string) returns (i: nat)
    requires Contains(s, p)
    ensures i + |p| <= |s| && s[i..i + |p|] == p
    decreases |s|
  {
    if StartsWith(s, p) {
      i := 0;
    } else {
      var j := ContainsWitness(s[1..], p);
      assert s[1..][j..j + |p|] == s[j + 1..j + 1 + |p|];
      i := j + 1;
    }
  }

  /** A one-character needle is contained exactly when the character occurs. */
  lemma {:induction false} ContainsChar(s: string, c: char)
    ensures Contains(s, [c]) <==> c in s
    decreases |s|
  {
    if s != [] {
      ContainsChar(s[1..], c);
      assert s == [s[0]] + s[1..];
    }
  }

  function DropWhile(s: string, p: char -> bool): (r: string)
    ensures |r| <= |s| && r == s[|s| - |r|..]
    ensures r != [] ==> !p(r[0])
    ensures forall i :: 0 <= i < |s| - |r| ==> p(s[i])
    decreases |s|
  {
    if s != [] && p(s[0]) then DropWhile(s[1..], p) else s
  }

  function DropWhileEnd(s: string, p: char -> bool): (r: string)
    ensures |r| <= |s| && r == s[..|r|]
    ensures r != [] ==> !p(r[|r| - 1])
    ensures forall i :: |r| <= i < |s| ==> p(s[i])
    decreases |s|
  {
    if s != [] && p(s[|s| - 1]) then DropWhileEnd(s[..|s| - 1], p) else s
  }

  /** `String.prototype.trim`. */
  function Trim(s: string): (r: string)
    ensures r != [] ==> !IsJsSpace(r[0]) && !IsJsSpace(r[|r| - 1])
  {
    DropWhileEnd(DropWhile(s, IsJsSpace), IsJsSpace)
  }

  /** Python's `str.strip()`. */
  function PyStrip(s: string): (r: string)
    ensures r != [] ==> !IsPySpace(r[0]) && !IsPySpace(r[|r| - 1])
  {
    DropWhileEnd(DropWhile(s, IsPySpace), IsPySpace)
  }

  /** The text before the first occurrence of `c`, the whole text when `c` does not occur:
      `s.split(c)[0]`. */
  function Before(s: string, c: char): (r: string)
    ensures StartsWith(s, r)
    ensures c !in r
    ensures |r| < |s| ==> s[|r|] == c
  {
    if s == [] then [] else if s[0] == c then [] else [s[0]] + Before(s[1..], c)
  }

  /** Without the separator the whole text is kept. */
  lemma BeforeAbsent(s: string, c: char)
    requires c !in s
    ensures Before(s, c) == s
  {
  }

  /** Only the first separator counts. */
  lemma {:induction false} BeforeFirst(s: string, c: char, t: string)
    requires c !in s
    ensures Before(s + [c] + t, c) == s
    decreases |s|
  {
    if s == [] {
      assert (s + [c] + t)[0] == c;
    } else {
      assert (s + [c] + t)[0] == s[0];
      assert (s + [c] + t)[1..] == s[1..] + [c] + t;
      BeforeFirst(s[1..], c, t);
      assert s == [s[0]] + s[1..];
    }
  }

  // ---------------------------------------------------------------------------------------------
  // Replacement and joining

  /** Does `pat` occur at the start of `s`, comparing ASCII letters case-insensitively when `fold`? */
  predicate MatchesAt(s: string, pat: string, fold: bool) {
    |pat| <= |s| && (if fold then Lower(s[..|pat|]) == Lower(pat) else s[..|pat|] == pat)
  }

  /** `s.replace(/pat/g, rep)` (with the `i` flag when `fold`) for a literal pattern: occurrences are
      found left to right and do not overlap. */
  function ReplaceAll(s: string, pat: string, rep: string, fold: bool): string
    requires |pat| > 0
    decreases |s|
  {
    if s == [] then []
    else if MatchesAt(s, pat, fold) then rep + ReplaceAll(s[|pat|..], pat, rep, fold)
    else [s[0]] + ReplaceAll(s[1..], pat, rep, fold)
  }

  /** A character absent from both the text and the replacement is absent from the result. */
  lemma {:induction false} ReplaceAllAvoids(s: string, pat: string, rep: string, fold: bool, c: char)
    requires |pat| > 0 && c !in s && c !in rep
    ensures c !in ReplaceAll(s, pat, rep, fold)
    decreases |s|
  {
    if s != [] {
      if MatchesAt(s, pat, fold) {
        assert forall k :: |pat| <= k < |s| ==> s[|pat|..][k - |pat|] == s[k];
        ReplaceAllAvoids(s[|pat|..], pat, rep, fold, c);
      } else {
        ReplaceAllAvoids(s[1..], pat, rep, fold, c);
      }
    }
  }

  /** Every occurrence of a one-character pattern is replaced, so it no longer occurs. */
  lemma {:induction false} ReplaceAllRemoves(s: string, c: char, rep: string)
    requires c !in rep
    ensures c !in ReplaceAll(s, [c], rep, false)
    decreases |s|
  {
    if s != [] {
      ReplaceAllRemoves(s[1..], c, rep);
    }
  }

  /** A text without the pattern is left as it is. */
  lemma {:induction false} ReplaceAllNoMatch(s: string, pat: string, rep: string, fold: bool)
    requires |pat| > 0
    requires forall i :: 0 <= i < |s| ==> !MatchesAt(s[i..], pat, fold)
    ensures ReplaceAll(s, pat, rep, fold) == s
    decreases |s|
  {
    if s != [] {
      assert !MatchesAt(s[0..], pat, fold);
      assert s[0..] == s;
      forall i | 0 <= i < |s[1..]|
        ensures !MatchesAt(s[1..][i..], pat, fold)
      {
        assert s[1..][i..] == s[i + 1..];
      }
      ReplaceAllNoMatch(s[1..], pat, rep, fold);
      assert s == [s[0]] + s[1..];
    }
  }

  /** `Array.prototype.join(sep)` on strings. */
  function Join(parts: seq<string>, sep: string): string {
    if parts == [] then []
    else if |parts| == 1 then parts[0]
    else parts[0] + sep + Join(parts[1..], sep)
  }

  /** A join starts with its first part, so it is empty only when that part is. */
  lemma JoinStartsWithFirst(parts: seq<string>, sep: string)
    ensures parts != [] ==> StartsWith(Join(parts, sep), parts[0])
  {
  }

  /** Every part occurs in the joined text. */
  lemma {:induction false} JoinContainsPart(parts: seq<string>, sep: string, i: nat)
    requires i < |parts|
    ensures Contains(Join(parts, sep), parts[i])
    decreases i
  {
    if i == 0 {
      JoinStartsWithFirst(parts, sep);
      ContainsAt(Join(parts, sep), parts[0], 0);
    } else {
      JoinContainsPart(parts[1..], sep, i - 1);
      var t := Join(parts[1..], sep);
      var j := ContainsWitness(t, parts[i]);
      assert (parts[0] + sep + t)[|parts[0] + sep| + j..|parts[0] + sep| + j + |parts[i]|] == t[j..j + |parts[i]|];
      ContainsAt(parts[0] + sep + t, parts[i], |parts[0] + sep| + j);
    }
  }

  // ---------------------------------------------------------------------------------------------
  // Decimal rendering of integers

  function DigitChar(d: nat): (c: char)
    requires d < 10
    ensures IsDigit(c)
  {
    ('0' as int + d) as char
  }

  /** The decimal text of a natural number, as `${n}` / `str(n)` renders it. */
  function NatToString(n: nat): (r: string)
    ensures |r| > 0
    ensures forall i :: 0 <= i < |r| ==> IsDigit(r[i])
    ensures n >= 10 ==> |r| >= 2
  {
    if n < 10 then [DigitChar(n)] else NatToString(n / 10) + [DigitChar(n % 10)]
  }

  /** Distinct numbers have distinct renderings. */
  lemma {:induction false} NatToStringInjective(a: nat, b: nat)
    requires NatToString(a) == NatToString(b)
    ensures a == b
    decreases a
  {
    var sa, sb := NatToString(a), NatToString(b);
    assert sa[|sa| - 1] == sb[|sb| - 1];
    if a < 10 && b < 10 {
    } else if a >= 10 && b >= 10 {
      assert a % 10 == b % 10;
      assert NatToString(a / 10) == sa[..|sa| - 1] == sb[..|sb| - 1] == NatToString(b / 10);
      NatToStringInjective(a / 10, b / 10);
    } else {
      assert false;
    }
  }

  function IntToString(i: int): (r: string)
    ensures |r| > 0
  {
    if i < 0 then "-" + NatToString(-i) else NatToString(i)
  }
}
