/** The three slug generators and the unique-slug search:
    - `TeamService.generateSlug` (`lib/team-service.ts`),
    - `generateSlug` (`lib/utils.ts`),
    - the base slug and the search of `generateTeamSlug` (`lib/boxyhq/utils.ts`).
    Each regular-expression replacement is written out as a function on `seq<char>`. */
module Slugs {
  import opened Text

  // -----------------------------------------------------------------------------------------------
  // What a slug is

  predicate NoDoubleDash(s: string) {
    forall i :: 0 <= i < |s| - 1 ==> !(s[i] == '-' && s[i + 1] == '-')
  }

  predicate SlugChars(s: string) {
    forall i :: 0 <= i < |s| ==> IsLowerAlnum(s[i]) || s[i] == '-'
  }

  /** Only `[a-z0-9-]`, no `--`, and no `-` at either end. */
  predicate IsSlug(s: string) {
    SlugChars(s) && NoDoubleDash(s) && (s != [] ==> s[0] != '-' && s[|s| - 1] != '-')
  }

  predicate IsDash(c: char) { c == '-' }
  predicate NotLowerAlnum(c: char) { !IsLowerAlnum(c) }

  // -----------------------------------------------------------------------------------------------
  // The replacements

  /** `s.replace(/P+/g, '-')` for a character class `P` that contains `-`: every maximal run of
      characters of the class becomes one `-`. */
  function Squash(s: string, p: char -> bool): (r: string)
    requires p('-')
    ensures forall i :: 0 <= i < |r| ==> r[i] == '-' || (!p(r[i]) && r[i] in s)
    ensures NoDoubleDash(r)
    ensures r != [] && r[0] == '-' ==> s != [] && p(s[0])
    ensures r != [] && r[0] != '-' ==> s != [] && r[0] == s[0]
    decreases |s|
  {
    if s == [] then []
    else if p(s[0]) then
      var rest := DropWhile(s, p);
      assert |rest| < |s|;
      "-" + Squash(rest, p)
    else [s[0]] + Squash(s[1..], p)
  }

  /** `s.replace(/^-|-$/g, '')`: one `-` is dropped at each end. */
  function DropEdge(s: string): (r: string)
    ensures NoDoubleDash(s) ==> NoDoubleDash(r) && (r != [] ==> r[0] != '-' && r[|r| - 1] != '-')
    ensures forall i :: 0 <= i < |r| ==> r[i] in s
  {
    var a := if s != [] && s[0] == '-' then s[1..] else s;
    if a != [] && a[|a| - 1] == '-' then a[..|a| - 1] else a
  }

  /** `s.replace(/^-+|-+$/g, '')`: every `-` is dropped at both ends. */
  function StripDashes(s: string): (r: string)
    ensures r != [] ==> r[0] != '-' && r[|r| - 1] != '-'
    ensures SlugChars(s) ==> SlugChars(r)
    ensures NoDoubleDash(s) ==> NoDoubleDash(r)
  {
    StripKeepsShape(s);
    DropWhileEnd(DropWhile(s, IsDash), IsDash)
  }

  lemma StripKeepsShape(s: string)
    ensures SlugChars(s) ==> SlugChars(DropWhileEnd(DropWhile(s, IsDash), IsDash))
    ensures NoDoubleDash(s) ==> NoDoubleDash(DropWhileEnd(DropWhile(s, IsDash), IsDash))
  {
    var a := DropWhile(s, IsDash);
    SliceKeepsShape(s, |s| - |a|, |s|);
    var r := DropWhileEnd(a, IsDash);
    SliceKeepsShape(a, 0, |r|);
  }

  /** A piece of a text keeps the text's character set and has no `--` if the text has none. */
  lemma SliceKeepsShape(s: string, i: nat, j: nat)
    requires i <= j <= |s|
    ensures SlugChars(s) ==> SlugChars(s[i..j])
    ensures NoDoubleDash(s) ==> NoDoubleDash(s[i..j])
    ensures NoUpper(s) ==> NoUpper(s[i..j])
  {
    assert forall k :: 0 <= k < j - i ==> s[i..j][k] == s[i + k];
  }

  /** `s.replace(/[^a-z0-9]/g, '-')`. */
  function Hyphenate(s: string): (r: string)
    ensures |r| == |s|
    ensures forall i :: 0 <= i < |s| ==> r[i] == if IsLowerAlnum(s[i]) then s[i] else '-'
  {
    if s == [] then [] else [if IsLowerAlnum(s[0]) then s[0] else '-'] + Hyphenate(s[1..])
  }

  /** `s.replace(/[^\w\s-]/g, '')`: every character outside the kept class is deleted. */
  function Keep(s: string): (r: string)
    ensures forall i :: 0 <= i < |r| ==> UtilKeep(r[i])
    ensures NoUpper(s) ==> NoUpper(r)
  {
    if s == [] then []
    else if UtilKeep(s[0]) then [s[0]] + Keep(s[1..])
    else Keep(s[1..])
  }

  // -----------------------------------------------------------------------------------------------
  // The three generators

  /** `TeamService.generateSlug`. */
  function ServiceSlug(name: string): (r: string)
    ensures IsSlug(r)
  {
    var s := Squash(Hyphenate(Lower(name)), IsDash);
    assert SlugChars(s);
    DropEdge(s)
  }

  /** The base slug of `generateTeamSlug`: runs of anything but `[a-z0-9]` become one `-`. */
  function TeamBaseSlug(name: string): (r: string)
    ensures IsSlug(r)
  {
    DropEdge(Squash(Lower(name), NotLowerAlnum))
  }

  /** Kept by `/[^\w\s-]/g`. */
  predicate UtilKeep(c: char) { IsWordChar(c) || IsJsSpace(c) || c == '-' }

  /** Squashed by `/[\s_-]+/g`. */
  predicate UtilSep(c: char) { IsJsSpace(c) || c == '_' || c == '-' }

  /** `generateSlug` of `lib/utils.ts`: punctuation is deleted rather than hyphenated. */
  function UtilSlug(str: string): (r: string)
    ensures IsSlug(r)
  {
    TrimmedHasNoUpper(str);
    Collapse(Keep(Trim(Lower(str))))
  }

  /** The last two replacements of `generateSlug`: separator runs become one `-`, and the dashes at
      both ends go. */
  function Collapse(kept: string): (r: string)
    ensures Kept(kept) ==> IsSlug(r)
  {
    SquashedIsSlugChars(kept);
    StripDashes(Squash(kept, UtilSep))
  }

  predicate NoUpper(s: string) {
    forall i :: 0 <= i < |s| ==> !IsUpper(s[i])
  }

  lemma TrimmedHasNoUpper(str: string)
    ensures NoUpper(Trim(Lower(str)))
    ensures Kept(Keep(Trim(Lower(str))))
  {
    var l := Lower(str);
    assert NoUpper(l);
    TrimKeepsNoUpper(l);
  }

  lemma TrimKeepsNoUpper(l: string)
    requires NoUpper(l)
    ensures NoUpper(Trim(l))
  {
    var a := DropWhile(l, IsJsSpace);
    SliceKeepsShape(l, |l| - |a|, |l|);
    var t := DropWhileEnd(a, IsJsSpace);
    SliceKeepsShape(a, 0, |t|);
  }

  /** Only kept characters, none of them upper case. */
  predicate Kept(s: string) {
    forall i :: 0 <= i < |s| ==> UtilKeep(s[i]) && !IsUpper(s[i])
  }

  lemma SquashedIsSlugChars(kept: string)
    ensures Kept(kept) ==> SlugChars(Squash(kept, UtilSep))
  {
    if Kept(kept) {
      assert forall c :: c in kept ==> UtilKeep(c) && !IsUpper(c);
    }
  }

  // -----------------------------------------------------------------------------------------------
  // Properties

  /** `Squash` leaves alone a text whose class characters are single dashes. */
  lemma {:induction false} SquashIdentity(s: string, p: char -> bool)
    requires p('-')
    requires forall i :: 0 <= i < |s| ==> p(s[i]) ==> s[i] == '-'
    requires NoDoubleDash(s)
    ensures Squash(s, p) == s
    decreases |s|
  {
    if s != [] {
      var t := s[1..];
      assert forall i :: 0 <= i < |t| ==> t[i] == s[i + 1];
      SquashIdentity(t, p);
      if p(s[0]) {
        assert |s| > 1 ==> !(s[0] == '-' && s[1] == '-');
        DropOneDash(s, p);
        assert Squash(s, p) == "-" + Squash(t, p);
      } else {
        assert Squash(s, p) == [s[0]] + Squash(t, p);
      }
      assert s == [s[0]] + t;
    }
  }

  /** A lone class character at the front is the whole run. */
  lemma DropOneDash(s: string, p: char -> bool)
    requires s != [] && p(s[0]) && (|s| > 1 ==> !p(s[1]))
    ensures DropWhile(s, p) == s[1..]
  {
    if |s| > 1 {
      assert DropWhile(s[1..], p) == s[1..];
    }
  }

  lemma LowerIdentity(s: string)
    requires forall i :: 0 <= i < |s| ==> !IsUpper(s[i])
    ensures Lower(s) == s
  {
  }

  /** A slug is a fixpoint of all three generators. */
  lemma SlugFixpoint(s: string)
    requires IsSlug(s)
    ensures ServiceSlug(s) == s
    ensures TeamBaseSlug(s) == s
    ensures UtilSlug(s) == s
  {
    ServiceFixpoint(s);
    TeamFixpoint(s);
    UtilFixpoint(s);
  }

  lemma ServiceFixpoint(s: string)
    requires IsSlug(s)
    ensures ServiceSlug(s) == s
  {
    LowerIdentity(s);
    HyphenateSlug(s);
    SquashIdentity(s, IsDash);
    DropEdgeSlug(s);
  }

  lemma DropEdgeSlug(s: string)
    requires IsSlug(s)
    ensures DropEdge(s) == s
  {
  }

  lemma HyphenateSlug(s: string)
    requires SlugChars(s)
    ensures Hyphenate(s) == s
  {
  }

  lemma TeamFixpoint(s: string)
    requires IsSlug(s)
    ensures TeamBaseSlug(s) == s
  {
    LowerIdentity(s);
    SquashIdentity(s, NotLowerAlnum);
  }

  lemma UtilFixpoint(s: string)
    requires IsSlug(s)
    ensures UtilSlug(s) == s
  {
    LowerIdentity(s);
    NoSpaceTrim(s);
    KeepSlug(s);
    SquashIdentity(s, UtilSep);
    StripSlug(s);
  }

  lemma {:induction false} KeepSlug(s: string)
    requires SlugChars(s)
    ensures Keep(s) == s
    decreases |s|
  {
    if s != [] {
      assert UtilKeep(s[0]);
      assert SlugChars(s[1..]) by {
        assert forall i :: 0 <= i < |s| - 1 ==> s[1..][i] == s[i + 1];
      }
      KeepSlug(s[1..]);
    }
  }

  lemma StripSlug(s: string)
    requires IsSlug(s)
    ensures StripDashes(s) == s
  {
    assert DropWhile(s, IsDash) == s;
    assert DropWhileEnd(s, IsDash) == s;
  }

  lemma NoSpaceTrim(s: string)
    requires forall i :: 0 <= i < |s| ==> !IsJsSpace(s[i])
    ensures Trim(s) == s
  {
    assert DropWhile(s, IsJsSpace) == s by {
      if s != [] { assert !IsJsSpace(s[0]); }
    }
    assert DropWhileEnd(s, IsJsSpace) == s by {
      if s != [] { assert !IsJsSpace(s[|s| - 1]); }
    }
  }

  /** Each generator is idempotent. */
  lemma SlugsIdempotent(name: string)
    ensures ServiceSlug(ServiceSlug(name)) == ServiceSlug(name)
    ensures TeamBaseSlug(TeamBaseSlug(name)) == TeamBaseSlug(name)
    ensures UtilSlug(UtilSlug(name)) == UtilSlug(name)
  {
    SlugFixpoint(ServiceSlug(name));
    SlugFixpoint(TeamBaseSlug(name));
    SlugFixpoint(UtilSlug(name));
  }

  lemma {:induction false} DropDashesOfHyphenated(s: string)
    ensures DropWhile(Hyphenate(s), IsDash) == Hyphenate(DropWhile(s, NotLowerAlnum))
    decreases |s|
  {
    if s != [] {
      assert Hyphenate(s)[1..] == Hyphenate(s[1..]);
      if NotLowerAlnum(s[0]) {
        DropDashesOfHyphenated(s[1..]);
      }
    }
  }

  lemma {:induction false} SquashHyphenated(s: string)
    ensures Squash(Hyphenate(s), IsDash) == Squash(s, NotLowerAlnum)
    decreases |s|
  {
    if s != [] {
      assert Hyphenate(s)[1..] == Hyphenate(s[1..]);
      if NotLowerAlnum(s[0]) {
        DropDashesOfHyphenated(s);
        SquashHyphenated(DropWhile(s, NotLowerAlnum));
      } else {
        SquashHyphenated(s[1..]);
      }
    }
  }

  /** The team service and the single-sign-on helper build the same slug from a name: hyphenating
      each character and collapsing the dashes is the same as hyphenating each run. */
  lemma SameSlugTwoWays(name: string)
    ensures ServiceSlug(name) == TeamBaseSlug(name)
  {
    SquashHyphenated(Lower(name));
  }

  lemma {:induction false} KeepAppend(a: string, b: string)
    ensures Keep(a + b) == Keep(a) + Keep(b)
    decreases |a|
  {
    if a != [] {
      assert (a + b)[0] == a[0];
      assert (a + b)[1..] == a[1..] + b;
      KeepAppend(a[1..], b);
      if UtilKeep(a[0]) {
        assert [a[0]] + (Keep(a[1..]) + Keep(b)) == [a[0]] + Keep(a[1..]) + Keep(b);
      }
    } else {
      assert a + b == b;
    }
  }

  /** Lower case and free of white space: lowering and trimming leave the text alone. */
  predicate Plain(s: string) {
    forall i :: 0 <= i < |s| ==> !IsUpper(s[i]) && !IsJsSpace(s[i])
  }

  lemma PlainAppend(a: string, b: string)
    requires Plain(a) && Plain(b)
    ensures Plain(a + b)
  {
    assert forall i :: 0 <= i < |a + b| ==> (a + b)[i] == if i < |a| then a[i] else b[i - |a|];
  }

  lemma PlainUntouched(s: string)
    requires Plain(s)
    ensures Trim(Lower(s)) == s
  {
    LowerIdentity(s);
    NoSpaceTrim(s);
  }

  /** The generic generator deletes a punctuation character instead of hyphenating it: between
      two lower-case, space-free pieces it leaves no trace. */
  lemma PunctuationDeleted(a: string, c: char, b: string)
    requires Plain(a) && Plain(b)
    requires !UtilKeep(c)
    ensures UtilSlug(a + [c] + b) == UtilSlug(a + b)
  {
    var s, t := a + [c] + b, a + b;
    KeptWithout(a, c, b);
    assert UtilSlug(s) == Collapse(Keep(Trim(Lower(s))));
    assert UtilSlug(t) == Collapse(Keep(Trim(Lower(t))));
  }

  lemma KeptWithout(a: string, c: char, b: string)
    requires Plain(a) && Plain(b)
    requires !UtilKeep(c)
    ensures Keep(Trim(Lower(a + [c] + b))) == Keep(Trim(Lower(a + b)))
  {
    PlainAround(a, c, b);
    PlainAppend(a, b);
    PlainUntouched(a + b);
    KeepSkips(a, c, b);
  }

  lemma PlainAround(a: string, c: char, b: string)
    requires Plain(a) && Plain(b)
    requires !UtilKeep(c)
    ensures Trim(Lower(a + [c] + b)) == a + [c] + b
  {
    assert Plain([c]);
    PlainAppend(a, [c]);
    PlainAppend(a + [c], b);
    PlainUntouched(a + [c] + b);
  }

  lemma KeepSkips(a: string, c: char, b: string)
    requires !UtilKeep(c)
    ensures Keep(a + [c] + b) == Keep(a + b)
  {
    KeepAppend(a + [c], b);
    KeepAppend(a, [c]);
    KeepAppend(a, b);
    assert [c][1..] == [];
  }

  // -----------------------------------------------------------------------------------------------
  // The unique-slug search

  /** The `k`-th candidate: the base itself, then `base-1`, `base-2`, ... */
  function Candidate(base: string, k: nat): string {
    if k == 0 then base else base + "-" + NatToString(k)
  }

  lemma CandidateInjective(base: string, j: nat, k: nat)
    requires Candidate(base, j) == Candidate(base, k)
    ensures j == k
  {
    if j != 0 && k != 0 {
      var cj, ck := Candidate(base, j), Candidate(base, k);
      assert NatToString(j) == cj[|base| + 1..] == ck[|base| + 1..] == NatToString(k);
      NatToStringInjective(j, k);
    }
  }

  /** The candidates before the `k`-th. */
  function Tried(base: string, k: nat): set<string> {
    if k == 0 then {} else Tried(base, k - 1) + {Candidate(base, k - 1)}
  }

  lemma {:induction false} NotYetTried(base: string, k: nat, m: nat)
    requires m >= k
    ensures Candidate(base, m) !in Tried(base, k)
    decreases k
  {
    if k > 0 {
      NotYetTried(base, k - 1, m);
      if Candidate(base, m) == Candidate(base, k - 1) {
        CandidateInjective(base, m, k - 1);
      }
    }
  }

  lemma {:induction false} TriedSize(base: string, k: nat)
    ensures |Tried(base, k)| == k
    decreases k
  {
    if k > 0 {
      TriedSize(base, k - 1);
      NotYetTried(base, k - 1, k - 1);
    }
  }

  lemma {:induction false} SubsetSize<T>(a: set<T>, b: set<T>)
    requires a <= b
    ensures |a| <= |b|
    decreases |a|
  {
    if a != {} {
      var x :| x in a;
      SubsetSize(a - {x}, b - {x});
    }
  }

  /** The search of `generateTeamSlug` over the slugs already taken. The counter of the candidate
      returned is an output too. */
  method UniqueSlug(name: string, taken: set<string>) returns (slug: string, k: nat)
    ensures slug == Candidate(TeamBaseSlug(name), k)
    ensures slug !in taken
    ensures forall j :: 0 <= j < k ==> Candidate(TeamBaseSlug(name), j) in taken
  {
    var base := TeamBaseSlug(name);
    slug, k := base, 0;
    while slug in taken
      invariant slug == Candidate(base, k)
      invariant Tried(base, k) <= taken
      decreases |taken| - k
    {
      TriedSize(base, k + 1);
      SubsetSize(Tried(base, k + 1), taken);
      k := k + 1;
      slug := base + "-" + NatToString(k);
    }
    TriedHoldsEarlier(base, k);
  }

  lemma {:induction false} TriedHoldsEarlier(base: string, k: nat)
    ensures forall j :: 0 <= j < k ==> Candidate(base, j) in Tried(base, k)
    decreases k
  {
    if k > 0 {
      TriedHoldsEarlier(base, k - 1);
    }
  }
}
