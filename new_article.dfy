/**
 * The "new article" page: the slug derived from the title and the submit
 * handler that checks the user, inserts the article and navigates.
 */
module NewArticle {
  import opened Wrappers
  import opened JsText
  import opened Store
  import opened SeqOps

  // ---------------------------------------------------------------------
  // The slug

  /** The characters `[^\w\s-]` does not match: they survive the first `replace`. */
  predicate Kept(c: char) { IsWordChar(c) || IsSpace(c) || c == '-' }

  /** The characters of the class `[\s_-]`. */
  predicate IsSeparator(c: char) { IsSpace(c) || c == '_' || c == '-' }

  /** The characters a slug is meant to consist of. */
  predicate SlugChar(c: char) { IsAsciiLower(c) || IsDigit(c) || c == '-' }

  /** A well-formed slug: lower-case letters, digits and single dashes between them. */
  predicate IsSlug(s: string) {
    (forall i :: 0 <= i < |s| ==> SlugChar(s[i])) &&
    (s != [] ==> s[0] != '-' && s[|s| - 1] != '-') &&
    (forall i :: 0 <= i < |s| - 1 ==> s[i] != '-' || s[i + 1] != '-')
  }

  /** `replace(/[^\w\s-]/g, '')`: every character outside the class is deleted. */
  function DropUnsafe(s: string): (r: string)
    ensures |r| <= |s|
  {
    if s == [] then [] else (if Kept(s[0]) then [s[0]] else []) + DropUnsafe(s[1..])
  }

  /** Exactly the characters of the class survive `DropUnsafe`. */
  lemma {:induction false} DropUnsafeKeeps(s: string)
    ensures forall c :: c in DropUnsafe(s) <==> c in s && Kept(c)
    decreases |s|
  {
    if s != [] {
      DropUnsafeKeeps(s[1..]);
      assert s == [s[0]] + s[1..];
    }
  }

  /** `replace(/[\s_-]+/g, '-')`, read left to right; `inRun` says whether the
      characters just before `s` were separators already replaced by a dash. */
  function DashRuns(s: string, inRun: bool): string
    decreases |s|
  {
    if s == [] then []
    else if IsSeparator(s[0]) then
      (if inRun then DashRuns(s[1..], true) else "-" + DashRuns(s[1..], true))
    else [s[0]] + DashRuns(s[1..], false)
  }

  /** The output holds dashes and the input's other characters, never two
      dashes in a row, no leading dash inside a run, and every character of the
      input that is not a separator. */
  lemma {:induction false} DashRunsShape(s: string, inRun: bool)
    ensures var r := DashRuns(s, inRun);
      forall i :: 0 <= i < |r| ==> r[i] == '-' || (r[i] in s && !IsSeparator(r[i]))
    ensures var r := DashRuns(s, inRun);
      forall i :: 0 <= i < |r| - 1 ==> r[i] != '-' || r[i + 1] != '-'
    ensures var r := DashRuns(s, inRun); inRun ==> r == [] || r[0] != '-'
    ensures var r := DashRuns(s, inRun); forall c :: c in s && !IsSeparator(c) ==> c in r
    decreases |s|
  {
    if s != [] {
      var b := IsSeparator(s[0]);
      var rest := DashRuns(s[1..], b);
      DashRunsShape(s[1..], b);
      var pre := if b then (if inRun then "" else "-") else [s[0]];
      var r := pre + rest;
      assert DashRuns(s, inRun) == r;
      forall i | 0 <= i < |r| ensures r[i] == '-' || (r[i] in s && !IsSeparator(r[i])) {
        if i >= |pre| {
          assert r[i] == rest[i - |pre|];
        }
      }
      forall i | 0 <= i < |r| - 1 ensures r[i] != '-' || r[i + 1] != '-' {
        if i >= |pre| {
          assert r[i] == rest[i - |pre|] && r[i + 1] == rest[i + 1 - |pre|];
        } else if |pre| == 1 && !b {
          assert r[i] == s[0];
        } else {
          assert rest == [] || rest[0] != '-';
          assert r[i + 1] == rest[0];
        }
      }
      forall c | c in s && !IsSeparator(c) ensures c in r {
        if c != s[0] {
          assert c in s[1..];
        }
      }
    }
  }

  /** The `^-+` alternative of the last `replace`. */
  function TrimLeadingDashes(s: string): string {
    if s != [] && s[0] == '-' then TrimLeadingDashes(s[1..]) else s
  }

  /** What is removed is a prefix of dashes, and what is left does not start
      with one. */
  lemma {:induction false} TrimLeadingDashesSpec(s: string)
    ensures var r := TrimLeadingDashes(s); |r| <= |s| && r == s[|s| - |r|..]
    ensures var r := TrimLeadingDashes(s); forall i :: 0 <= i < |s| - |r| ==> s[i] == '-'
    ensures var r := TrimLeadingDashes(s); r == [] || r[0] != '-'
    decreases |s|
  {
    if s != [] && s[0] == '-' {
      TrimLeadingDashesSpec(s[1..]);
    }
  }

  /** The `-+$` alternative of the last `replace`. */
  function TrimTrailingDashes(s: string): string {
    if s != [] && s[|s| - 1] == '-' then TrimTrailingDashes(s[..|s| - 1]) else s
  }

  /** What is removed is a suffix of dashes, and what is left does not end with
      one. */
  lemma {:induction false} TrimTrailingDashesSpec(s: string)
    ensures var r := TrimTrailingDashes(s); |r| <= |s| && r == s[..|r|]
    ensures var r := TrimTrailingDashes(s); forall i :: |r| <= i < |s| ==> s[i] == '-'
    ensures var r := TrimTrailingDashes(s); r == [] || r[|r| - 1] != '-'
    decreases |s|
  {
    if s != [] && s[|s| - 1] == '-' {
      TrimTrailingDashesSpec(s[..|s| - 1]);
    }
  }

  /** `generateSlug(title)`. */
  function GenerateSlug(title: string): string {
    var lowered := ToLower(title);
    var trimmed := Trim(lowered);
    var safe := DropUnsafe(trimmed);
    var dashed := DashRuns(safe, false);
    TrimTrailingDashes(TrimLeadingDashes(dashed))
  }

  /** The slug of an already cleaned string, with the leading dash already gone. */
  function Canon(k: string): string {
    TrimTrailingDashes(DashRuns(k, true))
  }

  // ---------------------------------------------------------------------
  // Lemmas about the slug

  lemma {:induction false} LeadingDashRun(y: string, inRun: bool)
    ensures TrimLeadingDashes(DashRuns(y, inRun)) == DashRuns(y, true)
  {
    if y == [] {
    } else if !IsSeparator(y[0]) {
      var z := [y[0]] + DashRuns(y[1..], false);
      assert DashRuns(y, inRun) == z && DashRuns(y, true) == z;
      assert z[0] != '-';
    } else {
      var z := DashRuns(y[1..], true);
      DashRunsShape(y[1..], true);
      assert TrimLeadingDashes(z) == z;
      if !inRun {
        assert ("-" + z)[1..] == z;
      }
    }
  }

  lemma {:induction false} SkipSeparators(p: string, y: string)
    requires forall i :: 0 <= i < |p| ==> IsSeparator(p[i])
    ensures DashRuns(p + y, true) == DashRuns(y, true)
  {
    if p == [] {
      assert p + y == y;
    } else {
      assert (p + y)[0] == p[0];
      assert (p + y)[1..] == p[1..] + y;
      SkipSeparators(p[1..], y);
    }
  }

  lemma {:induction false} TrailingDashesOf(z: string, d: string)
    requires forall i :: 0 <= i < |d| ==> d[i] == '-'
    ensures TrimTrailingDashes(z + d) == TrimTrailingDashes(z)
    decreases |d|
  {
    if d == [] {
      assert z + d == z;
    } else {
      assert (z + d)[..|z + d| - 1] == z + d[..|d| - 1];
      TrailingDashesOf(z, d[..|d| - 1]);
    }
  }

  lemma {:induction false} TrailingDashesAppend(p: string, x: string)
    ensures TrimTrailingDashes(p + x) == TrimTrailingDashes(p + TrimTrailingDashes(x))
  {
    var t := TrimTrailingDashes(x);
    TrimTrailingDashesSpec(x);
    var d := x[|t|..];
    assert x == t + d;
    assert p + x == (p + t) + d;
    TrailingDashesOf(p + t, d);
  }

  /** A string of dashes only has no slug left. */
  lemma {:induction false} AllDashes(x: string)
    requires forall i :: 0 <= i < |x| ==> x[i] == '-'
    ensures TrimTrailingDashes(x) == []
  {
    TrimTrailingDashesSpec(x);
  }

  lemma {:induction false} DropTrailingSeparators(y: string, s: string, inRun: bool)
    requires forall i :: 0 <= i < |s| ==> IsSeparator(s[i])
    ensures TrimTrailingDashes(DashRuns(y + s, inRun)) == TrimTrailingDashes(DashRuns(y, inRun))
    decreases |y|
  {
    if y == [] {
      assert y + s == s;
      OnlySeparators(s, inRun);
      AllDashes(DashRuns(s, inRun));
    } else {
      var ys := y + s;
      assert ys[0] == y[0];
      assert ys[1..] == y[1..] + s;
      var b := IsSeparator(y[0]);
      var pre := if b then (if inRun then "" else "-") else [y[0]];
      assert DashRuns(ys, inRun) == pre + DashRuns(y[1..] + s, b);
      assert DashRuns(y, inRun) == pre + DashRuns(y[1..], b);
      DropTrailingSeparators(y[1..], s, b);
      TrailingDashesAppend(pre, DashRuns(y[1..] + s, b));
      TrailingDashesAppend(pre, DashRuns(y[1..], b));
    }
  }

  lemma {:induction false} DropConcat(a: string, b: string)
    ensures DropUnsafe(a + b) == DropUnsafe(a) + DropUnsafe(b)
    decreases |a|
  {
    if a == [] {
      assert a + b == b;
    } else {
      var c, z := a[0], a[1..];
      var e := if Kept(c) then [c] else [];
      assert DropUnsafe(a + b) == e + DropUnsafe(z + b) by {
        assert (a + b)[0] == c && (a + b)[1..] == z + b;
      }
      assert DropUnsafe(a) == e + DropUnsafe(z);
      DropConcat(z, b);
      ConcatAssoc(e, DropUnsafe(z), DropUnsafe(b));
    }
  }

  lemma {:induction false} DropNothing(s: string)
    requires forall i :: 0 <= i < |s| ==> Kept(s[i])
    ensures DropUnsafe(s) == s
  {
    if s != [] {
      DropNothing(s[1..]);
    }
  }

  lemma {:induction false} LeadingSpaces(x: string)
    ensures Canon(DropUnsafe(TrimStart(x))) == Canon(DropUnsafe(x))
    decreases |x|
  {
    if x != [] && IsSpace(x[0]) {
      LeadingSpaces(x[1..]);
      assert DropUnsafe(x) == [x[0]] + DropUnsafe(x[1..]);
      SkipSeparators([x[0]], DropUnsafe(x[1..]));
    }
  }

  lemma {:induction false} DropSnocSpace(y: string, c: char)
    requires IsSpace(c)
    ensures DropUnsafe(y + [c]) == DropUnsafe(y) + [c]
  {
    DropConcat(y, [c]);
    assert DropUnsafe([c]) == [c];
  }

  lemma {:induction false} CanonSnocSpace(k: string, c: char)
    requires IsSpace(c)
    ensures Canon(k + [c]) == Canon(k)
  {
    DropTrailingSeparators(k, [c], true);
  }

  lemma {:induction false} TrailingSpaces(x: string)
    ensures Canon(DropUnsafe(TrimEnd(x))) == Canon(DropUnsafe(x))
    decreases |x|
  {
    if x != [] && IsSpace(x[|x| - 1]) {
      var y, c := x[..|x| - 1], x[|x| - 1];
      assert x == y + [c];
      assert TrimEnd(x) == TrimEnd(y);
      TrailingSpaces(y);
      DropSnocSpace(y, c);
      var k := DropUnsafe(y);
      assert DropUnsafe(x) == k + [c];
      CanonSnocSpace(k, c);
    }
  }

  /** `trim` changes nothing a later step would not: the slug is read from the
      lower-cased title with its unsafe characters deleted. */
  lemma {:induction false} SlugCanonical(t: string)
    ensures GenerateSlug(t) == Canon(DropUnsafe(ToLower(t)))
  {
    var x := ToLower(t);
    LeadingDashRun(DropUnsafe(Trim(x)), false);
    TrailingSpaces(TrimStart(x));
    LeadingSpaces(x);
  }

  /** What the first two steps leave: every character survives the first
      `replace` and none is an ASCII capital. */
  predicate Cleaned(k: string) {
    forall i :: 0 <= i < |k| ==> Kept(k[i]) && !IsAsciiUpper(k[i])
  }

  lemma {:induction false} CleanedInput(t: string)
    ensures Cleaned(DropUnsafe(ToLower(t)))
  {
    var x := ToLower(t);
    var k := DropUnsafe(x);
    DropUnsafeKeeps(x);
    forall i | 0 <= i < |k| ensures Kept(k[i]) && !IsAsciiUpper(k[i]) {
      assert k[i] in k;
      var j :| 0 <= j < |x| && x[j] == k[i];
    }
  }

  lemma {:induction false} CanonIsSlug(k: string)
    requires Cleaned(k)
    ensures IsSlug(Canon(k))
  {
    var r := DashRuns(k, true);
    DashRunsShape(k, true);
    var slug := TrimTrailingDashes(r);
    TrimTrailingDashesSpec(r);
    forall i | 0 <= i < |slug| ensures SlugChar(slug[i]) {
      assert slug[i] == r[i];
      if r[i] != '-' {
        var j :| 0 <= j < |k| && k[j] == r[i];
      }
    }
    forall i | 0 <= i < |slug| - 1 ensures slug[i] != '-' || slug[i + 1] != '-' {
      assert slug[i] == r[i] && slug[i + 1] == r[i + 1];
    }
    if slug != [] {
      assert slug[0] == r[0];
    }
  }

  /** Every slug is well formed: only `a`-`z`, `0`-`9` and `-`, no dash at
      either end, and no two dashes in a row. */
  lemma {:induction false} SlugIsWellFormed(t: string)
    ensures IsSlug(GenerateSlug(t))
  {
    SlugCanonical(t);
    CleanedInput(t);
    CanonIsSlug(DropUnsafe(ToLower(t)));
  }

  /** Letters, digits and dashes with no two dashes in a row. */
  predicate Dashed(s: string) {
    (forall i :: 0 <= i < |s| ==> SlugChar(s[i])) &&
    (forall i :: 0 <= i < |s| - 1 ==> s[i] != '-' || s[i + 1] != '-')
  }

  lemma {:induction false} DashedTail(s: string)
    requires Dashed(s) && s != []
    ensures Dashed(s[1..])
  {
    var t := s[1..];
    assert forall i :: 0 <= i < |t| ==> t[i] == s[i + 1];
  }

  lemma {:induction false} DashRunsFixed(s: string, inRun: bool)
    requires Dashed(s)
    requires inRun ==> s == [] || s[0] != '-'
    ensures DashRuns(s, inRun) == s
    decreases |s|
  {
    if s != [] {
      var t := s[1..];
      DashedTail(s);
      assert s == [s[0]] + t;
      if s[0] == '-' {
        assert t == [] || t[0] != '-' by {
          if t != [] {
            assert t[0] == s[1];
          }
        }
        DashRunsFixed(t, true);
        assert DashRuns(s, inRun) == "-" + DashRuns(t, true);
      } else {
        assert !IsSeparator(s[0]) by {
          assert SlugChar(s[0]);
        }
        DashRunsFixed(t, false);
        assert DashRuns(s, inRun) == [s[0]] + DashRuns(t, false);
      }
    }
  }

  lemma {:induction false} CanonOfSlug(s: string)
    requires IsSlug(s)
    ensures Canon(DropUnsafe(ToLower(s))) == s
  {
    ToLowerFixed(s);
    DropNothing(s);
    DashRunsFixed(s, true);
  }

  /** The well-formed slugs are exactly the titles that are their own slug. */
  lemma {:induction false} SlugFixedPoint(s: string)
    ensures GenerateSlug(s) == s <==> IsSlug(s)
  {
    SlugIsWellFormed(s);
    if IsSlug(s) {
      SlugCanonical(s);
      CanonOfSlug(s);
    }
  }

  /** `generateSlug` is idempotent. */
  lemma {:induction false} SlugIdempotent(t: string)
    ensures GenerateSlug(GenerateSlug(t)) == GenerateSlug(t)
  {
    SlugIsWellFormed(t);
    SlugFixedPoint(GenerateSlug(t));
  }

  /** Some character is neither whitespace, `_` nor `-`. */
  predicate HasWordPart(k: string) {
    exists i :: 0 <= i < |k| && !IsSeparator(k[i])
  }

  lemma {:induction false} OnlySeparators(k: string, inRun: bool)
    requires forall i :: 0 <= i < |k| ==> IsSeparator(k[i])
    ensures forall i :: 0 <= i < |DashRuns(k, inRun)| ==> DashRuns(k, inRun)[i] == '-'
    decreases |k|
  {
    if k != [] {
      OnlySeparators(k[1..], true);
    }
  }

  lemma {:induction false} CanonEmpty(k: string)
    ensures Canon(k) == [] <==> !HasWordPart(k)
  {
    var r := DashRuns(k, true);
    DashRunsShape(k, true);
    if HasWordPart(k) {
      var j :| 0 <= j < |k| && !IsSeparator(k[j]);
      assert k[j] in k;
      var i :| 0 <= i < |r| && r[i] == k[j];
      assert i < |TrimTrailingDashes(r)|;
    } else {
      OnlySeparators(k, true);
      AllDashes(r);
    }
  }

  lemma {:induction false} AlnumSurvives(t: string)
    requires HasAlnum(t)
    ensures HasWordPart(DropUnsafe(ToLower(t)))
  {
    var x := ToLower(t);
    var k := DropUnsafe(x);
    var j :| 0 <= j < |t| && IsAsciiAlnum(t[j]);
    var c := x[j];
    assert c == LowerChar(t[j]);
    AlnumIsNotSpace(c);
    assert c in k by {
      assert c in x;
      DropUnsafeKeeps(x);
    }
    var i :| 0 <= i < |k| && k[i] == c;
  }

  lemma {:induction false} WordPartIsAlnum(t: string)
    requires HasWordPart(DropUnsafe(ToLower(t)))
    ensures HasAlnum(t)
  {
    var x := ToLower(t);
    var k := DropUnsafe(x);
    var i :| 0 <= i < |k| && !IsSeparator(k[i]);
    assert k[i] in k;
    DropUnsafeKeeps(x);
    var j :| 0 <= j < |x| && x[j] == k[i];
    assert IsAsciiAlnum(x[j]);
    assert IsAsciiAlnum(t[j]);
  }

  /** The slug is empty exactly when the title has no ASCII letter or digit,
      for example a title of punctuation and spaces only. */
  lemma {:induction false} SlugEmpty(t: string)
    ensures GenerateSlug(t) == "" <==> !HasAlnum(t)
  {
    SlugCanonical(t);
    CanonEmpty(DropUnsafe(ToLower(t)));
    if HasAlnum(t) {
      AlnumSurvives(t);
    }
    if HasWordPart(DropUnsafe(ToLower(t))) {
      WordPartIsAlnum(t);
    }
  }

  lemma {:induction false} DropDeletes(a: string, c: char, b: string)
    requires !Kept(c)
    ensures DropUnsafe(ToLower(a + [c] + b)) == DropUnsafe(ToLower(a + b))
  {
    ToLowerConcat(a + [c], b);
    ToLowerConcat(a, [c]);
    ToLowerConcat(a, b);
    var la, lb := ToLower(a), ToLower(b);
    assert ToLower([c]) == [c];
    DropConcat(la + [c], lb);
    DropConcat(la, [c]);
    DropConcat(la, lb);
  }

  /** A character outside `[\w\s-]` (an accented letter, `¿`, `?`) is deleted
      without leaving a dash: the slug is that of the title without it. */
  lemma {:induction false} SlugDeletes(a: string, c: char, b: string)
    requires !Kept(c)
    ensures GenerateSlug(a + [c] + b) == GenerateSlug(a + b)
  {
    SlugCanonical(a + [c] + b);
    SlugCanonical(a + b);
    DropDeletes(a, c, b);
  }

  // ---------------------------------------------------------------------
  // What the dash replacement does to words and separators

  /** Whether the replacement, once it has read `x`, is inside a run of
      separators. */
  function RunAfter(x: string, inRun: bool): bool {
    if x == [] then inRun else IsSeparator(x[|x| - 1])
  }

  /** The replacement reads its input left to right: the output for `x + y` is
      the output for `x`, then that for `y` read in the state `x` ends in. */
  lemma {:induction false} DashRunsConcat(x: string, y: string, inRun: bool)
    ensures DashRuns(x + y, inRun) == DashRuns(x, inRun) + DashRuns(y, RunAfter(x, inRun))
    decreases |x|
  {
    if x == [] {
      assert x + y == y;
    } else {
      var c, z := x[0], x[1..];
      var b := IsSeparator(c);
      var e := Emitted(c, inRun);
      assert x == [c] + z;
      assert DashRuns(x + y, inRun) == e + DashRuns(z + y, b) by {
        ConcatAssoc([c], z, y);
        DashRunsCons(c, z + y, inRun);
      }
      assert DashRuns(x, inRun) == e + DashRuns(z, b) by {
        DashRunsCons(c, z, inRun);
      }
      DashRunsConcat(z, y, b);
      RunAfterTail(x, inRun);
      ConcatAssoc(e, DashRuns(z, b), DashRuns(y, RunAfter(x, inRun)));
    }
  }

  /** What the replacement emits for one character read in the given state. */
  function Emitted(c: char, inRun: bool): string {
    if !IsSeparator(c) then [c] else if inRun then [] else "-"
  }

  lemma {:induction false} DashRunsCons(c: char, s: string, inRun: bool)
    ensures DashRuns([c] + s, inRun) == Emitted(c, inRun) + DashRuns(s, IsSeparator(c))
  {
    assert ([c] + s)[0] == c && ([c] + s)[1..] == s;
  }

  lemma {:induction false} RunAfterTail(x: string, inRun: bool)
    requires x != []
    ensures RunAfter(x[1..], IsSeparator(x[0])) == RunAfter(x, inRun)
  {
    if |x| > 1 {
      assert x[1..][|x| - 2] == x[|x| - 1];
    }
  }

  /** Text without whitespace, `_` or `-` passes through unchanged. */
  lemma {:induction false} NoSeparatorsUnchanged(s: string, inRun: bool)
    requires forall i :: 0 <= i < |s| ==> !IsSeparator(s[i])
    ensures DashRuns(s, inRun) == s
    decreases |s|
  {
    if s != [] {
      NoSeparatorsUnchanged(s[1..], false);
      assert [s[0]] + s[1..] == s;
    }
  }

  /** A run of separators `p` between a word character and the next word
      becomes exactly one dash, and the next word is read afresh. */
  lemma {:induction false} RunBecomesOneDash(w: string, p: string, v: string, inRun: bool)
    requires w != [] && !IsSeparator(w[|w| - 1])
    requires p != [] && forall i :: 0 <= i < |p| ==> IsSeparator(p[i])
    requires v == [] || !IsSeparator(v[0])
    ensures DashRuns(w + p + v, inRun) == DashRuns(w, inRun) + "-" + DashRuns(v, false)
  {
    assert w + p + v == w + (p + v);
    DashRunsConcat(w, p + v, inRun);
    assert (p + v)[0] == p[0];
    assert (p + v)[1..] == p[1..] + v;
    assert DashRuns(p + v, false) == "-" + DashRuns(p[1..] + v, true);
    SkipSeparators(p[1..], v);
    assert DashRuns(v, true) == DashRuns(v, false);
  }

  predicate NotDash(c: char) { c != '-' }

  predicate NotSeparator(c: char) { !IsSeparator(c) }

  /** Dashes aside, the replacement keeps exactly the characters that are not
      separators, all of them and in their order. */
  lemma {:induction false} DashRunsKeepsWords(s: string, inRun: bool)
    ensures Filter(DashRuns(s, inRun), NotDash) == Filter(s, NotSeparator)
    decreases |s|
  {
    if s != [] {
      var b := IsSeparator(s[0]);
      var rest := DashRuns(s[1..], b);
      DashRunsKeepsWords(s[1..], b);
      if b {
        if !inRun {
          var r := "-" + rest;
          assert r[0] == '-' && r[1..] == rest;
        }
      } else {
        var r := [s[0]] + rest;
        assert r[0] == s[0] && r[1..] == rest;
      }
    }
  }

  // ---------------------------------------------------------------------
  // The slug of a title built from words and separators

  /** A word its slug repeats: lower-case ASCII letters and digits. */
  predicate IsSlugWord(w: string) {
    w != [] && forall i :: 0 <= i < |w| ==> IsAsciiLower(w[i]) || IsDigit(w[i])
  }

  lemma {:induction false} SlugWordHasNoSeparator(w: string)
    requires IsSlugWord(w)
    ensures forall i :: 0 <= i < |w| ==> !IsSeparator(w[i])
  {
    forall i | 0 <= i < |w| ensures !IsSeparator(w[i]) {
      AlnumIsNotSpace(w[i]);
    }
  }

  /** Lower-case letters, digits and separators only. */
  predicate Plain(x: string) {
    forall i :: 0 <= i < |x| ==> IsSeparator(x[i]) || IsAsciiLower(x[i]) || IsDigit(x[i])
  }

  lemma {:induction false} PlainChar(c: char)
    requires IsSeparator(c) || IsAsciiLower(c) || IsDigit(c)
    ensures Kept(c) && !IsAsciiUpper(c)
  {
    if IsSpace(c) {
      assert !('A' <= c <= 'Z');
    }
  }

  /** Plain text is its own lower case and loses nothing to the first `replace`. */
  lemma {:induction false} PlainIsClean(x: string)
    requires Plain(x)
    ensures ToLower(x) == x && DropUnsafe(x) == x
  {
    forall i | 0 <= i < |x| ensures Kept(x[i]) && !IsAsciiUpper(x[i]) {
      PlainChar(x[i]);
    }
    ToLowerFixed(x);
    DropNothing(x);
  }

  /** Plain text after a title comes out of the first two steps unchanged. */
  lemma {:induction false} PlainSuffix(t: string, x: string)
    requires Plain(x)
    ensures DropUnsafe(ToLower(t + x)) == DropUnsafe(ToLower(t)) + x
  {
    var l := ToLower(t);
    assert ToLower(t + x) == l + x by {
      ToLowerConcat(t, x);
      PlainIsClean(x);
    }
    assert DropUnsafe(l + x) == DropUnsafe(l) + x by {
      DropConcat(l, x);
      PlainIsClean(x);
    }
  }

  /** Plain text before a title comes out of the first two steps unchanged. */
  lemma {:induction false} PlainPrefix(x: string, t: string)
    requires Plain(x)
    ensures DropUnsafe(ToLower(x + t)) == x + DropUnsafe(ToLower(t))
  {
    var l := ToLower(t);
    assert ToLower(x + t) == x + l by {
      ToLowerConcat(x, t);
      PlainIsClean(x);
    }
    assert DropUnsafe(x + l) == x + DropUnsafe(l) by {
      DropConcat(x, l);
      PlainIsClean(x);
    }
  }

  /** The position of the last character that is not a separator. */
  lemma {:induction false} LastWordPart(k: string) returns (n: nat)
    requires HasWordPart(k)
    ensures n < |k| && !IsSeparator(k[n])
    ensures forall i :: n < i < |k| ==> IsSeparator(k[i])
    decreases |k|
  {
    if !IsSeparator(k[|k| - 1]) {
      n := |k| - 1;
    } else {
      var j :| 0 <= j < |k| && !IsSeparator(k[j]);
      var y := k[..|k| - 1];
      assert y[j] == k[j];
      n := LastWordPart(y);
    }
  }

  /** Whitespace, `_` and `-` in front of a title do not change its slug. */
  lemma {:induction false} SlugIgnoresLeadingSeparators(p: string, t: string)
    requires forall i :: 0 <= i < |p| ==> IsSeparator(p[i])
    ensures GenerateSlug(p + t) == GenerateSlug(t)
  {
    SlugCanonical(p + t);
    SlugCanonical(t);
    PlainPrefix(p, t);
    SkipSeparators(p, DropUnsafe(ToLower(t)));
  }

  /** Whitespace, `_` and `-` after a title do not change its slug. */
  lemma {:induction false} SlugIgnoresTrailingSeparators(t: string, p: string)
    requires forall i :: 0 <= i < |p| ==> IsSeparator(p[i])
    ensures GenerateSlug(t + p) == GenerateSlug(t)
  {
    SlugCanonical(t + p);
    SlugCanonical(t);
    PlainSuffix(t, p);
    DropTrailingSeparators(DropUnsafe(ToLower(t)), p, true);
  }

  /** Separators after the last word character leave no dash. */
  lemma {:induction false} CanonAtWordEnd(head: string, tail: string)
    requires head != [] && !IsSeparator(head[|head| - 1])
    requires forall i :: 0 <= i < |tail| ==> IsSeparator(tail[i])
    ensures Canon(head + tail) == DashRuns(head, true)
  {
    var c, front := head[|head| - 1], head[..|head| - 1];
    var d := DashRuns(head, true);
    assert d == DashRuns(front, true) + [c] by {
      assert head == front + [c];
      DashRunsConcat(front, [c], true);
      DashRunsCons(c, [], RunAfter(front, true));
      assert [c] + [] == [c];
    }
    assert TrimTrailingDashes(d) == d by {
      assert d[|d| - 1] == c;
    }
    assert Canon(head + tail) == TrimTrailingDashes(d) by {
      DropTrailingSeparators(head, tail, true);
    }
  }

  lemma {:induction false} CanonAppendsWordAtEnd(head: string, q: string, w: string)
    requires head != [] && !IsSeparator(head[|head| - 1])
    requires q != [] && forall i :: 0 <= i < |q| ==> IsSeparator(q[i])
    requires IsSlugWord(w)
    ensures Canon(head + q + w) == DashRuns(head, true) + "-" + w
  {
    var e := DashRuns(head, true) + "-" + w;
    assert DashRuns(head + q + w, true) == e by {
      SlugWordHasNoSeparator(w);
      RunBecomesOneDash(head, q, w, true);
      NoSeparatorsUnchanged(w, false);
    }
    assert e[|e| - 1] != '-' by {
      assert e[|e| - 1] == w[|w| - 1];
    }
  }

  /** On cleaned text: a separator run and a word after the last word part
      add one dash and the word to the slug. */
  lemma {:induction false} CanonAppendsWord(k: string, p: string, w: string)
    requires HasWordPart(k)
    requires p != [] && forall i :: 0 <= i < |p| ==> IsSeparator(p[i])
    requires IsSlugWord(w)
    ensures Canon(k + p + w) == Canon(k) + "-" + w
  {
    var n := LastWordPart(k);
    var head, tail := k[..n + 1], k[n + 1..];
    assert k == head + tail;
    assert head[|head| - 1] == k[n];
    assert forall i :: 0 <= i < |tail| ==> IsSeparator(tail[i]) by {
      forall i | 0 <= i < |tail| ensures IsSeparator(tail[i]) {
        assert tail[i] == k[n + 1 + i];
      }
    }
    CanonAtWordEnd(head, tail);
    var q := tail + p;
    assert forall i :: 0 <= i < |q| ==> IsSeparator(q[i]) by {
      forall i | 0 <= i < |q| ensures IsSeparator(q[i]) {
        if i < |tail| {
          assert q[i] == tail[i];
        } else {
          assert q[i] == p[i - |tail|];
        }
      }
    }
    assert k + p + w == head + q + w;
    CanonAppendsWordAtEnd(head, q, w);
  }

  /** A title with a letter or digit, followed by a run of whitespace, `_` or
      `-` and one more lower-case word: the slug grows by one dash and that word.
      With `SlugFixedPoint` for a single word, this gives the slug of every title
      made of such words. */
  lemma {:induction false} SlugAppendsWord(t: string, p: string, w: string)
    requires HasAlnum(t)
    requires p != [] && forall i :: 0 <= i < |p| ==> IsSeparator(p[i])
    requires IsSlugWord(w)
    ensures GenerateSlug(t + p + w) == GenerateSlug(t) + "-" + w
  {
    var k := DropUnsafe(ToLower(t));
    SeparatorsThenWord(p, w);
    SlugOfPlainSuffix(t, p + w);
    ConcatAssoc(t, p, w);
    ConcatAssoc(k, p, w);
    AlnumSurvives(t);
    CanonAppendsWord(k, p, w);
    SlugCanonical(t);
  }

  lemma {:induction false} SeparatorsThenWord(p: string, w: string)
    requires forall i :: 0 <= i < |p| ==> IsSeparator(p[i])
    requires IsSlugWord(w)
    ensures Plain(p + w)
  {
    var x := p + w;
    forall i | 0 <= i < |x|
      ensures IsSeparator(x[i]) || IsAsciiLower(x[i]) || IsDigit(x[i])
    {
      if i < |p| {
        assert x[i] == p[i];
      } else {
        assert x[i] == w[i - |p|];
      }
    }
  }

  /** Plain text after a title is appended, unchanged, to what the slug is read from. */
  lemma {:induction false} SlugOfPlainSuffix(t: string, x: string)
    requires Plain(x)
    ensures GenerateSlug(t + x) == Canon(DropUnsafe(ToLower(t)) + x)
  {
    SlugCanonical(t + x);
    PlainSuffix(t, x);
  }

  // ---------------------------------------------------------------------
  // The submit handler

  /** The form's four fields. */
  datatype ArticleForm = ArticleForm(title: string, content: string, authorName: string, imageUrl: string)

  /** The record sent to the `articles` table: the form spread, then `slug`,
      `author_id` and `likes_count`. */
  datatype ArticleRow = ArticleRow(
    title: string, content: string, authorName: string, imageUrl: string,
    slug: string, authorId: string, likesCount: int)

  const LoginRequired := "Debes iniciar sesión para publicar artículos."
  const DuplicateTitle := "Ya existe un artículo con un título similar. Por favor intenta con otro título."
  const SaveFailed := "Error al guardar el artículo: "
  /** The code the database gives a unique-constraint violation. */
  const UniqueViolation := "23505"
  const LoginPath := "/admin/login"
  const ArticlesPath := "/admin/dashboard/articulos"

  /** The alert a refused insert shows: the duplicate-title text for a
      unique-constraint violation, the store's message otherwise. */
  function InsertFailedAlert(code: string, message: string): (alert: string)
    ensures code == UniqueViolation ==> alert == DuplicateTitle
    ensures code != UniqueViolation ==> alert == SaveFailed + message
  {
    if code == UniqueViolation then DuplicateTitle else SaveFailed + message
  }

  function Payload(f: ArticleForm, authorId: string): ArticleRow {
    ArticleRow(f.title, f.content, f.authorName, f.imageUrl, GenerateSlug(f.title), authorId, 0)
  }

  /** The inserted record carries the form unchanged, a well-formed slug of its
      title, the author and no likes. */
  lemma {:induction false} PayloadIsWellFormed(f: ArticleForm, authorId: string)
    ensures Payload(f, authorId).slug == GenerateSlug(f.title) && IsSlug(Payload(f, authorId).slug)
    ensures Payload(f, authorId).likesCount == 0 && Payload(f, authorId).authorId == authorId
    ensures Payload(f, authorId).title == f.title && Payload(f, authorId).content == f.content
  {
    SlugIsWellFormed(f.title);
  }

  class NewArticlePage {
    var loading: bool
    var form: ArticleForm
    /** The `insert` requests sent to the `articles` table, in order. */
    var inserts: seq<ArticleRow>
    var alerts: seq<string>
    /** The `router.push` targets, in order. */
    var navigations: seq<string>

    constructor ()
      ensures !loading && form == ArticleForm("", "", "", "")
      ensures inserts == [] && alerts == [] && navigations == []
    {
      loading := false;
      form := ArticleForm("", "", "", "");
      inserts := [];
      alerts := [];
      navigations := [];
    }

    /** The inputs' `onChange` handlers. */
    method Edit(f: ArticleForm)
      modifies this`form
      ensures form == f
    {
      form := f;
    }

    /** `handleSubmit`, given the signed-in user's id (`None` when there is none)
        and the store's answer to the insert. */
    method HandleSubmit(user: Option<string>, answer: Outcome)
      modifies this`loading, this`inserts, this`alerts, this`navigations
      ensures !loading && form == old(form)
      ensures user.None? ==>
        inserts == old(inserts) && alerts == old(alerts) + [LoginRequired] &&
        navigations == old(navigations) + [LoginPath]
      ensures user.Some? ==> inserts == old(inserts) + [Payload(old(form), user.value)]
      ensures user.Some? && answer.Ok? ==>
        alerts == old(alerts) && navigations == old(navigations) + [ArticlesPath]
      ensures user.Some? && answer.Failed? ==>
        navigations == old(navigations) &&
        alerts == old(alerts) + [InsertFailedAlert(answer.code, answer.message)]
    {
      var f := form;
      loading := true;
      if user.None? {
        alerts := alerts + [LoginRequired];
        navigations := navigations + [LoginPath];
      } else {
        inserts := inserts + [Payload(f, user.value)];
        match answer {
          case Ok =>
            navigations := navigations + [ArticlesPath];
          case Failed(code, message) =>
            alerts := alerts + [InsertFailedAlert(code, message)];
        }
      }
      loading := false;
    }
  }
}
