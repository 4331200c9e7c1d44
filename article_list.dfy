/**
 * The public article list: the title shown as an image's alternative text with
 * its HTML tags removed, and the search box over titles and authors.
 */
module ArticleList {
  import opened JsText
  import opened SeqOps
  import opened Records

  /** Some `<` is followed, somewhere later, by a `>`: a span the tag pattern matches. */
  predicate HasTag(s: string) {
    exists i, j :: 0 <= i < j < |s| && s[i] == '<' && s[j] == '>'
  }

  /** The index of the first `>` at or after `i`. */
  function CloseAt(s: string, i: nat): (j: nat)
    requires i <= |s| && '>' in s[i..]
    ensures i <= j < |s| && s[j] == '>'
    ensures forall k :: i <= k < j ==> s[k] != '>'
    decreases |s| - i
  {
    if s[i] == '>' then i else CloseAt(s, i + 1)
  }

  lemma HasTagCons(c: char, t: string)
    ensures HasTag([c] + t) <==> HasTag(t) || (c == '<' && '>' in t)
  {
    var s := [c] + t;
    if HasTag(s) {
      var i, j :| 0 <= i < j < |s| && s[i] == '<' && s[j] == '>';
      if i == 0 {
        assert t[j - 1] == '>';
      } else {
        assert t[i - 1] == '<' && t[j - 1] == '>';
      }
    }
    if HasTag(t) {
      var i, j :| 0 <= i < j < |t| && t[i] == '<' && t[j] == '>';
      assert s[i + 1] == '<' && s[j + 1] == '>';
    }
    if c == '<' && '>' in t {
      var j :| 0 <= j < |t| && t[j] == '>';
      assert s[0] == '<' && s[j + 1] == '>';
    }
  }

  /** `title.replace(/<[^>]*>/g, '')`: scanning left to right, each `<` that
      has a `>` after it is deleted together with everything up to and
      including the first such `>`; a `<` with no `>` after it stays. */
  function StripTags(s: string): (r: string)
    ensures |r| <= |s|
    ensures forall c :: c in r ==> c in s
    ensures !HasTag(r)
    decreases |s|
  {
    if s == [] then []
    else if s[0] == '<' && '>' in s[1..] then
      var j := CloseAt(s, 1);
      assert forall c :: c in s[j + 1..] ==> c in s;
      StripTags(s[j + 1..])
    else
      var tail := StripTags(s[1..]);
      HasTagCons(s[0], tail);
      [s[0]] + tail
  }

  /** The stripped title is the input with characters deleted, in order. */
  lemma {:induction false} StripIsSubsequence(s: string)
    ensures IsSubsequence(StripTags(s), s)
    decreases |s|
  {
    if s != [] {
      if s[0] == '<' && '>' in s[1..] {
        var j := CloseAt(s, 1);
        StripIsSubsequence(s[j + 1..]);
        SubsequenceOfSuffix(StripTags(s), s, j + 1);
      } else {
        StripIsSubsequence(s[1..]);
        var r := StripTags(s);
        assert r[0] == s[0] && r[1..] == StripTags(s[1..]);
      }
    }
  }

  /** A title without a tag, in particular one without `<`, is shown unchanged. */
  lemma {:induction false} StripWithoutTag(s: string)
    requires !HasTag(s)
    ensures StripTags(s) == s
    decreases |s|
  {
    if s != [] {
      HasTagCons(s[0], s[1..]);
      assert [s[0]] + s[1..] == s;
      StripWithoutTag(s[1..]);
    }
  }

  /** The first tag is deleted and nothing else: text before the first `<`
      is kept, the span from that `<` to the first `>` after it goes, and
      stripping resumes after it. With `StripWithoutTag` this determines the
      result for every title. */
  lemma {:induction false} StripTagSpan(a: string, t: string, b: string)
    requires '<' !in a && '>' !in t
    ensures StripTags(a + ['<'] + t + ['>'] + b) == a + StripTags(b)
    decreases |a|
  {
    var s := a + ['<'] + t + ['>'] + b;
    if a == [] {
      assert s == ['<'] + t + ['>'] + b;
      assert CloseAt(s, 1) == |t| + 1 by {
        assert s[|t| + 1] == '>';
        CloseAtFirst(s, 1, |t| + 1);
      }
      assert s[|t| + 2..] == b;
    } else {
      var u := a[1..] + ['<'] + t + ['>'] + b;
      assert StripTags(s) == [a[0]] + StripTags(u) by {
        assert s[0] == a[0] && a[0] != '<';
        assert s[1..] == u;
      }
      StripTagSpan(a[1..], t, b);
      assert [a[0]] + a[1..] == a;
      ConcatAssoc([a[0]], a[1..], StripTags(b));
    }
  }

  /** `CloseAt` finds the first `>`. */
  lemma CloseAtFirst(s: string, i: nat, j: nat)
    requires i <= j < |s| && s[j] == '>'
    requires forall k :: i <= k < j ==> s[k] != '>'
    ensures '>' in s[i..] && CloseAt(s, i) == j
  {
    assert s[i..][j - i] == '>';
  }

  /** A tag in the middle of a title is removed and the text on both sides is
      joined. */
  lemma StripExample()
    ensures StripTags("a<b>c") == "ac"
  {
    assert "a<b>c" == "a" + ['<'] + "b" + ['>'] + "c";
    StripTagSpan("a", "b", "c");
    StripWithoutTag("c");
  }

  /** Stripping a title that has a tag makes it strictly shorter. */
  lemma {:induction false} StripShortens(s: string)
    requires HasTag(s)
    ensures |StripTags(s)| < |s|
    decreases |s|
  {
    HasTagCons(s[0], s[1..]);
    assert [s[0]] + s[1..] == s;
    if !(s[0] == '<' && '>' in s[1..]) {
      StripShortens(s[1..]);
    }
  }

  /** A title is shown unchanged exactly when it has no tag. */
  lemma StripFixedPoint(s: string)
    ensures StripTags(s) == s <==> !HasTag(s)
  {
    if HasTag(s) {
      StripShortens(s);
    } else {
      StripWithoutTag(s);
    }
  }

  /** Stripping twice is stripping once. */
  lemma StripIdempotent(s: string)
    ensures StripTags(StripTags(s)) == StripTags(s)
  {
    StripWithoutTag(StripTags(s));
  }

  /** The search box's test: the title or the author contains the query,
      ignoring ASCII case. */
  predicate Matches(a: Article, query: string) {
    IncludesIgnoringCase(a.title, query) || IncludesIgnoringCase(a.authorName, query)
  }

  /** The articles the search box keeps: the title or the author contains the
      query, ignoring ASCII case, in fetched order. */
  function SearchArticles(articles: seq<Article>, query: string): (r: seq<Article>)
    ensures forall a :: a in r <==>
      a in articles && (IncludesIgnoringCase(a.title, query) || IncludesIgnoringCase(a.authorName, query))
    ensures IsSubsequence(r, articles)
    ensures forall a :: multiset(r)[a] == if Matches(a, query) then multiset(articles)[a] else 0
  {
    var keep := (a: Article) => Matches(a, query);
    FilterIsSubsequence(articles, keep);
    FilterMultiplicity(articles, keep);
    Filter(articles, keep)
  }

  /** The query the "Ver todos los artículos" button sets. */
  const ShowAllQuery := ""

  /** An empty query, the initial one and the one the button sets, keeps every
      article in order. */
  lemma EmptySearchKeepsAll(articles: seq<Article>)
    ensures SearchArticles(articles, ShowAllQuery) == articles
  {
    forall i | 0 <= i < |articles| ensures IncludesIgnoringCase(articles[i].title, "") {
      EmptyQueryMatches(articles[i].title);
    }
    FilterAll(articles, (a: Article) => Matches(a, ShowAllQuery));
  }
}
