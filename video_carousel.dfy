/**
 * The home page's video carousel: the fetched videos shown three per slide,
 * arrows and indicators that move between slides, and a click that embeds one
 * video in place of its thumbnail.
 */
module VideoCarousel {
  import opened Wrappers
  import opened Store
  import opened Records
  import Cycle

  const VideosPerPage: nat := 3

  /** `Math.ceil(n / videosPerPage)`. */
  function TotalSlides(n: nat): (total: nat)
    ensures n == 0 ==> total == 0
    ensures n > 0 ==> total >= 1 && VideosPerPage * (total - 1) < n <= VideosPerPage * total
  {
    (n + VideosPerPage - 1) / VideosPerPage
  }

  /** The `nextSlide` update, `(prev + 1) % totalSlides`. */
  function NextSlide(s: nat, total: nat): (r: nat)
    requires total >= 1
    ensures r < total
    ensures s < total - 1 ==> r == s + 1
    ensures s == total - 1 ==> r == 0
  {
    WrapAround(s + 1, total);
    (s + 1) % total
  }

  /** The `prevSlide` update, `(prev - 1 + totalSlides) % totalSlides`. */
  function PrevSlide(s: nat, total: nat): (r: nat)
    requires total >= 1
    ensures r < total
    ensures 0 < s < total ==> r == s - 1
    ensures s == 0 ==> r == total - 1
  {
    WrapAround(s - 1 + total, total);
    (s - 1 + total) % total
  }

  /** The two remainders the arrows take: below the divisor the number
      itself, at the divisor zero, and in between one less than it. */
  lemma WrapAround(a: int, m: int)
    requires m >= 1 && 0 <= a
    ensures 0 <= a % m < m
    ensures a < m ==> a % m == a
    ensures m <= a < 2 * m ==> a % m == a - m
  {
  }

  /** Each arrow undoes the other. */
  lemma PrevUndoesNext(s: nat, total: nat)
    requires s < total
    ensures PrevSlide(NextSlide(s, total), total) == s
    ensures NextSlide(PrevSlide(s, total), total) == s
  {
  }

  /** The `nextSlide` arrow as a step on slide numbers; the arrows are
      rendered only when there are slides. */
  function NextStep(total: nat): nat -> nat {
    (s: nat) => if total >= 1 then NextSlide(s, total) else s
  }

  /** Pressing `nextSlide` once per slide comes back to the starting slide. */
  lemma NextAllTheWayRound(s: nat, total: nat)
    requires s < total
    ensures Cycle.Iterate(NextStep(total), s, total) == s
  {
    assert Cycle.Rotates(NextStep(total), total);
    Cycle.AllTheWayRound(NextStep(total), total, s);
  }

  /** `getCurrentVideos`: `videos.slice(start, start + 3)` with `start` the
      slide's first index; `slice` clamps both ends to the list. */
  function Page<T>(videos: seq<T>, s: nat): (r: seq<T>)
    ensures |r| <= VideosPerPage
    ensures s < TotalSlides(|videos|) ==> |r| >= 1
    ensures forall i :: 0 <= i < |r| ==> s * VideosPerPage + i < |videos| && r[i] == videos[s * VideosPerPage + i]
  {
    var n := |videos|;
    var start := if s * VideosPerPage <= n then s * VideosPerPage else n;
    var end := if s * VideosPerPage + VideosPerPage <= n then s * VideosPerPage + VideosPerPage else n;
    videos[start..end]
  }

  /** The first `k` slides, one after the other. */
  function Pages<T>(videos: seq<T>, k: nat): seq<T> {
    if k == 0 then [] else Pages(videos, k - 1) + Page(videos, k - 1)
  }

  lemma {:induction false} PagesArePrefix<T>(videos: seq<T>, k: nat)
    ensures var m := if k * VideosPerPage <= |videos| then k * VideosPerPage else |videos|;
      Pages(videos, k) == videos[..m]
  {
    if k > 0 {
      PagesArePrefix(videos, k - 1);
      var n := |videos|;
      var m0 := if (k - 1) * VideosPerPage <= n then (k - 1) * VideosPerPage else n;
      var m1 := if k * VideosPerPage <= n then k * VideosPerPage else n;
      assert Page(videos, k - 1) == videos[m0..m1];
      assert videos[..m0] + videos[m0..m1] == videos[..m1];
    }
  }

  /** The slides, in order, hold exactly the fetched videos. */
  lemma SlidesCoverVideos<T>(videos: seq<T>)
    ensures Pages(videos, TotalSlides(|videos|)) == videos
  {
    PagesArePrefix(videos, TotalSlides(|videos|));
  }

  /** `handleVideoClick`: the index in the whole list of card `i` of slide `s`. */
  function AbsoluteIndex(s: nat, i: nat): nat {
    s * VideosPerPage + i
  }

  /** A clicked card names a fetched video, the one the card shows. */
  lemma ClickedCardIsShown<T>(videos: seq<T>, s: nat, i: nat)
    requires i < |Page(videos, s)|
    ensures AbsoluteIndex(s, i) < |videos|
    ensures videos[AbsoluteIndex(s, i)] == Page(videos, s)[i]
  {
  }

  class VideosSection {
    var videos: seq<Video>
    var loading: bool
    var activeVideoIndex: Option<nat>
    var currentSlide: nat

    /** The slide is one that exists once there are videos, and nothing moves
        before the fetch completes. */
    ghost predicate Valid()
      reads this
    {
      (currentSlide == 0 || currentSlide < TotalSlides(|videos|)) &&
      (loading ==> currentSlide == 0 && activeVideoIndex.None?)
    }

    constructor ()
      ensures Valid()
      ensures videos == [] && loading && activeVideoIndex.None? && currentSlide == 0
    {
      videos := [];
      loading := true;
      activeVideoIndex := None;
      currentSlide := 0;
    }

    function Total(): nat
      reads this
    {
      TotalSlides(|videos|)
    }

    /** `getCurrentVideos()`. */
    function CurrentVideos(): seq<Video>
      reads this
    {
      Page(videos, currentSlide)
    }

    /** Whether card `index` of the current slide shows the embedded player. */
    function IsActive(index: nat): bool
      reads this
    {
      activeVideoIndex == Some(AbsoluteIndex(currentSlide, index))
    }

    /** The mount effect's answer: on an error the list stays as it was. */
    method Fetched(answer: Fetch<Video>)
      requires Valid() && loading
      modifies this`videos, this`loading
      ensures Valid() && !loading
      ensures videos == AfterFetch(old(videos), answer)
    {
      videos := AfterFetch(videos, answer);
      loading := false;
    }

    /** The right arrow, rendered only when there is more than one slide. */
    method NextSlideClicked()
      requires Valid() && !loading && Total() > 1
      modifies this`currentSlide, this`activeVideoIndex
      ensures Valid()
      ensures currentSlide == NextSlide(old(currentSlide), Total())
      ensures activeVideoIndex.None?
    {
      currentSlide := NextSlide(currentSlide, Total());
      activeVideoIndex := None;
    }

    /** The left arrow, rendered only when there is more than one slide. */
    method PrevSlideClicked()
      requires Valid() && !loading && Total() > 1
      modifies this`currentSlide, this`activeVideoIndex
      ensures Valid()
      ensures currentSlide == PrevSlide(old(currentSlide), Total())
      ensures activeVideoIndex.None?
    {
      currentSlide := PrevSlide(currentSlide, Total());
      activeVideoIndex := None;
    }

    /** Indicator `index`; one is rendered per slide. */
    method IndicatorClicked(index: nat)
      requires Valid() && !loading && Total() > 1 && index < Total()
      modifies this`currentSlide, this`activeVideoIndex
      ensures Valid()
      ensures currentSlide == index && activeVideoIndex.None?
    {
      currentSlide := index;
      activeVideoIndex := None;
    }

    /** A click on the thumbnail of card `index` of the current slide. */
    method VideoClicked(index: nat)
      requires Valid() && !loading && index < |CurrentVideos()|
      modifies this`activeVideoIndex
      ensures Valid()
      ensures activeVideoIndex == Some(AbsoluteIndex(currentSlide, index))
      ensures IsActive(index)
      ensures activeVideoIndex.value < |videos| && videos[activeVideoIndex.value] == Page(videos, currentSlide)[index]
    {
      ClickedCardIsShown(videos, currentSlide, index);
      activeVideoIndex := Some(AbsoluteIndex(currentSlide, index));
    }
  }
}
