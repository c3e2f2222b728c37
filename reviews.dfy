/** `src/components/ReviewsCarousel.tsx`: the auto-advancing index, the
    three-review window, the dots and the hover pause. */
module ReviewsCarousel {
  import opened Common

  /** A review; the text, dates, avatar and rating are presentation only. */
  datatype Review = Review(id: int, name: string, model: string)

  const Reviews: seq<Review> := [
    Review(1, "Marcus Rodriguez", "Viper X"),
    Review(2, "Jennifer Kim", "Trackhawk"),
    Review(3, "David Chen", "Nighthawk"),
    Review(4, "Emma Rodriguez", "Viper X"),
    Review(5, "David Kim", "Trackhawk"),
    Review(6, "Olivia Parker", "Trackhawk")
  ]

  /** How many reviews are shown at once. */
  const WindowSize := 3

  /** `(prevIndex + 1) % reviews.length`. */
  function Advance(i: nat, n: nat): (r: nat)
    requires n > 0
    ensures r < n
    ensures i < n ==> r == if i + 1 == n then 0 else i + 1
  {
    (i + 1) % n
  }

  /** The reviews the window shows: the i-th is `reviews[(active + i) % n]`. */
  function Window(reviews: seq<Review>, active: nat): seq<Review>
    requires |reviews| > 0
  {
    var n := |reviews|;
    [reviews[active % n], reviews[(active + 1) % n], reviews[(active + 2) % n]]
  }

  /** `visibleReviews`: the `for` loop pushing one review per slot. */
  method VisibleReviews(reviews: seq<Review>, active: nat) returns (result: seq<Review>)
    requires |reviews| > 0
    ensures |result| == WindowSize
    ensures forall i :: 0 <= i < WindowSize ==> result[i] == reviews[(active + i) % |reviews|]
    ensures result == Window(reviews, active)
  {
    result := [];
    var i := 0;
    while i < WindowSize
      invariant 0 <= i <= WindowSize
      invariant |result| == i
      invariant forall k :: 0 <= k < i ==> result[k] == reviews[(active + k) % |reviews|]
    {
      var index := (active + i) % |reviews|;
      result := result + [reviews[index]];
      i := i + 1;
    }
  }

  /** With at least three reviews, none of them repeated, the window shows
      three different reviews. */
  lemma WindowDistinct(reviews: seq<Review>, active: nat)
    requires |reviews| >= WindowSize && Distinct(reviews) && active < |reviews|
    ensures Distinct(Window(reviews, active))
  {
    var n := |reviews|;
    ModSmall(active, n);
    ModSmall(active + 1, n);
    ModSmall(active + 2, n);
  }

  lemma ShippedWindowDistinct(active: nat)
    requires active < |Reviews|
    ensures Distinct(Window(Reviews, active))
  {
    WindowDistinct(Reviews, active);
  }

  // ---------------------------------------------------------------------------
  // The dots

  /** The dot highlight as written: the dot's position lies in
      `[activeIndex, activeIndex + 3)`, with no wrap-around. */
  predicate DotHighlighted(index: nat, active: nat) {
    active <= index < active + WindowSize
  }

  /** The dot's review is one of the three in the window. */
  predicate DotShown(index: nat, active: nat, n: nat)
    requires n > 0
  {
    index == active % n || index == (active + 1) % n || index == (active + 2) % n
  }

  /** The dot highlight that follows the window round the end of the list:
      the distance from the active position forwards to the dot, counted
      modulo the number of reviews, is below three. */
  predicate DotInWindow(index: nat, active: nat, n: nat)
    requires n > 0
  {
    (index + n - active) % n < WindowSize
  }

  /** A dot is lit by the wrapping rule exactly when its review is shown. */
  lemma DotInWindowIffShown(index: nat, active: nat, n: nat)
    requires WindowSize <= n && index < n && active < n
    ensures DotInWindow(index, active, n) <==> DotShown(index, active, n)
  {
    ModSmall(index + n - active, n);
    ModSmall(active, n);
    ModSmall(active + 1, n);
    ModSmall(active + 2, n);
  }

  /** Away from the end of the list the written rule is right: it lights a
      dot exactly when its review is shown. */
  lemma DotRulesAgreeAwayFromEnd(index: nat, active: nat, n: nat)
    requires index < n && active + WindowSize <= n
    ensures DotHighlighted(index, active) <==> DotShown(index, active, n)
  {
    ModSmall(active, n);
    ModSmall(active + 1, n);
    ModSmall(active + 2, n);
  }

  /** With the six shipped reviews and the fifth one active, the window shows
      the fifth, sixth and first reviews, but only two dots are lit, and the
      first review's dot is dark although its review is shown. */
  lemma DotsMissWrappedReview()
    ensures Window(Reviews, 4) == [Reviews[4], Reviews[5], Reviews[0]]
    ensures forall index :: 0 <= index < |Reviews| ==> (DotHighlighted(index, 4) <==> index == 4 || index == 5)
    ensures DotShown(0, 4, |Reviews|) && !DotHighlighted(0, 4)
    ensures DotInWindow(0, 4, |Reviews|)
  {
  }

  // ---------------------------------------------------------------------------
  // The component

  class Carousel {
    var activeIndex: nat
    var isPaused: bool
    const pauseOnHover: bool

    predicate Valid()
      reads this
    {
      activeIndex < |Reviews|
    }

    constructor (pauseOnHover: bool)
      ensures Valid() && activeIndex == 0 && !isPaused && this.pauseOnHover == pauseOnHover
    {
      activeIndex := 0;
      isPaused := false;
      this.pauseOnHover := pauseOnHover;
    }

    /** One interval tick: the index moves on only while not paused. */
    method Tick()
      requires Valid()
      modifies this`activeIndex
      ensures Valid()
      ensures activeIndex == if old(isPaused) then old(activeIndex) else Advance(old(activeIndex), |Reviews|)
    {
      if !isPaused {
        activeIndex := (activeIndex + 1) % |Reviews|;
      }
    }

    /** `onMouseEnter`: pauses only when `pauseOnHover` is set. */
    method MouseEnter()
      modifies this`isPaused
      ensures isPaused == (pauseOnHover || old(isPaused))
    {
      if pauseOnHover {
        isPaused := true;
      }
    }

    /** `onMouseLeave`: resumes only when `pauseOnHover` is set. */
    method MouseLeave()
      modifies this`isPaused
      ensures isPaused == (!pauseOnHover && old(isPaused))
    {
      if pauseOnHover {
        isPaused := false;
      }
    }

    /** Clicking the dot for review `index`. */
    method ClickDot(index: nat)
      requires index < |Reviews|
      modifies this`activeIndex
      ensures Valid() && activeIndex == index
    {
      activeIndex := index;
    }
  }
}
