/** The home page's slider over the first five blogs: a cursor moved by buttons, dots and a timer. */
module FeaturedSlider {
  import opened Api
  import opened Seqs
  import opened Wrappers

  const MaxFeatured: nat := 5

  /** `blogs.slice(0, 5)`: the first five blogs in order, or all of them when there are fewer. */
  function Featured(blogs: seq<Blog>): (r: seq<Blog>)
    ensures |r| == if |blogs| < MaxFeatured then |blogs| else MaxFeatured
    ensures r == blogs[..|r|]
  {
    Take(blogs, MaxFeatured)
  }

  /** nextSlide's step `(prev + 1) % n`: one slide on, from the last back to the first. */
  function Next(i: int, n: int): (r: int)
    requires 0 <= i < n
    ensures 0 <= r < n
    ensures r == if i == n - 1 then 0 else i + 1
  {
    (i + 1) % n
  }

  /** prevSlide's step `(prev - 1 + n) % n`: one slide back, from the first to the last. */
  function Prev(i: int, n: int): (r: int)
    requires 0 <= i < n
    ensures 0 <= r < n
    ensures r == if i == 0 then n - 1 else i - 1
  {
    (i - 1 + n) % n
  }

  /** Back after forward, and forward after back, return to the same slide. */
  lemma PrevNextInverse(i: int, n: int)
    requires 0 <= i < n
    ensures Prev(Next(i, n), n) == i
    ensures Next(Prev(i, n), n) == i
  {
  }

  /** The slide shown after `k` steps forward (button presses or timer ticks). */
  function Advance(i: int, n: int, k: nat): (r: int)
    requires 0 <= i < n
    ensures 0 <= r < n
  {
    if k == 0 then i else Next(Advance(i, n, k - 1), n)
  }

  /** Short of the last slide, `k` steps forward simply add `k`. */
  lemma {:induction false} AdvanceWithin(i: int, n: int, k: nat)
    requires 0 <= i && i + k < n
    ensures Advance(i, n, k) == i + k
  {
    if k > 0 {
      AdvanceWithin(i, n, k - 1);
    }
  }

  /** Steps compose: `a` steps and then `b` more are `a + b` steps. */
  lemma {:induction false} AdvanceSplit(i: int, n: int, a: nat, b: nat)
    requires 0 <= i < n
    ensures Advance(i, n, a + b) == Advance(Advance(i, n, a), n, b)
  {
    if b > 0 {
      AdvanceSplit(i, n, a, b - 1);
    }
  }

  /** After as many steps as there are slides, the slider is back where it started. */
  lemma {:induction false} FullCycle(i: int, n: int)
    requires 0 <= i < n
    ensures Advance(i, n, n) == i
  {
    AdvanceWithin(i, n, n - i - 1);
    assert Advance(i, n, n - i) == 0;
    AdvanceSplit(i, n, n - i, i);
    AdvanceWithin(0, n, i);
  }

  class Slider {
    /** `featuredBlogs`, derived from the `blogs` prop on every render. */
    var featured: seq<Blog>
    /** `currentSlide`. */
    var current: int

    /** The cursor points at a featured blog whenever there is one. */
    predicate Valid()
      reads this
    {
      |featured| <= MaxFeatured && (|featured| > 0 ==> 0 <= current < |featured|)
    }

    constructor (blogs: seq<Blog>)
      ensures featured == Featured(blogs) && current == 0 && Valid()
    {
      featured := Featured(blogs);
      current := 0;
    }

    /**
     * A render with a new `blogs` prop: the featured list is taken again, and `currentSlide`
     * is NOT reset, so the cursor stays valid only if it still points into the new list.
     */
    method ReceiveBlogs(blogs: seq<Blog>)
      modifies this
      ensures featured == Featured(blogs) && current == old(current)
      ensures old(0 <= current) ==> (Valid() <==> |featured| == 0 || current < |featured|)
    {
      featured := Featured(blogs);
    }

    /** The right-arrow button. */
    method NextSlide()
      requires Valid() && |featured| > 0
      modifies this
      ensures Valid() && featured == old(featured)
      ensures current == Next(old(current), |featured|)
    {
      current := (current + 1) % |featured|;
    }

    /** The left-arrow button. */
    method PrevSlide()
      requires Valid() && |featured| > 0
      modifies this
      ensures Valid() && featured == old(featured)
      ensures current == Prev(old(current), |featured|)
    {
      current := (current - 1 + |featured|) % |featured|;
    }

    /** The five-second timer: the same step as the right-arrow button. */
    method Tick()
      requires Valid() && |featured| > 0
      modifies this
      ensures Valid() && featured == old(featured)
      ensures current == Next(old(current), |featured|)
    {
      current := (current + 1) % |featured|;
    }

    /** A click on dot `k`. */
    method ClickDot(k: int)
      requires 0 <= k < |featured| && |featured| <= MaxFeatured
      modifies this
      ensures Valid() && featured == old(featured) && current == k
      ensures Dots() == seq(|featured|, j => j == k)
    {
      current := k;
    }

    /** Which dots are drawn in the active style: `index === currentSlide`. */
    function Dots(): (d: seq<bool>)
      reads this
      ensures |d| == |featured|
      ensures forall j :: 0 <= j < |d| ==> (d[j] <==> j == current)
    {
      var c := current;
      seq(|featured|, j => j == c)
    }

    /** What the slider renders: nothing for an empty list, otherwise the current blog. */
    function View(): (v: Option<Blog>)
      reads this
      requires Valid()
      ensures v.None? <==> |featured| == 0
      ensures v.Some? ==> v.value == featured[current]
    {
      if |featured| == 0 then None else Some(featured[current])
    }
  }

  /** With at least one blog, exactly one dot is active. */
  lemma OneActiveDot(s: Slider)
    requires s.Valid() && |s.featured| > 0
    ensures exists j :: 0 <= j < |s.Dots()| && s.Dots()[j]
    ensures forall i, j :: 0 <= i < |s.Dots()| && 0 <= j < |s.Dots()| && s.Dots()[i] && s.Dots()[j] ==> i == j
  {
    assert s.Dots()[s.current];
  }
}
