/**
 * The testimonial carousel: an index that a 6-second interval advances
 * modulo the number of testimonials and that the dots set directly.  No
 * interval runs and nothing renders while the list is empty.
 */
module Testimonials {
  import opened Types

  /** The interval callback's update. */
  function Advance(i: int, n: int): (r: int)
    requires n > 0
    ensures 0 <= r < n
    ensures 0 <= i < n - 1 ==> r == i + 1
    ensures i == n - 1 ==> r == 0
  {
    (i + 1) % n
  }

  /** `k` consecutive interval ticks. */
  function AdvanceTimes(i: int, n: int, k: nat): (r: int)
    requires n > 0
    ensures 0 <= i < n ==> 0 <= r < n
    decreases k
  {
    if k == 0 then i else Advance(AdvanceTimes(i, n, k - 1), n)
  }

  /** Before reaching the last index, ticks just count up. */
  lemma {:induction false} AdvanceWithoutWrap(i: int, n: int, k: nat)
    requires 0 <= i && i + k < n
    ensures AdvanceTimes(i, n, k) == i + k
    decreases k
  {
    if k > 0 {
      AdvanceWithoutWrap(i, n, k - 1);
    }
  }

  lemma {:induction false} AdvanceCompose(i: int, n: int, a: nat, b: nat)
    requires n > 0
    ensures AdvanceTimes(i, n, a + b) == AdvanceTimes(AdvanceTimes(i, n, a), n, b)
    decreases b
  {
    if b > 0 {
      AdvanceCompose(i, n, a, b - 1);
    }
  }

  /** n ticks bring the carousel back to where it started. */
  lemma FullCycle(i: int, n: int)
    requires 0 <= i < n
    ensures AdvanceTimes(i, n, n) == i
  {
    AdvanceWithoutWrap(i, n, n - 1 - i);
    assert AdvanceTimes(i, n, n - i) == 0;
    AdvanceWithoutWrap(0, n, i);
    AdvanceCompose(i, n, n - i, i);
  }

  class Carousel {
    var testimonials: seq<Testimonial>
    var currentIndex: int

    ghost predicate Valid()
      reads this
    {
      if testimonials == [] then currentIndex == 0 else 0 <= currentIndex < |testimonials|
    }

    /** The interval exists only while the list is non-empty. */
    predicate TimerRunning()
      reads this
    {
      |testimonials| > 0
    }

    constructor ()
      ensures Valid() && testimonials == [] && currentIndex == 0 && !TimerRunning()
    {
      testimonials := [];
      currentIndex := 0;
    }

    /** The one fetch resolving. */
    method Loaded(data: seq<Testimonial>)
      requires Valid() && testimonials == []
      modifies this
      ensures Valid() && testimonials == data && currentIndex == 0
      ensures TimerRunning() <==> data != []
    {
      testimonials := data;
    }

    method Tick()
      requires Valid() && TimerRunning()
      modifies this
      ensures Valid() && testimonials == old(testimonials)
      ensures currentIndex == Advance(old(currentIndex), |testimonials|)
    {
      currentIndex := (currentIndex + 1) % |testimonials|;
    }

    /** The dot for testimonial `idx`. */
    method ClickDot(idx: int)
      requires Valid() && 0 <= idx < |testimonials|
      modifies this
      ensures Valid() && testimonials == old(testimonials) && currentIndex == idx
    {
      currentIndex := idx;
    }

    /** What the section shows: nothing for an empty list, else the current testimonial. */
    function Rendered(): (r: Option<Testimonial>)
      requires Valid()
      reads this
      ensures r.None? <==> testimonials == []
      ensures r.Some? ==> r.value == testimonials[currentIndex]
    {
      if testimonials == [] then None else Some(testimonials[currentIndex])
    }
  }
}
