/**
 * The FAQ section: the first five featured questions, shown as an
 * accordion in which at most one answer is open.
 */
module Faq {
  import opened Types
  import Api

  const MaxShown := 5

  /** `filter(f => f.is_featured)` */
  function Featured(data: seq<FaqItem>): (r: seq<FaqItem>)
    ensures |r| <= |data|
  {
    if data == [] then []
    else (if data[0].isFeatured then [data[0]] else []) + Featured(data[1..])
  }

  lemma {:induction false} FeaturedMembers(data: seq<FaqItem>)
    ensures forall f :: f in Featured(data) <==> f in data && f.isFeatured
    ensures forall f :: multiset(Featured(data))[f] == if f.isFeatured then multiset(data)[f] else 0
    ensures IsSubsequence(Featured(data), data)
  {
    if data != [] {
      FeaturedMembers(data[1..]);
      var rest := Featured(data[1..]);
      assert data == [data[0]] + data[1..];
      assert multiset(data) == multiset([data[0]]) + multiset(data[1..]);
      if data[0].isFeatured {
        assert Featured(data) == [data[0]] + rest;
        assert multiset(Featured(data)) == multiset([data[0]]) + multiset(rest);
        assert Featured(data)[1..] == rest;
      } else {
        assert Featured(data) == rest;
        SubsequenceOfTail(rest, data);
      }
    }
  }

  /** `filter(is_featured).slice(0, 5)`: the list the section shows. */
  function ShownFaqs(data: seq<FaqItem>): (r: seq<FaqItem>)
    ensures |r| <= MaxShown && |r| <= |data|
  {
    var featured := Featured(data);
    if |featured| <= MaxShown then featured else featured[..MaxShown]
  }

  lemma {:induction false} PrefixIsSubsequence<T>(p: seq<T>, s: seq<T>)
    requires p <= s
    ensures IsSubsequence(p, s)
    decreases |s|
  {
    if p != [] {
      PrefixIsSubsequence(p[1..], s[1..]);
    }
  }

  lemma {:induction false} SubsequenceTrans<T>(a: seq<T>, b: seq<T>, c: seq<T>)
    requires IsSubsequence(a, b) && IsSubsequence(b, c)
    ensures IsSubsequence(a, c)
    decreases |c|
  {
    if a != [] && c != [] {
      if b[0] == c[0] {
        if a[0] == b[0] {
          SubsequenceTrans(a[1..], b[1..], c[1..]);
        } else {
          SubsequenceTrans(a, b[1..], c[1..]);
        }
      } else {
        SubsequenceTrans(a, b, c[1..]);
        SubsequenceOfTail(a, c);
      }
    }
  }

  /**
   * Every shown FAQ is featured, five are shown or all the featured ones
   * when there are fewer, they appear in source order, and they are the
   * first featured ones: a featured FAQ is left out only when five are
   * already shown.
   */
  lemma ShownFaqsSpec(data: seq<FaqItem>)
    ensures |ShownFaqs(data)| == if |Featured(data)| < MaxShown then |Featured(data)| else MaxShown
    ensures forall f :: f in ShownFaqs(data) ==> f.isFeatured && f in data
    ensures IsSubsequence(ShownFaqs(data), data)
    ensures ShownFaqs(data) <= Featured(data)
    ensures forall f :: f in data && f.isFeatured && f !in ShownFaqs(data) ==> |ShownFaqs(data)| == MaxShown
  {
    FeaturedMembers(data);
    var featured := Featured(data);
    var shown := ShownFaqs(data);
    assert shown <= featured;
    forall f | f in shown ensures f in featured {
      var k :| 0 <= k < |shown| && shown[k] == f;
      assert featured[k] == f;
    }
    PrefixIsSubsequence(shown, featured);
    SubsequenceTrans(shown, featured, data);
  }

  /** With the mock data, the section shows the four featured questions, ids 1 to 4. */
  lemma MockFaqsShown()
    ensures ShownFaqs(Api.MockFaqs) == Api.MockFaqs[..4]
    ensures |ShownFaqs(Api.MockFaqs)| == 4
  {
    var data := Api.MockFaqs;
    assert forall i :: 0 <= i < 4 ==> data[i].isFeatured;
    assert forall i :: 4 <= i < |data| ==> !data[i].isFeatured;
    FeaturedOfSplit(data, 4);
  }

  /** A list whose first k FAQs are featured and the rest not has exactly those k featured. */
  lemma {:induction false} FeaturedOfSplit(data: seq<FaqItem>, k: nat)
    requires k <= |data|
    requires forall i :: 0 <= i < k ==> data[i].isFeatured
    requires forall i :: k <= i < |data| ==> !data[i].isFeatured
    ensures Featured(data) == data[..k]
  {
    if data != [] {
      FeaturedOfSplit(data[1..], if k == 0 then 0 else k - 1);
      if k > 0 {
        assert data[..k] == [data[0]] + data[1..][..k - 1];
      }
    }
  }

  /** The accordion click: the open item closes, any other item opens in its place. */
  function ToggleOpen(open: Option<int>, index: int): (r: Option<int>)
    ensures r == Some(index) <==> open != Some(index)
    ensures r.Some? ==> r.value == index
  {
    if open == Some(index) then None else Some(index)
  }

  /** A second click on the same item undoes the first when it was open or nothing was. */
  lemma ToggleTwice(open: Option<int>, index: int)
    requires open == Some(index) || open == None
    ensures ToggleOpen(ToggleOpen(open, index), index) == open
  {
  }

  class Accordion {
    var faqs: seq<FaqItem>
    var openIndex: Option<int>

    /** Item 0 starts open, before any FAQ has arrived. */
    constructor ()
      ensures faqs == [] && openIndex == Some(0)
    {
      faqs := [];
      openIndex := Some(0);
    }

    /** The fetch resolving. */
    method Loaded(data: seq<FaqItem>)
      modifies this
      ensures faqs == ShownFaqs(data) && openIndex == old(openIndex)
    {
      faqs := ShownFaqs(data);
    }

    predicate IsOpen(index: int)
      reads this
    {
      openIndex == Some(index)
    }

    /** The header button of item `index`; afterwards at most one item is open. */
    method Click(index: int)
      requires 0 <= index < |faqs|
      modifies this
      ensures openIndex == ToggleOpen(old(openIndex), index)
      ensures IsOpen(index) <==> !old(IsOpen(index))
      ensures forall j :: j != index ==> !IsOpen(j)
      ensures faqs == old(faqs)
    {
      openIndex := ToggleOpen(openIndex, index);
    }
  }
}
