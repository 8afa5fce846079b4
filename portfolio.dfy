/**
 * The portfolio section: the category filter over the fetched items, and
 * the lightbox that shows one filtered item at a time, driven by clicks,
 * the arrow and Escape keys, and a debounced mouse wheel.
 */
module Portfolio {
  import opened Types

  /** The four category buttons, in display order. */
  const Categories: seq<string> := ["All", "Wedding", "Pre-Wedding", "Films"]

  /**
   * The per-item test of every filter except "All": "Films" wants videos,
   * every other filter wants photos, and the photo's category must equal the
   * filter unless the filter is "Wedding".
   */
  predicate Keeps(filter: string, item: PortfolioItem)
    ensures filter == "Films" ==> (Keeps(filter, item) <==> item.kind == Video)
    ensures filter == "Wedding" ==> (Keeps(filter, item) <==> item.kind == Photo)
    ensures filter != "Films" && filter != "Wedding" ==>
      (Keeps(filter, item) <==> item.kind == Photo && item.category == filter)
  {
    && item.kind == (if filter == "Films" then Video else Photo)
    && (filter == "Films" || item.category == filter || filter == "Wedding")
  }

  function KeepMatching(items: seq<PortfolioItem>, filter: string): (r: seq<PortfolioItem>)
    ensures |r| <= |items|
  {
    if items == [] then []
    else (if Keeps(filter, items[0]) then [items[0]] else []) + KeepMatching(items[1..], filter)
  }

  /** The grid's contents under the active filter. */
  function FilteredItems(items: seq<PortfolioItem>, filter: string): (r: seq<PortfolioItem>)
    ensures |r| <= |items|
  {
    if filter == "All" then items else KeepMatching(items, filter)
  }

  lemma {:induction false} KeepMatchingMembers(items: seq<PortfolioItem>, filter: string)
    ensures forall x :: x in KeepMatching(items, filter) <==> x in items && Keeps(filter, x)
    ensures forall x ::
      multiset(KeepMatching(items, filter))[x] == if Keeps(filter, x) then multiset(items)[x] else 0
    ensures IsSubsequence(KeepMatching(items, filter), items)
  {
    if items != [] {
      KeepMatchingMembers(items[1..], filter);
      var rest := KeepMatching(items[1..], filter);
      assert items == [items[0]] + items[1..];
      assert multiset(items) == multiset([items[0]]) + multiset(items[1..]);
      if Keeps(filter, items[0]) {
        assert KeepMatching(items, filter) == [items[0]] + rest;
        assert multiset(KeepMatching(items, filter)) == multiset([items[0]]) + multiset(rest);
        assert KeepMatching(items, filter)[1..] == rest;
      } else {
        assert KeepMatching(items, filter) == rest;
        SubsequenceOfTail(rest, items);
      }
    }
  }

  /**
   * "All" shows the items unchanged; every filter shows an order-preserving
   * subsequence of the items, holding exactly the items the filter keeps,
   * each as many times as it occurs among the items.
   */
  lemma FilterSpec(items: seq<PortfolioItem>, filter: string)
    ensures filter == "All" ==> FilteredItems(items, filter) == items
    ensures IsSubsequence(FilteredItems(items, filter), items)
    ensures filter != "All" ==>
      forall x :: x in FilteredItems(items, filter) <==> x in items && Keeps(filter, x)
    ensures filter != "All" ==> forall x ::
      multiset(FilteredItems(items, filter))[x] == if Keeps(filter, x) then multiset(items)[x] else 0
  {
    KeepMatchingMembers(items, filter);
    SubsequenceOfSelf(items);
  }

  lemma FilmsKeepsVideos(items: seq<PortfolioItem>)
    ensures forall x :: x in FilteredItems(items, "Films") <==> x in items && x.kind == Video
  {
    KeepMatchingMembers(items, "Films");
  }

  lemma WeddingKeepsAllPhotos(items: seq<PortfolioItem>)
    ensures forall x :: x in FilteredItems(items, "Wedding") <==> x in items && x.kind == Photo
  {
    KeepMatchingMembers(items, "Wedding");
  }

  lemma PreWeddingKeepsItsPhotos(items: seq<PortfolioItem>)
    ensures forall x :: x in FilteredItems(items, "Pre-Wedding") <==>
      x in items && x.kind == Photo && x.category == "Pre-Wedding"
  {
    KeepMatchingMembers(items, "Pre-Wedding");
  }

  /** handleNext's update: one step forward, the last index wrapping to 0. */
  function NextIndex(i: int, n: int): (r: int)
    ensures 0 <= i < n - 1 ==> r == i + 1
    ensures i == n - 1 ==> r == 0
    ensures 0 <= i < n ==> 0 <= r < n
  {
    if i < n - 1 then i + 1 else 0
  }

  /** handlePrev's update: one step back, index 0 wrapping to the last. */
  function PrevIndex(i: int, n: int): (r: int)
    ensures 0 < i < n ==> r == i - 1
    ensures i == 0 ==> r == n - 1
    ensures 0 <= i < n ==> 0 <= r < n
  {
    if i > 0 then i - 1 else n - 1
  }

  /** Next and previous undo each other on every in-range index. */
  lemma NextPrevInverse(i: int, n: int)
    requires 0 <= i < n
    ensures PrevIndex(NextIndex(i, n), n) == i
    ensures NextIndex(PrevIndex(i, n), n) == i
  {
  }

  /**
   * The lightbox state of the section.  `selected` is selectedIndex
   * (None while closed); `wheelPending` is the wheel debounce, set by a wheel
   * event and cleared when its 300 ms timer fires.
   */
  class Lightbox {
    const items: seq<PortfolioItem>
    var filter: string
    var selected: Option<int>
    var wheelPending: bool

    function Shown(): seq<PortfolioItem>
      reads this
    {
      FilteredItems(items, filter)
    }

    ghost predicate Valid()
      reads this
    {
      selected.Some? ==> 0 <= selected.value < |Shown()|
    }

    /** Mounted with the fetched portfolio: filter "All", nothing open. */
    constructor (items: seq<PortfolioItem>)
      ensures Valid()
      ensures this.items == items && filter == "All" && selected == None && !wheelPending
    {
      this.items := items;
      filter := "All";
      selected := None;
      wheelPending := false;
    }

    /** A category button: set the filter and close the lightbox. */
    method SelectCategory(category: string)
      modifies this
      ensures Valid()
      ensures filter == category && selected == None && wheelPending == old(wheelPending)
    {
      filter := category;
      selected := None;
    }

    /** A click on grid cell `index`. */
    method Open(index: int)
      requires 0 <= index < |Shown()|
      modifies this
      ensures Valid()
      ensures selected == Some(index) && filter == old(filter) && wheelPending == old(wheelPending)
    {
      selected := Some(index);
    }

    /** Escape, the close button and a backdrop click. */
    method Close()
      modifies this
      ensures Valid()
      ensures selected == None && filter == old(filter) && wheelPending == old(wheelPending)
    {
      selected := None;
    }

    method Next()
      requires Valid()
      modifies this
      ensures Valid()
      ensures old(selected).None? ==> selected == None
      ensures old(selected).Some? ==> selected == Some(NextIndex(old(selected).value, |Shown()|))
      ensures filter == old(filter) && wheelPending == old(wheelPending)
    {
      if selected.None? {
        return;
      }
      selected := Some(NextIndex(selected.value, |Shown()|));
    }

    method Prev()
      requires Valid()
      modifies this
      ensures Valid()
      ensures old(selected).None? ==> selected == None
      ensures old(selected).Some? ==> selected == Some(PrevIndex(old(selected).value, |Shown()|))
      ensures filter == old(filter) && wheelPending == old(wheelPending)
    {
      if selected.None? {
        return;
      }
      selected := Some(PrevIndex(selected.value, |Shown()|));
    }

    /** The window keydown listener; every key is ignored while closed. */
    method KeyDown(key: string)
      requires Valid()
      modifies this
      ensures Valid()
      ensures old(selected).None? ==> selected == None
      ensures old(selected).Some? && key == "ArrowRight" ==>
        selected == Some(NextIndex(old(selected).value, |Shown()|))
      ensures old(selected).Some? && key == "ArrowLeft" ==>
        selected == Some(PrevIndex(old(selected).value, |Shown()|))
      ensures old(selected).Some? && key == "Escape" ==> selected == None
      ensures key !in {"ArrowRight", "ArrowLeft", "Escape"} ==> selected == old(selected)
      ensures filter == old(filter) && wheelPending == old(wheelPending)
    {
      if selected.None? {
        return;
      }
      if key == "ArrowRight" {
        Next();
      }
      if key == "ArrowLeft" {
        Prev();
      }
      if key == "Escape" {
        Close();
      }
    }

    /**
     * The wheel listener: ignored while closed or while a debounce is
     * pending; otherwise one step in the direction of deltaY (none for 0)
     * and a new debounce.  This is the debounce as intended (see the
     * README's findings): it is cleared only by DebounceExpired.
     */
    method Wheel(deltaY: real)
      requires Valid()
      modifies this
      ensures Valid()
      ensures old(selected).None? || old(wheelPending) ==>
        selected == old(selected) && wheelPending == old(wheelPending)
      ensures old(selected).Some? && !old(wheelPending) ==> wheelPending
      ensures old(selected).Some? && !old(wheelPending) && deltaY > 0.0 ==>
        selected == Some(NextIndex(old(selected).value, |Shown()|))
      ensures old(selected).Some? && !old(wheelPending) && deltaY < 0.0 ==>
        selected == Some(PrevIndex(old(selected).value, |Shown()|))
      ensures deltaY == 0.0 ==> selected == old(selected)
      ensures filter == old(filter)
    {
      if selected.None? {
        return;
      }
      if wheelPending {
        return;
      }
      if deltaY > 0.0 {
        Next();
      } else if deltaY < 0.0 {
        Prev();
      }
      wheelPending := true;
    }

    /** The 300 ms debounce timer firing. */
    method DebounceExpired()
      modifies this
      ensures !wheelPending && selected == old(selected) && filter == old(filter)
    {
      wheelPending := false;
    }

    /** The item the lightbox shows, if it is open. */
    function SelectedItem(): (r: Option<PortfolioItem>)
      requires Valid()
      reads this
      ensures r.Some? <==> selected.Some?
      ensures r.Some? ==> r.value in Shown() && r.value == Shown()[selected.value]
    {
      if selected.None? then None else Some(Shown()[selected.value])
    }
  }

  // ---------------------------------------------------------------------
  // The wheel debounce as written.  The listener effect depends on
  // selectedIndex, so a step that changes the selection re-runs the effect;
  // its cleanup cancels the pending timeout but leaves the ref that marks
  // the debounce set, and nothing else ever clears that ref.

  /** `pending`: the debounce ref is set; `armed`: a live timer will clear it. */
  datatype WheelState = WheelState(selected: Option<int>, pending: bool, armed: bool)

  datatype LightboxEvent = WheelEvent(deltaY: real) | TimerFired | KeyEvent(key: string) | ClickItem(index: int)

  /** A change of selectedIndex re-runs the listener effect, whose cleanup cancels the timer. */
  function AfterSelect(s: WheelState, sel: Option<int>): (r: WheelState)
    ensures r.selected == sel && r.pending == s.pending
    ensures sel != s.selected ==> !r.armed
    ensures sel == s.selected ==> r == s
  {
    if sel == s.selected then s else WheelState(sel, s.pending, false)
  }

  /** One event as written; a set ref whose timer was cancelled stays set. */
  function StepAsWritten(s: WheelState, n: int, e: LightboxEvent): (r: WheelState)
    ensures s.pending && !s.armed ==> r.pending && !r.armed
    ensures e.WheelEvent? && s.pending ==> r == s
    ensures InRange(s.selected, n) && (e.ClickItem? ==> 0 <= e.index < n) ==> InRange(r.selected, n)
  {
    match e
    case WheelEvent(deltaY) =>
      if s.selected.None? || s.pending then s
      else
        var i := s.selected.value;
        var sel := if deltaY > 0.0 then Some(NextIndex(i, n))
                   else if deltaY < 0.0 then Some(PrevIndex(i, n)) else s.selected;
        AfterSelect(WheelState(s.selected, true, true), sel)
    case TimerFired =>
      if s.armed then WheelState(s.selected, false, false) else s
    case KeyEvent(key) =>
      if s.selected.None? then s
      else if key == "ArrowRight" then AfterSelect(s, Some(NextIndex(s.selected.value, n)))
      else if key == "ArrowLeft" then AfterSelect(s, Some(PrevIndex(s.selected.value, n)))
      else if key == "Escape" then AfterSelect(s, None)
      else s
    case ClickItem(index) =>
      AfterSelect(s, Some(index))
  }

  /** No selection, or an index of the filtered list. */
  predicate InRange(sel: Option<int>, n: int)
  {
    sel.None? || 0 <= sel.value < n
  }

  /** A run of events; clicks on grid items keep the selection in range. */
  function RunAsWritten(s: WheelState, n: int, events: seq<LightboxEvent>): (r: WheelState)
    ensures events == [] ==> r == s
    ensures InRange(s.selected, n) && (forall k :: 0 <= k < |events| && events[k].ClickItem? ==> 0 <= events[k].index < n)
      ==> InRange(r.selected, n)
    decreases |events|
  {
    if events == [] then s else RunAsWritten(StepAsWritten(s, n, events[0]), n, events[1..])
  }

  /** Once the ref is set with no live timer, no event sequence ever clears it. */
  lemma {:induction false} StuckForever(s: WheelState, n: int, events: seq<LightboxEvent>)
    requires s.pending && !s.armed
    ensures RunAsWritten(s, n, events).pending && !RunAsWritten(s, n, events).armed
    decreases |events|
  {
    if events != [] {
      StuckForever(StepAsWritten(s, n, events[0]), n, events[1..]);
    }
  }

  /**
   * With two items open at index 0, one downward wheel step moves to index 1;
   * after that, whatever happens, no wheel event moves the lightbox again.
   */
  lemma WheelNavigatesOnlyOnce(events: seq<LightboxEvent>, deltaY: real)
    ensures StepAsWritten(WheelState(Some(0), false, false), 2, WheelEvent(1.0)).selected == Some(1)
    ensures
      var s := RunAsWritten(StepAsWritten(WheelState(Some(0), false, false), 2, WheelEvent(1.0)), 2, events);
      StepAsWritten(s, 2, WheelEvent(deltaY)) == s
  {
    var s0 := StepAsWritten(WheelState(Some(0), false, false), 2, WheelEvent(1.0));
    assert s0 == WheelState(Some(1), true, false);
    StuckForever(s0, 2, events);
  }
}
