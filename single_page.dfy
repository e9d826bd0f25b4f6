/** The single-file page: the active-section tracker driven by the window's
    scroll listener, the dark-mode flag, and scrolling a section into view.
    Element geometry is abstracted to integers: the layout maps each id that
    `document.getElementById` finds to its `offsetTop` and `offsetHeight`. */
module SinglePage {
  import opened Wrappers

  datatype Box = Box(offsetTop: int, offsetHeight: int)

  /** The section ids, in the order the scroll handler scans them. */
  const Sections: seq<string> := ["hero", "about", "skills", "projects", "education", "contact"]

  /** Pixels by which a section counts as reached before its top edge. */
  const Threshold: int := 100

  /** `scrollY >= offsetTop - 100 && scrollY < offsetTop + offsetHeight - 100` */
  predicate Within(b: Box, scrollY: int)
  {
    b.offsetTop - Threshold <= scrollY < b.offsetTop + b.offsetHeight - Threshold
  }

  /** The element exists and the scroll position lies in its band. */
  predicate Qualifies(id: string, layout: map<string, Box>, scrollY: int)
  {
    id in layout && Within(layout[id], scrollY)
  }

  /** The value of `activeSection` after the `forEach` has scanned `order`
      from its start, having started at `current`: every qualifying section
      overwrites the previous value. */
  function ActiveAfter(order: seq<string>, layout: map<string, Box>, scrollY: int, current: string): (r: string)
    ensures r == current || r in order
    decreases |order|
  {
    if order == [] then current
    else
      var last := order[|order| - 1];
      var before := ActiveAfter(order[..|order| - 1], layout, scrollY, current);
      if Qualifies(last, layout, scrollY) then last else before
  }

  /** When several sections qualify, the last of them in scan order wins. */
  lemma {:induction false} LastQualifyingWins(order: seq<string>, layout: map<string, Box>, scrollY: int,
                                              current: string, k: nat)
    requires k < |order| && Qualifies(order[k], layout, scrollY)
    requires forall j :: k < j < |order| ==> !Qualifies(order[j], layout, scrollY)
    ensures ActiveAfter(order, layout, scrollY, current) == order[k]
    decreases |order|
  {
    if k < |order| - 1 {
      var prefix := order[..|order| - 1];
      assert prefix[k] == order[k];
      forall j | k < j < |prefix|
        ensures !Qualifies(prefix[j], layout, scrollY)
      {
        assert prefix[j] == order[j];
      }
      LastQualifyingWins(prefix, layout, scrollY, current, k);
    }
  }

  /** When no section qualifies (missing elements never do), the active
      section keeps its previous value. */
  lemma {:induction false} NoneQualifyingKeeps(order: seq<string>, layout: map<string, Box>, scrollY: int,
                                               current: string)
    requires forall j :: 0 <= j < |order| ==> !Qualifies(order[j], layout, scrollY)
    ensures ActiveAfter(order, layout, scrollY, current) == current
    decreases |order|
  {
    if order != [] {
      var prefix := order[..|order| - 1];
      forall j | 0 <= j < |prefix|
        ensures !Qualifies(prefix[j], layout, scrollY)
      {
        assert prefix[j] == order[j];
      }
      NoneQualifyingKeeps(prefix, layout, scrollY, current);
    }
  }

  /** Handling the same scroll position over the same layout a second time
      gives the same active section. */
  lemma {:induction false} ScanIsIdempotent(order: seq<string>, layout: map<string, Box>, scrollY: int,
                                            current: string)
    ensures var once := ActiveAfter(order, layout, scrollY, current);
            ActiveAfter(order, layout, scrollY, once) == once
    decreases |order|
  {
    if order != [] {
      var prefix := order[..|order| - 1];
      ScanIsIdempotent(prefix, layout, scrollY, current);
    }
  }

  /** Every section's element exists, and each one starts where the one
      before it in scan order ends. */
  predicate Stacked(order: seq<string>, layout: map<string, Box>)
  {
    (forall i :: 0 <= i < |order| ==> order[i] in layout && layout[order[i]].offsetHeight >= 0) &&
    (forall i :: 0 < i < |order| ==>
       layout[order[i]].offsetTop == layout[order[i - 1]].offsetTop + layout[order[i - 1]].offsetHeight)
  }

  lemma {:induction false} StackedBelow(order: seq<string>, layout: map<string, Box>, k: nat, j: nat)
    requires Stacked(order, layout) && k < j < |order|
    ensures layout[order[j]].offsetTop >= layout[order[k]].offsetTop + layout[order[k]].offsetHeight
    decreases j - k
  {
    if j > k + 1 {
      StackedBelow(order, layout, k, j - 1);
    }
  }

  /** On a page whose sections are stacked one after the other, the bands
      do not overlap, so the section whose band holds the scroll position is
      the one that becomes active. */
  lemma ContainingSectionIsActive(order: seq<string>, layout: map<string, Box>, scrollY: int,
                                  current: string, k: nat)
    requires Stacked(order, layout) && k < |order| && Within(layout[order[k]], scrollY)
    ensures ActiveAfter(order, layout, scrollY, current) == order[k]
  {
    forall j | k < j < |order|
      ensures !Qualifies(order[j], layout, scrollY)
    {
      StackedBelow(order, layout, k, j);
    }
    LastQualifyingWins(order, layout, scrollY, current, k);
  }

  /** `element.scrollIntoView` target of `scrollToSection`: the section, or
      nothing when its element is missing. */
  function ScrollToSection(sectionId: string, layout: map<string, Box>): (target: Option<Box>)
    ensures target.Some? <==> sectionId in layout
    ensures target.Some? ==> target.value == layout[sectionId]
  {
    if sectionId in layout then Some(layout[sectionId]) else None
  }

  /** Scrolling a stacked section into view puts the scroll position at its
      `offsetTop`; the tracker then makes that section active iff it is
      taller than `Threshold` (a shorter one's band ends before its own top).
      This holds when the page can scroll that far. */
  lemma ScrolledIntoViewIsActive(order: seq<string>, layout: map<string, Box>, current: string, k: nat)
    requires Stacked(order, layout) && k < |order|
    ensures ScrollToSection(order[k], layout).Some?
    ensures var b := ScrollToSection(order[k], layout).value;
            (b.offsetHeight > Threshold ==> ActiveAfter(order, layout, b.offsetTop, current) == order[k]) &&
            (b.offsetHeight <= Threshold ==> !Qualifies(order[k], layout, b.offsetTop))
  {
    var b := layout[order[k]];
    if b.offsetHeight > Threshold {
      ContainingSectionIsActive(order, layout, b.offsetTop, current, k);
    }
  }

  /** The mounted `Portfolio` component of the single-file page. */
  class Page {
    var darkMode: bool
    var activeSection: string

    ghost predicate Valid()
      reads this
    {
      activeSection in Sections
    }

    constructor ()
      ensures Valid() && !darkMode && activeSection == "hero"
    {
      darkMode, activeSection := false, "hero";
    }

    /** The window's scroll listener, `handleScroll`. */
    method HandleScroll(scrollY: int, layout: map<string, Box>)
      requires Valid()
      modifies this
      ensures Valid() && darkMode == old(darkMode)
      ensures activeSection == ActiveAfter(Sections, layout, scrollY, old(activeSection))
    {
      var i := 0;
      while i < |Sections|
        invariant 0 <= i <= |Sections|
        invariant activeSection == ActiveAfter(Sections[..i], layout, scrollY, old(activeSection))
        invariant darkMode == old(darkMode)
      {
        var section := Sections[i];
        assert Sections[..i + 1][..i] == Sections[..i];
        if section in layout {
          var element := layout[section];
          if scrollY >= element.offsetTop - Threshold && scrollY < element.offsetTop + element.offsetHeight - Threshold {
            activeSection := section;
          }
        }
        i := i + 1;
      }
      assert Sections[..i] == Sections;
    }

    /** The theme button: `setDarkMode(!darkMode)`. */
    method ToggleDarkMode()
      modifies this
      ensures darkMode == !old(darkMode) && activeSection == old(activeSection)
    {
      darkMode := !darkMode;
    }
  }
}
