/** The navigation bar: the scroll handler that marks the section under the
    viewport as active, the highlight of the matching menu item, and the
    mobile menu's open/closed state. */
module Navigation {
  import opened Common

  /** A section element's measured box: offsetTop and offsetHeight. */
  datatype Box = Box(top: real, height: real)

  /** The section ids the scroll handler looks up, in scan order. */
  function SectionIds(): seq<string>
  {
    ["philosophy", "difference", "farmlands", "crops", "journey", "insights", "contact"]
  }

  /** The hrefs of the menu items, in display order. */
  function NavHrefs(): seq<string>
  {
    ["#philosophy", "#difference", "#farmlands", "#crops", "#journey", "#insights", "#contact"]
  }

  /** The bar turns opaque past this scroll offset. */
  const ScrolledThreshold: real := 50.0

  /** The probe point sits this far below the top of the viewport. */
  const ProbeOffset: real := 100.0

  /** `pos >= offsetTop && pos < offsetTop + offsetHeight`. */
  predicate Contains(b: Box, pos: real)
  {
    b.top <= pos < b.top + b.height
  }

  /** A section id whose element exists (it is in `layout`) and whose box
      contains the probe point. */
  function Hit(layout: map<string, Box>, pos: real): string -> bool
  {
    id => id in layout && Contains(layout[id], pos)
  }

  /** The first section, in scan order, hit by the probe point. */
  function ScanSections(layout: map<string, Box>, scrollY: real): (r: Option<string>)
    ensures r.Some? ==> r.value in SectionIds() && r.value in layout
                        && Contains(layout[r.value], scrollY + ProbeOffset)
  {
    Find(SectionIds(), Hit(layout, scrollY + ProbeOffset))
  }

  /** activeSection after a scroll event: the hit section, else unchanged. */
  function ActiveAfterScroll(prev: string, layout: map<string, Box>, scrollY: real): (active: string)
    ensures active == prev || (active in SectionIds() && active in layout
                               && Contains(layout[active], scrollY + ProbeOffset))
  {
    match ScanSections(layout, scrollY)
    case Some(id) => id
    case None => prev
  }

  /** The scroll handler picks the first section, in the fixed order, whose
      element exists and contains scrollY + 100; sections without an element
      are skipped; when none contains the probe, the old value stays. */
  lemma ScrollPicksFirstContaining(prev: string, layout: map<string, Box>, scrollY: real)
    ensures (forall k :: 0 <= k < |SectionIds()| ==> !Hit(layout, scrollY + ProbeOffset)(SectionIds()[k]))
            ==> ActiveAfterScroll(prev, layout, scrollY) == prev
    ensures (exists k :: 0 <= k < |SectionIds()| && Hit(layout, scrollY + ProbeOffset)(SectionIds()[k]))
            ==> exists k :: && 0 <= k < |SectionIds()|
                           && ActiveAfterScroll(prev, layout, scrollY) == SectionIds()[k]
                           && SectionIds()[k] in layout
                           && Contains(layout[SectionIds()[k]], scrollY + ProbeOffset)
                           && forall j :: 0 <= j < k ==> !Hit(layout, scrollY + ProbeOffset)(SectionIds()[j])
  {
    FindIsFirst(SectionIds(), Hit(layout, scrollY + ProbeOffset));
  }

  /** A menu item is highlighted when activeSection is its href without the '#'. */
  predicate Highlighted(active: string, href: string)
    ensures |href| > 0 && href[0] == '#' ==> (Highlighted(active, href) <==> href == "#" + active)
  {
    |href| > 0 && active == href[1..]
  }

  /** The k-th menu item links to the k-th scanned section. */
  lemma HrefsFollowSections()
    ensures |NavHrefs()| == |SectionIds()|
    ensures forall k :: 0 <= k < |NavHrefs()| ==> NavHrefs()[k] == "#" + SectionIds()[k]
  {
  }

  /** When a scanned section is active exactly its own menu item is
      highlighted; with the initial empty activeSection none is. */
  lemma HighlightIsOneToOne(k: nat)
    requires k < |SectionIds()|
    ensures forall j :: 0 <= j < |NavHrefs()| ==> (Highlighted(SectionIds()[k], NavHrefs()[j]) <==> j == k)
    ensures forall j :: 0 <= j < |NavHrefs()| ==> !Highlighted("", NavHrefs()[j])
  {
    HrefsFollowSections();
    forall j | 0 <= j < |NavHrefs()|
      ensures Highlighted(SectionIds()[k], NavHrefs()[j]) <==> j == k
    {
      assert NavHrefs()[j][1..] == SectionIds()[j];
    }
  }

  /** The for-of loop of handleScroll: look each id up, skip ids without an
      element, and stop at the first box containing the probe point. */
  method FirstHit(sections: seq<string>, layout: map<string, Box>, scrollPos: real)
    returns (found: Option<string>)
    ensures found == Find(sections, Hit(layout, scrollPos))
  {
    ghost var hit := Hit(layout, scrollPos);
    found := None;
    var i := 0;
    while i < |sections|
      invariant 0 <= i <= |sections|
      invariant Find(sections, hit) == Find(sections[i..], hit)
    {
      var section := sections[i];
      assert sections[i..] == [section] + sections[i + 1..];
      if section in layout {
        var offsetTop := layout[section].top;
        var offsetBottom := offsetTop + layout[section].height;
        if scrollPos >= offsetTop && scrollPos < offsetBottom {
          assert hit(section);
          found := Some(section);
          break;
        }
      }
      assert !hit(section);
      i := i + 1;
    }
  }

  class NavBar {
    var isScrolled: bool
    var activeSection: string
    var mobileMenuOpen: bool

    constructor ()
      ensures !isScrolled && activeSection == "" && !mobileMenuOpen
    {
      isScrolled, activeSection, mobileMenuOpen := false, "", false;
    }

    /** handleScroll, with the measured boxes of the existing section
        elements given as `layout`. */
    method HandleScroll(scrollY: real, layout: map<string, Box>)
      modifies this
      ensures isScrolled <==> scrollY > ScrolledThreshold
      ensures activeSection == ActiveAfterScroll(old(activeSection), layout, scrollY)
      ensures mobileMenuOpen == old(mobileMenuOpen)
    {
      isScrolled := scrollY > ScrolledThreshold;
      var found := FirstHit(SectionIds(), layout, scrollY + ProbeOffset);
      assert found == ScanSections(layout, scrollY);
      if found.Some? {
        activeSection := found.value;
      }
    }

    /** handleNavClick: the mobile menu closes (the smooth scroll to the
        section is left to the browser). */
    method NavClick(href: string)
      modifies this
      ensures !mobileMenuOpen
      ensures isScrolled == old(isScrolled) && activeSection == old(activeSection)
    {
      mobileMenuOpen := false;
    }

    /** The menu button flips the mobile menu. */
    method ToggleMenu()
      modifies this
      ensures mobileMenuOpen == !old(mobileMenuOpen)
      ensures isScrolled == old(isScrolled) && activeSection == old(activeSection)
    {
      mobileMenuOpen := !mobileMenuOpen;
    }

    /** A click on the backdrop closes the mobile menu. */
    method CloseFromBackdrop()
      modifies this
      ensures !mobileMenuOpen
      ensures isScrolled == old(isScrolled) && activeSection == old(activeSection)
    {
      mobileMenuOpen := false;
    }
  }
}
