/**
 * The window scroll listener of the portfolio page: it hides the scroll-down
 * indicator near the bottom of the document, marks the nav bar as scrolled,
 * picks the section being read and highlights its nav link. Layout
 * measurements (`scrollY`, `scrollHeight`, `innerHeight`, each section's
 * `offsetTop`) are parameters; a section missing from the page is a key
 * missing from the `tops` map.
 */
module Navigation {

  /** The section ids, in the order the listener visits them. */
  const Sections: seq<string> := ["hero", "artworks", "artist", "gallery", "contact"]

  /** A section counts as reached this many px before its top scrolls into place. */
  const SectionLead := 200

  /** The nav bar is styled as scrolled beyond this offset. */
  const ScrolledAfter := 100

  /** The scroll indicator disappears this close to the bottom. */
  const BottomMargin := 100

  /** Section `id` exists and the page has been scrolled to 200 px above its top or further. */
  predicate Reached(tops: map<string, int>, id: string, scrollY: int)
  {
    id in tops && scrollY >= tops[id] - SectionLead
  }

  /** The last of `ids` that is reached, or "" when none is. */
  function LastReached(ids: seq<string>, tops: map<string, int>, scrollY: int): string
  {
    if ids == [] then ""
    else if Reached(tops, ids[|ids| - 1], scrollY) then ids[|ids| - 1]
    else LastReached(ids[..|ids| - 1], tops, scrollY)
  }

  /**
   * What LastReached picks: "" exactly when no id is reached, and otherwise a
   * reached id after which none is reached.
   */
  lemma {:induction false} LastReachedIsLast(ids: seq<string>, tops: map<string, int>, scrollY: int)
    requires "" !in ids
    ensures LastReached(ids, tops, scrollY) == "" <==>
      forall k :: 0 <= k < |ids| ==> !Reached(tops, ids[k], scrollY)
    ensures LastReached(ids, tops, scrollY) != "" ==>
      exists k :: 0 <= k < |ids| && ids[k] == LastReached(ids, tops, scrollY)
        && Reached(tops, ids[k], scrollY)
        && forall j :: k < j < |ids| ==> !Reached(tops, ids[j], scrollY)
  {
    if ids != [] {
      var n := |ids| - 1;
      if Reached(tops, ids[n], scrollY) {
        assert ids[n] != "";
      } else {
        var init := ids[..n];
        assert forall k :: 0 <= k < n ==> init[k] == ids[k];
        LastReachedIsLast(init, tops, scrollY);
        if LastReached(init, tops, scrollY) != "" {
          var k :| 0 <= k < |init| && init[k] == LastReached(init, tops, scrollY)
            && Reached(tops, init[k], scrollY)
            && forall j :: k < j < |init| ==> !Reached(tops, init[j], scrollY);
          assert ids[k] == LastReached(ids, tops, scrollY);
        }
      }
    }
  }

  /**
   * The `forEach` over the section ids that overwrites `current` with every
   * section reached, so the last one reached wins.
   */
  method CurrentSection(tops: map<string, int>, scrollY: int) returns (current: string)
    ensures current == LastReached(Sections, tops, scrollY)
    ensures current == "" || current in Sections
  {
    current := "";
    var i := 0;
    while i < |Sections|
      invariant 0 <= i <= |Sections|
      invariant current == LastReached(Sections[..i], tops, scrollY)
    {
      var id := Sections[i];
      assert Sections[..i + 1][..i] == Sections[..i];
      if id in tops && scrollY >= tops[id] - SectionLead {
        current := id;
      }
      i := i + 1;
    }
    assert Sections[..i] == Sections;
    LastReachedIsLast(Sections, tops, scrollY);
  }

  /** A link is highlighted when its href names the current section. */
  predicate Highlighted(href: string, current: string)
  {
    href == "#" + current
  }

  /** With distinct hrefs, at most one link is highlighted, and only for a current section it names. */
  lemma AtMostOneHighlighted(hrefs: seq<string>, current: string, i: int, j: int)
    requires forall a, b :: 0 <= a < b < |hrefs| ==> hrefs[a] != hrefs[b]
    requires 0 <= i < |hrefs| && 0 <= j < |hrefs|
    requires Highlighted(hrefs[i], current) && Highlighted(hrefs[j], current)
    ensures i == j
    ensures hrefs[i][1..] == current
  {
  }

  /**
   * The `forEach` over the nav links: each loses the 'active' class and gets
   * it back exactly when its href is '#' followed by the current id.
   */
  method HighlightLinks(hrefs: seq<string>, active: array<bool>, current: string)
    requires active.Length == |hrefs|
    modifies active
    ensures forall i :: 0 <= i < active.Length ==> active[i] == Highlighted(hrefs[i], current)
  {
    for i := 0 to active.Length
      invariant forall j :: 0 <= j < i ==> active[j] == Highlighted(hrefs[j], current)
    {
      active[i] := false;
      if hrefs[i] == "#" + current {
        active[i] := true;
      }
    }
  }

  /** The scroll indicator is hidden within 100 px of the bottom of the document. */
  predicate NearBottom(scrollTop: int, docHeight: int, winHeight: int)
  {
    scrollTop >= (docHeight - winHeight) - BottomMargin
  }

  /** Once near the bottom, scrolling further down keeps the indicator hidden; at the very bottom it is hidden. */
  lemma NearBottomMonotone(scrollTop: int, further: int, docHeight: int, winHeight: int)
    requires NearBottom(scrollTop, docHeight, winHeight) && scrollTop <= further
    ensures NearBottom(further, docHeight, winHeight)
    ensures NearBottom(docHeight - winHeight, docHeight, winHeight)
  {
  }

  /** The state the scroll listener writes: three class toggles on page elements. */
  class ScrollView {
    const hasNav: bool             // the element with id 'nav' exists
    const hasIndicator: bool       // the element with id 'scrollIndicator' exists
    const hrefs: seq<string>       // the href of each '.nav-links a', in document order
    const linkActive: array<bool>  // whether each of those links carries 'active'

    var navScrolled: bool          // the nav bar carries 'scrolled'
    var indicatorHidden: bool      // the scroll indicator carries 'hidden'

    ghost predicate Valid()
      reads this
    {
      linkActive.Length == |hrefs|
    }

    /** Page load: the classes the markup starts with, then the initial updateScrollIndicator. */
    constructor (hasNav: bool, hasIndicator: bool, hrefs: seq<string>, linkActive: seq<bool>,
                 navScrolled: bool, indicatorHidden: bool,
                 scrollTop: int, docHeight: int, winHeight: int)
      requires |linkActive| == |hrefs|
      ensures Valid() && fresh(this.linkActive)
      ensures this.hasNav == hasNav && this.hasIndicator == hasIndicator && this.hrefs == hrefs
      ensures this.linkActive[..] == linkActive && this.navScrolled == navScrolled
      ensures this.indicatorHidden == if hasIndicator then NearBottom(scrollTop, docHeight, winHeight) else indicatorHidden
    {
      this.hasNav := hasNav;
      this.hasIndicator := hasIndicator;
      this.hrefs := hrefs;
      this.linkActive := new bool[|linkActive|](i requires 0 <= i < |linkActive| => linkActive[i]);
      this.navScrolled := navScrolled;
      this.indicatorHidden := indicatorHidden;
      new;
      UpdateScrollIndicator(scrollTop, docHeight, winHeight);
    }

    /** updateScrollIndicator: hidden near the bottom, shown elsewhere; nothing without the element. */
    method UpdateScrollIndicator(scrollTop: int, docHeight: int, winHeight: int)
      modifies this`indicatorHidden
      ensures indicatorHidden == if hasIndicator then NearBottom(scrollTop, docHeight, winHeight) else old(indicatorHidden)
    {
      if !hasIndicator {
        return;
      }
      var scrollableHeight := docHeight - winHeight;
      if scrollTop >= scrollableHeight - BottomMargin {
        indicatorHidden := true;
      } else {
        indicatorHidden := false;
      }
    }

    /** The window scroll listener, its steps in source order. */
    method OnScroll(scrollY: int, docHeight: int, winHeight: int, tops: map<string, int>)
      requires Valid()
      modifies this, linkActive
      ensures Valid()
      ensures indicatorHidden == if hasIndicator then NearBottom(scrollY, docHeight, winHeight) else old(indicatorHidden)
      ensures navScrolled == if hasNav then scrollY > ScrolledAfter else old(navScrolled)
      ensures forall i :: 0 <= i < linkActive.Length ==>
        linkActive[i] == Highlighted(hrefs[i], LastReached(Sections, tops, scrollY))
    {
      UpdateScrollIndicator(scrollY, docHeight, winHeight);
      if hasNav {
        if scrollY > ScrolledAfter {
          navScrolled := true;
        } else {
          navScrolled := false;
        }
      }
      var current := CurrentSection(tops, scrollY);
      HighlightLinks(hrefs, linkActive, current);
    }
  }

  /** The worked example: with hero at 0, artworks at 800 and artist at 1600, offset 850 reads "artworks". */
  lemma ArtworksExample()
    ensures LastReached(Sections, map["hero" := 0, "artworks" := 800, "artist" := 1600], 850) == "artworks"
  {
    var tops := map["hero" := 0, "artworks" := 800, "artist" := 1600];
    assert Sections[..2] == ["hero", "artworks"];
    assert LastReached(Sections[..2], tops, 850) == "artworks";
    assert Sections[..3] == ["hero", "artworks", "artist"] && Sections[..3][..2] == Sections[..2];
    assert LastReached(Sections[..3], tops, 850) == "artworks";
    assert Sections[..4] == ["hero", "artworks", "artist", "gallery"] && Sections[..4][..3] == Sections[..3];
    assert LastReached(Sections[..4], tops, 850) == "artworks";
    assert Sections[..5] == Sections && Sections[..4] == Sections[..|Sections| - 1];
  }
}
