/**
 * Navigation highlighting: which `.nav-link` carries the `active` class.
 *
 * `updateActiveNavLink(id)` clears every link and marks those whose href is
 * `"#" + id`; the scroll handler calls it for every section whose vertical
 * span contains the scroll offset plus 100 px, in document order; a click on
 * an in-page anchor scrolls to the target element's top minus 80 px and
 * calls it for the target. Layout values (offsets, heights, the scroll
 * offset) are integer inputs; the document's elements are a map from id to
 * `offsetTop`.
 */
module Navigation {
  import opened Maybe
  import opened JsString

  /** How far below the scroll offset a section must start to count as current. */
  const SectionProbe: int := 100
  /** The height of the fixed header, subtracted from an anchor's scroll target. */
  const HeaderOffset: int := 80

  datatype NavLink = NavLink(href: string, active: bool)

  /** A `section[id]` with its layout: `offsetTop` and `offsetHeight`. */
  datatype Section = Section(id: string, top: int, height: int)

  /** The links after `updateActiveNavLink(id)`: same hrefs, and a link is active iff its href is `"#" + id`. */
  predicate HighlightsExactly(before: seq<NavLink>, after: seq<NavLink>, id: string) {
    && |after| == |before|
    && forall i :: 0 <= i < |after| ==>
         after[i].href == before[i].href && (after[i].active <==> before[i].href == "#" + id)
  }

  /** The one sequence of links `HighlightsExactly` allows. */
  function Highlighted(links: seq<NavLink>, id: string): (r: seq<NavLink>)
    ensures HighlightsExactly(links, r, id)
  {
    seq(|links|, i requires 0 <= i < |links| => NavLink(links[i].href, links[i].href == "#" + id))
  }

  /** Only one sequence of links satisfies `HighlightsExactly`, so the previous flags are forgotten. */
  lemma HighlightedUnique(before: seq<NavLink>, after: seq<NavLink>, id: string)
    requires HighlightsExactly(before, after, id)
    ensures after == Highlighted(before, id)
  {
  }

  /** Highlighting a second time with the same id changes nothing. */
  lemma HighlightIdempotent(links: seq<NavLink>, id: string)
    ensures Highlighted(Highlighted(links, id), id) == Highlighted(links, id)
  {
  }

  /** A later highlight overrides an earlier one completely. */
  lemma HighlightOverrides(links: seq<NavLink>, a: string, b: string)
    ensures Highlighted(Highlighted(links, a), b) == Highlighted(links, b)
  {
  }

  /** When no two links share an href, at most one link is active after a highlight. */
  lemma HighlightAtMostOne(links: seq<NavLink>, id: string, i: nat, j: nat)
    requires forall p, q :: 0 <= p < q < |links| ==> links[p].href != links[q].href
    requires i < |links| && j < |links|
    requires Highlighted(links, id)[i].active && Highlighted(links, id)[j].active
    ensures i == j
  {
  }

  /** The scroll handler's test: the probe lies in the half-open span `[top, top + height)`. */
  predicate Contains(s: Section, probe: int) {
    probe >= s.top && probe < s.top + s.height
  }

  /** The index of the last section in document order that contains the probe. */
  function LastMatch(sections: seq<Section>, probe: int): (r: Option<nat>)
    ensures r.None? <==> forall k :: 0 <= k < |sections| ==> !Contains(sections[k], probe)
    ensures r.Some? ==> r.value < |sections| && Contains(sections[r.value], probe)
    ensures r.Some? ==> forall k :: r.value < k < |sections| ==> !Contains(sections[k], probe)
  {
    if sections == [] then None
    else if Contains(sections[|sections| - 1], probe) then Some(|sections| - 1)
    else LastMatch(sections[..|sections| - 1], probe)
  }

  /** `updateActiveSection` as written: highlight once for every matching section, in order. */
  function Scan(links: seq<NavLink>, sections: seq<Section>, probe: int): (r: seq<NavLink>)
    ensures |r| == |links|
    ensures forall i :: 0 <= i < |r| ==> r[i].href == links[i].href
  {
    if sections == [] then links
    else
      var before := Scan(links, sections[..|sections| - 1], probe);
      var last := sections[|sections| - 1];
      if Contains(last, probe) then Highlighted(before, last.id) else before
  }

  /**
   * The scan leaves the links unchanged when no section contains the probe,
   * and otherwise leaves exactly the highlight of the LAST matching section.
   */
  lemma {:induction false} ScanIsLastMatch(links: seq<NavLink>, sections: seq<Section>, probe: int)
    ensures Scan(links, sections, probe) ==
      match LastMatch(sections, probe)
      case None => links
      case Some(k) => Highlighted(links, sections[k].id)
  {
    if sections != [] {
      var init := sections[..|sections| - 1];
      ScanIsLastMatch(links, init, probe);
      var last := sections[|sections| - 1];
      if Contains(last, probe) {
        match LastMatch(init, probe)
        case None =>
        case Some(k) => HighlightOverrides(links, init[k].id, last.id);
      } else {
        match LastMatch(init, probe)
        case None =>
        case Some(k) => assert sections[k] == init[k];
      }
    }
  }

  /** `document.getElementById(id)`: the empty id never names an element. */
  function GetElementById(elements: map<string, int>, id: string): (r: Option<int>)
    ensures r.Some? <==> id != "" && id in elements
    ensures r.Some? ==> r.value == elements[id]
  {
    if id != "" && id in elements then Some(elements[id]) else None
  }

  /**
   * The scroll target of a click on an in-page anchor: present exactly when
   * the id after the `#` names an element, and then 80 px above that
   * element's top.
   */
  function AnchorScrollTarget(href: string, elements: map<string, int>): (r: Option<int>)
    ensures r.Some? <==> |href| > 1 && href[1..] in elements
    ensures r.Some? ==> r.value == elements[href[1..]] - HeaderOffset
  {
    match GetElementById(elements, DropFirst(href))
    case None => None
    case Some(top) => Some(top - HeaderOffset)
  }

  /**
   * Clicking the anchor `#id` of an existing element scrolls to its top
   * minus 80 px and leaves exactly the links with href `#id` active,
   * whichever link was active before.
   */
  lemma AnchorClickActivates(links: seq<NavLink>, id: string, elements: map<string, int>)
    requires id != "" && id in elements
    ensures AnchorScrollTarget("#" + id, elements) == Some(elements[id] - HeaderOffset)
    ensures forall i :: 0 <= i < |links| ==>
      (Highlighted(links, DropFirst("#" + id))[i].active <==> links[i].href == "#" + id)
  {
    DropFirstOfHash(id);
    assert ("#" + id)[1..] == id;
  }

  /** The `.nav-link` elements of the page, in document order. */
  class NavBar {
    var links: seq<NavLink>

    constructor (links: seq<NavLink>)
      ensures this.links == links
    {
      this.links := links;
    }

    /** `updateActiveNavLink`: remove `active` from each link, then add it back where the href matches. */
    method UpdateActiveNavLink(targetId: string)
      modifies this
      ensures HighlightsExactly(old(links), links, targetId)
      ensures links == Highlighted(old(links), targetId)
    {
      var i := 0;
      while i < |links|
        invariant 0 <= i <= |links| == |old(links)|
        invariant forall k :: 0 <= k < i ==> links[k] == Highlighted(old(links), targetId)[k]
        invariant forall k :: i <= k < |links| ==> links[k] == old(links)[k]
      {
        links := links[i := links[i].(active := false)];
        if links[i].href == "#" + targetId {
          links := links[i := links[i].(active := true)];
        }
        i := i + 1;
      }
    }

    /**
     * `updateActiveSection`: each section containing `pageYOffset + 100`
     * highlights its id, so the last such section wins and no match leaves
     * every flag as it was.
     */
    method UpdateActiveSection(sections: seq<Section>, pageYOffset: int)
      modifies this
      ensures links == Scan(old(links), sections, pageYOffset + SectionProbe)
      ensures links ==
        match LastMatch(sections, pageYOffset + SectionProbe)
        case None => old(links)
        case Some(k) => Highlighted(old(links), sections[k].id)
    {
      var scrollPosition := pageYOffset + SectionProbe;
      var i := 0;
      while i < |sections|
        invariant 0 <= i <= |sections|
        invariant links == Scan(old(links), sections[..i], scrollPosition)
      {
        var section := sections[i];
        assert sections[..i + 1][..i] == sections[..i];
        if scrollPosition >= section.top && scrollPosition < section.top + section.height {
          UpdateActiveNavLink(section.id);
        }
        i := i + 1;
      }
      assert sections[..i] == sections;
      ScanIsLastMatch(old(links), sections, scrollPosition);
    }

    /**
     * The click handler of an `a[href^="#"]` link: scroll to the target
     * element's top minus 80 px and highlight its id; nothing happens when
     * no element has that id. Returns the `window.scrollTo` target.
     */
    method OnAnchorClick(href: string, elements: map<string, int>) returns (scrollTop: Option<int>)
      requires |href| > 0 && href[0] == '#'
      modifies this
      ensures scrollTop == AnchorScrollTarget(href, elements)
      ensures links == if scrollTop.Some? then Highlighted(old(links), href[1..]) else old(links)
    {
      var targetId := DropFirst(href);
      var targetElement := GetElementById(elements, targetId);
      if targetElement.Some? {
        var offsetTop := targetElement.value - HeaderOffset;
        scrollTop := Some(offsetTop);
        UpdateActiveNavLink(targetId);
      } else {
        scrollTop := None;
      }
    }
  }
}
