/**
 * The scroll listeners that only compare the scroll offset with a constant:
 * the navbar listener of `setupScrollEffects` gives the navbar its
 * "scrolled" look (darker background and a shadow) beyond 50 px, and the
 * listener of `setupScrollToTop` shows the scroll-to-top button beyond
 * 300 px. Colours and the smooth-scrolling animation are not modelled.
 */
module Scroll {

  const NavbarThreshold: int := 50
  const ScrollTopThreshold: int := 300

  /** `window.pageYOffset || document.documentElement.scrollTop`: a zero offset falls back to the second reading. */
  function ScrollTop(pageYOffset: int, documentScrollTop: int): (r: int)
    ensures pageYOffset != 0 ==> r == pageYOffset
    ensures pageYOffset == 0 ==> r == documentScrollTop
  {
    if pageYOffset != 0 then pageYOffset else documentScrollTop
  }

  /** The navbar listener's test. */
  predicate NavbarScrolled(scrollTop: int) {
    scrollTop > NavbarThreshold
  }

  /** The scroll-to-top listener's test. */
  predicate ScrollTopShown(pageYOffset: int) {
    pageYOffset > ScrollTopThreshold
  }

  /** The navbar's look and the scroll-to-top button's `show` class. */
  datatype Chrome = Chrome(navbarScrolled: bool, scrollTopShown: bool)

  /**
   * The navbar listener: with a navbar, its look follows this event's
   * scroll reading; without one nothing changes. The button is untouched.
   */
  function NavbarListener(c: Chrome, hasNavbar: bool, pageYOffset: int, documentScrollTop: int): (r: Chrome)
    ensures r.scrollTopShown == c.scrollTopShown
    ensures hasNavbar ==> (r.navbarScrolled <==> ScrollTop(pageYOffset, documentScrollTop) > NavbarThreshold)
    ensures !hasNavbar ==> r == c
  {
    if hasNavbar then c.(navbarScrolled := NavbarScrolled(ScrollTop(pageYOffset, documentScrollTop))) else c
  }

  /** The scroll-to-top listener: the button shows iff the page offset exceeds 300; the navbar is untouched. */
  function ButtonListener(c: Chrome, pageYOffset: int): (r: Chrome)
    ensures r.navbarScrolled == c.navbarScrolled
    ensures r.scrollTopShown <==> pageYOffset > ScrollTopThreshold
  {
    c.(scrollTopShown := ScrollTopShown(pageYOffset))
  }

  /** One scroll event: both listeners, in the order `initializeApp` registers them. */
  function OnScrollEvent(c: Chrome, hasNavbar: bool, pageYOffset: int, documentScrollTop: int): (r: Chrome)
    ensures hasNavbar ==> (r.navbarScrolled <==> NavbarScrolled(ScrollTop(pageYOffset, documentScrollTop)))
    ensures !hasNavbar ==> r.navbarScrolled == c.navbarScrolled
    ensures r.scrollTopShown <==> ScrollTopShown(pageYOffset)
  {
    ButtonListener(NavbarListener(c, hasNavbar, pageYOffset, documentScrollTop), pageYOffset)
  }

  /** The two listeners touch different flags, so their order does not matter. */
  lemma ListenersCommute(c: Chrome, hasNavbar: bool, pageYOffset: int, documentScrollTop: int)
    ensures NavbarListener(ButtonListener(c, pageYOffset), hasNavbar, pageYOffset, documentScrollTop)
      == OnScrollEvent(c, hasNavbar, pageYOffset, documentScrollTop)
  {
  }

  /** With a navbar, the state after a scroll event depends on that event's readings alone. */
  lemma ScrollForgetsHistory(c: Chrome, d: Chrome, pageYOffset: int, documentScrollTop: int)
    ensures OnScrollEvent(c, true, pageYOffset, documentScrollTop) == OnScrollEvent(d, true, pageYOffset, documentScrollTop)
  {
  }

  /** With a navbar, after any scroll event the button shows only when the navbar has its scrolled look too. */
  lemma ButtonImpliesScrolledNavbar(c: Chrome, pageYOffset: int, documentScrollTop: int)
    ensures var r := OnScrollEvent(c, true, pageYOffset, documentScrollTop);
      r.scrollTopShown ==> r.navbarScrolled
  {
  }

  /** The page's navbar and scroll-to-top button. */
  class PageChrome {
    const hasNavbar: bool
    var navbarScrolled: bool
    var scrollTopShown: bool

    function State(): Chrome
      reads this
    {
      Chrome(navbarScrolled, scrollTopShown)
    }

    constructor (hasNavbar: bool, navbarScrolled: bool, scrollTopShown: bool)
      ensures this.hasNavbar == hasNavbar && State() == Chrome(navbarScrolled, scrollTopShown)
    {
      this.hasNavbar := hasNavbar;
      this.navbarScrolled := navbarScrolled;
      this.scrollTopShown := scrollTopShown;
    }

    /** The navbar part of the `setupScrollEffects` scroll listener. */
    method OnScrollNavbar(pageYOffset: int, documentScrollTop: int)
      modifies this
      ensures State() == NavbarListener(old(State()), hasNavbar, pageYOffset, documentScrollTop)
    {
      var scrollTop := ScrollTop(pageYOffset, documentScrollTop);
      if hasNavbar {
        navbarScrolled := scrollTop > NavbarThreshold;
      }
    }

    /** The `setupScrollToTop` scroll listener. */
    method OnScrollButton(pageYOffset: int)
      modifies this
      ensures State() == ButtonListener(old(State()), pageYOffset)
    {
      scrollTopShown := pageYOffset > ScrollTopThreshold;
    }
  }
}
