/**
 * The mobile menu: the menu button toggles the menu's `hidden` class and
 * its icon's `rotate-90` class; a click on any link inside the menu adds
 * `hidden` and leaves the icon alone.
 */
module MobileMenu {

  datatype MenuState = MenuState(hidden: bool, iconRotated: bool)

  /** A click on the menu button; `hasIcon` says whether the button holds an svg icon. */
  function Toggle(s: MenuState, hasIcon: bool): (r: MenuState)
    ensures r.hidden == !s.hidden
    ensures r.iconRotated == (s.iconRotated != hasIcon)
  {
    MenuState(!s.hidden, if hasIcon then !s.iconRotated else s.iconRotated)
  }

  /** A click on a link inside the menu. */
  function LinkClick(s: MenuState): (r: MenuState)
    ensures r.hidden && r.iconRotated == s.iconRotated
  {
    s.(hidden := true)
  }

  /** Two button clicks restore the menu and the icon. */
  lemma ToggleTwice(s: MenuState, hasIcon: bool)
    ensures Toggle(Toggle(s, hasIcon), hasIcon) == s
  {
  }

  /** The icon is rotated exactly while the menu is open, as long as only the button is used. */
  predicate IconInStep(s: MenuState) {
    s.iconRotated == !s.hidden
  }

  lemma ToggleKeepsIconInStep(s: MenuState)
    requires IconInStep(s)
    ensures IconInStep(Toggle(s, true))
  {
  }

  /**
   * A link clicked while the menu is open closes it but leaves the icon
   * rotated, so afterwards the icon is out of step with the menu.
   */
  lemma LinkClickLeavesIconRotated(s: MenuState)
    requires IconInStep(s) && !s.hidden
    ensures !IconInStep(LinkClick(s))
  {
  }

  class Menu {
    const hasIcon: bool
    var hidden: bool
    var iconRotated: bool

    function State(): MenuState
      reads this
    {
      MenuState(hidden, iconRotated)
    }

    constructor (hasIcon: bool, hidden: bool, iconRotated: bool)
      ensures this.hasIcon == hasIcon && State() == MenuState(hidden, iconRotated)
    {
      this.hasIcon := hasIcon;
      this.hidden := hidden;
      this.iconRotated := iconRotated;
    }

    method OnButtonClick()
      modifies this
      ensures State() == Toggle(old(State()), hasIcon)
    {
      hidden := !hidden;
      if hasIcon {
        iconRotated := !iconRotated;
      }
    }

    method OnLinkClick()
      modifies this
      ensures State() == LinkClick(old(State()))
    {
      hidden := true;
    }
  }
}
