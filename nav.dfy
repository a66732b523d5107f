/** The slide-out navigation panel: its four items, the last of which
    depends on whether a user is logged in, and the highlighted item that
    follows the mouse pointer. */
module Nav {
  import opened Wrappers
  import AuthStore

  /** An item: its title, its route, and whether clicking it runs the logout action instead. */
  datatype NavItem = NavItem(title: string, href: string, isAction: bool)

  const BaseItems := [NavItem("Home", "/", false), NavItem("Browse Pets", "/browse", false), NavItem("List a Pet", "/sell", false)]

  /** `navItems`. The Logout item's action is the panel's `handleLogout`,
      which does what the user menu's does: `UserNav.HandleLogout` models it. */
  function Items(user: Option<AuthStore.User>): (items: seq<NavItem>)
    ensures |items| == 4 && items[..3] == BaseItems
    ensures user.Some? ==> items[3] == NavItem("Logout", "#logout", true)
    ensures user.None? ==> items[3] == NavItem("Login / Register", "/login", false)
  {
    BaseItems + [if user.Some? then NavItem("Logout", "#logout", true) else NavItem("Login / Register", "/login", false)]
  }

  /** The routes are distinct, so matching the highlight against them marks at most one item. */
  lemma HrefsDistinct(user: Option<AuthStore.User>)
    ensures forall i, j :: 0 <= i < j < |Items(user)| ==> Items(user)[i].href != Items(user)[j].href
  {
    var items := Items(user);
    assert items[0].href == "/" && items[1].href == "/browse" && items[2].href == "/sell";
    assert items[3].href == "#logout" || items[3].href == "/login";
  }

  /** Only the last item can run an action, and only for a logged-in user. */
  lemma OnlyLogoutActs(user: Option<AuthStore.User>)
    ensures forall k :: 0 <= k < |Items(user)| && Items(user)[k].isAction ==> k == 3 && user.Some?
  {
  }

  predicate IsActive(item: NavItem, selectedIndicator: string)
  {
    item.href == selectedIndicator
  }

  /** At most one item is highlighted, whatever the indicator holds. */
  lemma AtMostOneActive(user: Option<AuthStore.User>, selectedIndicator: string)
    ensures forall i, j ::
              (0 <= i < |Items(user)| && 0 <= j < |Items(user)|
               && IsActive(Items(user)[i], selectedIndicator) && IsActive(Items(user)[j], selectedIndicator)) ==> i == j
  {
    HrefsDistinct(user);
  }

  /** The panel's highlight: the current route at first and after the mouse pointer leaves. */
  class Panel {
    const pathname: string
    var selectedIndicator: string

    constructor(pathname: string)
      ensures this.pathname == pathname && selectedIndicator == pathname
    {
      this.pathname := pathname;
      selectedIndicator := pathname;
    }

    /** An item's `onMouseEnter`. */
    method MouseEnter(item: NavItem)
      modifies this
      ensures selectedIndicator == item.href
    {
      selectedIndicator := item.href;
    }

    /** The list's `onMouseLeave`. */
    method MouseLeave()
      modifies this
      ensures selectedIndicator == pathname
    {
      selectedIndicator := pathname;
    }
  }
}
