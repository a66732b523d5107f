/** The avatar menu of a logged-in user: nothing without a named user,
    otherwise the initials, the settings entry, the section of the user's
    profile and the logout entry. */
module UserNav {
  import opened Wrappers
  import Strings
  import AuthStore

  const LoggedOut := "You have been logged out."

  /** A menu entry: its text, and the route its link leads to (the logout entry has none). */
  datatype Item = Item(text: string, to: Option<string>)

  const Settings := Item("User Settings", Some("/settings"))
  const AdopterItems := [Item("My Applications", Some("/my-applications")), Item("Rehome a Pet", Some("/browse"))]
  const SellerItems := [Item("My Listings", Some("/my-listings")), Item("List A Pet", Some("/sell"))]
  const LogOut := Item("Log out", None)

  datatype Menu = Menu(initials: string, name: string, email: string, items: seq<Item>)

  /** The menu for the stored user, or `None` when the component renders nothing. */
  function MenuOf(user: Option<AuthStore.User>): (m: Option<Menu>)
    ensures m.None? <==> user.None? || user.value.name == ""
    ensures m.Some? ==> m.value.initials == Strings.Initials(user.value.name)
    ensures m.Some? ==> m.value.name == user.value.name && m.value.email == user.value.email
    ensures m.Some? ==> |m.value.items| >= 2 && m.value.items[0] == Settings && m.value.items[|m.value.items| - 1] == LogOut
    ensures m.Some? ==> (AdopterItems[0] in m.value.items <==> user.value.profile_type == "adopter")
    ensures m.Some? ==> (SellerItems[0] in m.value.items <==> user.value.profile_type == "seller")
  {
    if user.None? || user.value.name == "" then None
    else
      var u := user.value;
      Some(Menu(Strings.Initials(u.name), u.name, u.email,
                [Settings]
                + (if u.profile_type == "adopter" then AdopterItems else [])
                + (if u.profile_type == "seller" then SellerItems else [])
                + [LogOut]))
  }

  /** The two profile sections never appear together. */
  lemma NeverBothSections(user: Option<AuthStore.User>)
    requires MenuOf(user).Some?
    ensures !(AdopterItems[0] in MenuOf(user).value.items && SellerItems[0] in MenuOf(user).value.items)
  {
  }

  /** `handleLogout`: the store is cleared and the page goes home. The toast and the route are returned. */
  method HandleLogout(auth: AuthStore.Store) returns (toast: string, navigate: string)
    modifies auth
    ensures auth.user == None && auth.saved == Some(None)
    ensures toast == LoggedOut && navigate == "/"
  {
    auth.Logout();
    toast := LoggedOut;
    navigate := "/";
  }
}
