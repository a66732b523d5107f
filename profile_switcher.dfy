/** The "Change Profile" dialog: choosing the current profile only closes it
    and navigates; choosing the other one asks the server to switch. The
    server's answer is a parameter: the updated user, or `None` on failure. */
module ProfileSwitcher {
  import opened Wrappers
  import AuthStore
  import UserController

  const SwitchFailed := "Could not switch profile. Please try again."

  /** The page each profile lands on. */
  function Destination(profileType: string): (to: string)
    ensures to == "/browse" <==> profileType == "adopter"
    ensures to == "/my-listings" <==> profileType != "adopter"
  {
    if profileType == "adopter" then "/browse" else "/my-listings"
  }

  /** The server toggles between the two profiles, so choosing the other
      profile lands on the page of the profile chosen. */
  lemma SwitchLandsOnChoice(current: string, chosen: string)
    requires current in ["adopter", "seller"] && chosen in ["adopter", "seller"] && chosen != current
    ensures Destination(UserController.NextProfileType(current)) == Destination(chosen)
  {
  }

  /** The component renders only for a logged-in user. */
  predicate Renders(user: Option<AuthStore.User>)
  {
    user.Some?
  }

  /** What a choice does besides the state: whether it called the server,
      where it navigated and the toast it showed. */
  datatype Effect = Effect(called: bool, navigate: Option<string>, toast: Option<string>)

  const NoEffect := Effect(false, None, None)

  class Switcher {
    var isOpen: bool
    const auth: AuthStore.Store

    constructor(auth: AuthStore.Store)
      ensures this.auth == auth && !isOpen
    {
      this.auth := auth;
      isOpen := false;
    }

    /** `handleProfileChange`. */
    method HandleProfileChange(newProfileType: string, response: Option<AuthStore.User>) returns (e: Effect)
      requires Renders(auth.user)
      modifies this, auth
      ensures newProfileType == old(auth.user).value.profile_type ==>
                && e == Effect(false, Some(Destination(newProfileType)), None)
                && !isOpen && auth.user == old(auth.user) && auth.saved == old(auth.saved)
      ensures newProfileType != old(auth.user).value.profile_type && response.Some? ==>
                && e == Effect(true, Some(Destination(response.value.profile_type)),
                               Some("Profile switched to " + response.value.profile_type + "!"))
                && !isOpen && auth.user == response && auth.saved == Some(response)
      ensures newProfileType != old(auth.user).value.profile_type && response.None? ==>
                && e == Effect(true, None, Some(SwitchFailed))
                && isOpen == old(isOpen) && auth.user == old(auth.user) && auth.saved == old(auth.saved)
    {
      if newProfileType == auth.user.value.profile_type {
        isOpen := false;
        return Effect(false, Some(Destination(newProfileType)), None);
      }
      if response.Some? {
        var updatedUser := response.value;
        auth.SetUser(Some(updatedUser));
        isOpen := false;
        e := Effect(true, Some(Destination(updatedUser.profile_type)), Some("Profile switched to " + updatedUser.profile_type + "!"));
      } else {
        e := Effect(true, None, Some(SwitchFailed));
      }
    }

    /** The toggle's `onValueChange`: deselecting gives the empty value, which does nothing. */
    method OnValueChange(value: string, response: Option<AuthStore.User>) returns (e: Effect)
      requires Renders(auth.user)
      modifies this, auth
      ensures value == "" ==> e == NoEffect && isOpen == old(isOpen) && auth.user == old(auth.user) && auth.saved == old(auth.saved)
      ensures value != "" && value == old(auth.user).value.profile_type ==>
                !e.called && auth.user == old(auth.user) && auth.saved == old(auth.saved)
    {
      if value != "" {
        e := HandleProfileChange(value, response);
      } else {
        e := NoEffect;
      }
    }
  }
}
