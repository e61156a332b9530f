/** The header (src/components/Header.tsx): the page title derived from the current path,
    the name shown in the account menu, and the menu's open/closed state. */
module Header {
  import opened Base
  import opened Types

  /** The title for a path: `/` by exact match only, then the `/workflows`, `/analytics`
      and `/settings` prefixes in that order, and the product name for anything else. */
  function PageTitle(path: string): (t: string)
    ensures path == "/" ==> t == "Dashboard"
    ensures path != "/" && StartsWith(path, "/workflows") ==> t == "Workflows"
    ensures path != "/" && !StartsWith(path, "/workflows") && StartsWith(path, "/analytics") ==> t == "Analytics"
    ensures (path != "/" && !StartsWith(path, "/workflows") && !StartsWith(path, "/analytics")
             && StartsWith(path, "/settings")) ==> t == "Settings"
    ensures t == "WorkflowHub" <==> (path != "/" && !StartsWith(path, "/workflows")
                                     && !StartsWith(path, "/analytics") && !StartsWith(path, "/settings"))
  {
    if path == "/" then "Dashboard"
    else if StartsWith(path, "/workflows") then "Workflows"
    else if StartsWith(path, "/analytics") then "Analytics"
    else if StartsWith(path, "/settings") then "Settings"
    else "WorkflowHub"
  }

  /** The three prefixes exclude each other, so their order never decides a title; and
      only `/` itself is the Dashboard, no path below it. */
  lemma TitlePrefixesDisjoint(path: string)
    ensures !(StartsWith(path, "/workflows") && StartsWith(path, "/analytics"))
    ensures !(StartsWith(path, "/workflows") && StartsWith(path, "/settings"))
    ensures !(StartsWith(path, "/analytics") && StartsWith(path, "/settings"))
    ensures PageTitle(path) == "Dashboard" <==> path == "/"
  {
  }

  /** `profile?.full_name || user?.email`: the profile's name when it is truthy, otherwise
      the user's email (which may itself be absent). */
  function DisplayName(profile: Option<Profile>, user: Option<User>): (n: Option<string>)
    ensures profile.Some? && Truthy(profile.value.fullName) ==> n == profile.value.fullName
    ensures !(profile.Some? && Truthy(profile.value.fullName)) ==> n == (if user.Some? then user.value.email else None)
  {
    if profile.Some? && Truthy(profile.value.fullName) then profile.value.fullName
    else if user.Some? then user.value.email
    else None
  }

  /** The account menu's `isDropdownOpen`. */
  class AccountMenu {
    var open: bool

    constructor ()
      ensures !open
    {
      open := false;
    }

    /** A click on the avatar toggles the menu. */
    method AvatarClick()
      modifies this
      ensures open == !old(open)
    {
      open := !open;
    }

    /** The document mousedown listener: a press outside the menu's container closes it; a
        press inside (the avatar included) leaves it as it is. */
    method MouseDown(insideMenu: bool)
      modifies this
      ensures !insideMenu ==> !open
      ensures insideMenu ==> open == old(open)
    {
      if !insideMenu {
        open := false;
      }
    }
  }
}
