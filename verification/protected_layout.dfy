/** The route guard (src/components/ProtectedLayout.tsx): what it renders, and whether its
    effect navigates to the credential page, as a function of the store's `user` and
    `loading`. */
module ProtectedLayout {
  import opened Base
  import opened Types

  /** The three things the guard can render: the pending spinner, nothing, or the sidebar
      and header around the protected page. */
  datatype GuardView = Spinner | Blank | Chrome

  const AuthPath := "/auth"

  /** The render decision: loading wins over everything; then a missing user renders
      nothing; otherwise the protected content with its chrome. */
  function Decide(user: Option<User>, loading: bool): (v: GuardView)
    ensures v == Spinner <==> loading
    ensures v == Blank <==> !loading && user.None?
    ensures v == Chrome <==> !loading && user.Some?
  {
    if loading then Spinner
    else if user.None? then Blank
    else Chrome
  }

  /** The effect: navigate to `/auth` when not loading and there is no user. */
  function Redirect(user: Option<User>, loading: bool): (r: Option<string>)
    ensures r.Some? ==> r.value == AuthPath
    ensures r.Some? <==> Decide(user, loading) == Blank
    ensures loading ==> r.None?
  {
    if !loading && user.None? then Some(AuthPath) else None
  }
}
