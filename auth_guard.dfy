/** The authentication guard (components/auth/auth-guard.tsx) around every
    page: from the authentication state and the path it decides where the
    router is sent and whether the page is rendered. */
module AuthGuard {
  import opened Common

  const LoginPath := "/login"
  const RegisterPath := "/register"
  const HomePath := "/"

  const PublicPaths := [LoginPath, RegisterPath]

  /** `publicPaths.includes(pathname)`: exact string equality. */
  predicate IsPublic(pathname: string)
  {
    pathname in PublicPaths
  }

  /** Where the effect pushes the router, if anywhere, and whether the
      children are rendered. */
  datatype Decision = Decision(redirect: Option<string>, renderChildren: bool)

  function Guard(isAuthenticated: bool, pathname: string): (d: Decision)
    ensures d.redirect == Some(LoginPath) <==> !isAuthenticated && !IsPublic(pathname)
    ensures d.redirect == Some(HomePath) <==> isAuthenticated && IsPublic(pathname)
    ensures d.redirect.None? <==> (isAuthenticated <==> !IsPublic(pathname))
    ensures !d.renderChildren <==> d.redirect == Some(LoginPath)
  {
    if !isAuthenticated && !IsPublic(pathname) then Decision(Some(LoginPath), false)
    else if isAuthenticated && IsPublic(pathname) then Decision(Some(HomePath), true)
    else Decision(None, true)
  }

  /** The guard never sends the router to the page it is on, and the page
      it sends it to lets the same user stay: there is no redirect loop. */
  lemma GuardSettles(isAuthenticated: bool, pathname: string)
    ensures var d := Guard(isAuthenticated, pathname);
            d.redirect.Some? ==>
              d.redirect.value != pathname &&
              Guard(isAuthenticated, d.redirect.value) == Decision(None, true)
  {
  }
}
