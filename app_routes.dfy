/** The top-level routing of the client: the redirect that `AppContent` performs whenever the
    auth state or the location changes, and its route table. */
module Routing {
  import opened Wrappers
  import Auth

  /** The pages the route table can show; `MainLayout` is opaque to this model. */
  datatype Page = AuthPage | MainLayout

  /** The two public paths: the sign-in page is mounted at both. */
  predicate IsAuthPath(path: string) {
    path == "/" || path == "/auth"
  }

  /** Paths matched by the splat route under `/home`: `/home` itself and everything below it. */
  predicate IsHomePath(path: string) {
    path == "/home" || (|path| >= 6 && path[..6] == "/home/")
  }

  /** The `navigate` target chosen by the redirect effect, or None when it stays put. */
  function RedirectTarget(user: Option<Auth.AuthUser>, loading: bool, path: string): (r: Option<string>)
    ensures loading ==> r.None?
    ensures !loading && user.Some? ==> (r.Some? <==> IsAuthPath(path))
    ensures !loading && user.None? ==> (r.Some? <==> !IsAuthPath(path))
    ensures r.Some? ==> r.value == (if user.Some? then "/home" else "/")
  {
    if loading then None
    else if user.Some? then
      if IsAuthPath(path) then Some("/home") else None
    else
      if !IsAuthPath(path) then Some("/") else None
  }

  /** The page the route table renders at `path`, or None when no route matches. */
  function RouteFor(path: string, user: Option<Auth.AuthUser>): (r: Option<Page>)
    ensures IsAuthPath(path) ==> r == Some(AuthPage)
    ensures IsHomePath(path) ==> r == Some(if user.Some? then MainLayout else AuthPage)
    ensures r.None? <==> !IsAuthPath(path) && !IsHomePath(path)
  {
    if IsAuthPath(path) then Some(AuthPage)
    else if IsHomePath(path) then Some(if user.Some? then MainLayout else AuthPage)
    else None
  }

  /** Where the user ends up after the redirect has run once. */
  function Landing(user: Option<Auth.AuthUser>, loading: bool, path: string): string {
    RedirectTarget(user, loading, path).GetOr(path)
  }

  /** The redirect reaches a fixpoint in one step: at the path it chose it does not move again. */
  lemma RedirectIsFixpoint(user: Option<Auth.AuthUser>, loading: bool, path: string)
    ensures RedirectTarget(user, loading, Landing(user, loading, path)).None?
  {
  }

  /** Once loading is over, a signed-out user always lands on the sign-in page, and a
      signed-in user who starts on a public path or under `/home` lands on the main layout. */
  lemma LandingPage(user: Option<Auth.AuthUser>, path: string)
    ensures user.None? ==> RouteFor(Landing(user, false, path), user) == Some(AuthPage)
    ensures user.Some? && (IsAuthPath(path) || IsHomePath(path)) ==>
              RouteFor(Landing(user, false, path), user) == Some(MainLayout)
  {
  }

  /** A signed-in user at a path outside the route table is neither redirected nor shown
      a page: the table has no catch-all route. */
  lemma SignedInElsewhereShowsNothing(user: Auth.AuthUser, path: string)
    requires !IsAuthPath(path) && !IsHomePath(path)
    ensures Landing(Some(user), false, path) == path
    ensures RouteFor(path, Some(user)).None?
  {
  }
}
