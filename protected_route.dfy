/** The authentication guard wrapped around the private routes. */
module ProtectedRoute {
  import opened Options
  import opened Routes

  /** `localStorage.getItem("isAuthenticated") === "true"`: an absent flag is `None`. */
  function Authenticated(flag: Option<string>): (r: bool)
    ensures r <==> flag == Some("true")
  {
    flag.Some? && flag.value == "true"
  }

  /** What the guard returns. */
  datatype Guarded<T> = Children(children: T) | RedirectTo(path: string, replace: bool)

  function Guard<T>(flag: Option<string>, children: T): (g: Guarded<T>)
    ensures g.Children? <==> Authenticated(flag)
    ensures g.Children? ==> g.children == children
    ensures g.RedirectTo? ==> g.path == Login && g.replace
  {
    if !Authenticated(flag) then RedirectTo(Login, true) else Children(children)
  }

  /** Any other stored value, including "True" and "1", counts as signed out. */
  lemma OnlyExactTrueAdmits()
    ensures !Authenticated(None) && !Authenticated(Some("True")) && !Authenticated(Some("1"))
    ensures !Authenticated(Some("false")) && Authenticated(Some("true"))
  {
  }
}
