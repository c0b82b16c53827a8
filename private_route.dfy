/** The route guard: render the protected element when a token is stored,
    otherwise replace the current history entry with the login page. */
module PrivateRoute {

  import opened Browser

  /** What the guard renders: its children, or `<Navigate to=... replace />`. */
  datatype Element<C> = Children(children: C) | Redirect(nav: Navigation)

  function Guard<C>(store: Store, children: C): (e: Element<C>)
    ensures e.Children? <==> HasToken(store)
    ensures e.Children? ==> e.children == children
    ensures e.Redirect? ==> e.nav == Navigation(LoginPath, true)
  {
    if HasToken(store) then Children(children) else Redirect(Navigation(LoginPath, true))
  }

  /** The decision looks at nothing but whether the stored token is truthy:
      two stores that agree on that get the same element, whatever else they
      hold and whatever the token says. */
  lemma GuardReadsOnlyToken<C>(s1: Store, s2: Store, children: C)
    requires HasToken(s1) == HasToken(s2)
    ensures Guard(s1, children) == Guard(s2, children)
  {
  }
}
