/** How the pages meet through the stored token: what login, logout and a
    failed login mean for the route guard and for the authenticated request
    channel. */
module Session {

  import opened Wrappers
  import opened Browser
  import opened JsValues
  import Auth
  import PrivateRoute
  import Login
  import CreateRecipe

  /** A login answered with a non-empty token string opens the guard, and
      every later authenticated request carries exactly that token. */
  lemma LoginGrantsAccess<C>(store: Store, props: map<string, JsValue>, token: string,
                             children: C, headers: map<string, string>)
    requires "token" in props && props["token"] == Str(token) && token != ""
    ensures var o := Login.LoginTransition(store, Login.Resolved(Obj(props)));
      && Lookup(o.store, TokenKey) == Some(token)
      && PrivateRoute.Guard(o.store, children) == PrivateRoute.Children(children)
      && var sent := Auth.WithBearer(Lookup(o.store, TokenKey), headers);
         Auth.AuthorizationHeader in sent
         && Auth.BearerCredential(sent[Auth.AuthorizationHeader]) == Some(token)
  {
    Auth.BearerCarriesToken(token, headers);
  }

  /** A login answered with a body that has no token is still taken as a
      success: the string "undefined" is stored, the guard opens, and requests
      carry "Bearer undefined". */
  lemma MissingTokenGrantsAccess<C>(store: Store, props: map<string, JsValue>,
                                    children: C, headers: map<string, string>)
    requires "token" !in props
    ensures var o := Login.LoginTransition(store, Login.Resolved(Obj(props)));
      && Lookup(o.store, TokenKey) == Some("undefined")
      && o.nav == Some(Navigation(KitchenPath, false))
      && PrivateRoute.Guard(o.store, children) == PrivateRoute.Children(children)
      && Auth.WithBearer(Lookup(o.store, TokenKey), headers)[Auth.AuthorizationHeader]
         == "Bearer undefined"
  {
  }

  /** A login answered with `{ token: null }` is taken as a success as well:
      the string "null" is stored, which is truthy, so the guard opens and
      requests carry "Bearer null". */
  lemma NullTokenGrantsAccess<C>(store: Store, props: map<string, JsValue>,
                                 children: C, headers: map<string, string>)
    requires "token" in props && props["token"] == Null
    ensures var o := Login.LoginTransition(store, Login.Resolved(Obj(props)));
      && Lookup(o.store, TokenKey) == Some("null")
      && o.error == "" && o.nav == Some(Navigation(KitchenPath, false))
      && PrivateRoute.Guard(o.store, children) == PrivateRoute.Children(children)
      && Auth.WithBearer(Lookup(o.store, TokenKey), headers)[Auth.AuthorizationHeader]
         == "Bearer null"
  {
  }

  /** A failed login changes nothing the guard or the channel can see. */
  lemma FailedLoginChangesNothing<C>(store: Store, children: C, headers: map<string, string>)
    ensures var o := Login.LoginTransition(store, Login.Rejected);
      && PrivateRoute.Guard(o.store, children) == PrivateRoute.Guard(store, children)
      && Auth.WithBearer(Lookup(o.store, TokenKey), headers)
         == Auth.WithBearer(Lookup(store, TokenKey), headers)
  {
  }

  /** After logout the guard redirects to the login page and requests go out
      without a bearer credential, whatever the store held before. */
  lemma LogoutRevokesAccess<C>(store: Store, children: C, headers: map<string, string>)
    ensures var after := CreateRecipe.LogoutStore(store);
      && Lookup(after, TokenKey) == None && Lookup(after, UsernameKey) == None
      && PrivateRoute.Guard(after, children) == PrivateRoute.Redirect(Navigation(LoginPath, true))
      && Auth.WithBearer(Lookup(after, TokenKey), headers) == headers
  {
  }

  /** After logout a recipe save sends nothing and goes to the login page. */
  lemma LogoutBlocksSaving(store: Store, s: CreateRecipe.PageState, reply: CreateRecipe.SaveReply)
    ensures var o := CreateRecipe.SubmitTransition(s, CreateRecipe.LogoutStore(store), reply);
      o.request == None && o.nav == Some(Navigation(LoginPath, false))
  {
  }

  /** Three guard cases: a stored "abc123" renders the protected view; an
      empty store or an empty token redirects. */
  lemma GuardExamples<C>(children: C)
    ensures PrivateRoute.Guard(map[TokenKey := "abc123"], children) == PrivateRoute.Children(children)
    ensures PrivateRoute.Guard(map[], children) == PrivateRoute.Redirect(Navigation(LoginPath, true))
    ensures PrivateRoute.Guard(map[TokenKey := ""], children) == PrivateRoute.Redirect(Navigation(LoginPath, true))
  {
  }
}
