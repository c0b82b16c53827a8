/** The login page: it posts the two form fields, stores the token the server
    answers with and moves on to the kitchen, or shows "Login failed". */
module Login {

  import opened Wrappers
  import opened Browser
  import opened JsValues

  const LoginFailed: string := "Login failed"

  /** The body of `POST /auth/login`. */
  datatype Credentials = Credentials(username: string, password: string)

  /** How the login request settles: rejected (network error or non-2xx
      status), or resolved with the parsed body `res.data`. */
  datatype LoginReply = Rejected | Resolved(data: JsValue)

  /** What `handleLogin` leaves behind: the store, the error shown, and where
      it navigated. */
  datatype LoginOutcome = LoginOutcome(store: Store, error: string, nav: Option<Navigation>)

  /** The string `localStorage.setItem("token", res.data.token)` writes, or
      None when the handler ends in its catch block first. `setItem`
      converts its argument with `String(...)`, so no value is refused. */
  function WrittenToken(reply: LoginReply): Option<string>
  {
    match reply
    case Rejected => None
    case Resolved(data) =>
      match Property(data, "token")
      case None => None
      case Some(token) => Some(ToStr(token))
  }

  /** `handleLogin` on the store it finds. */
  function LoginTransition(store: Store, reply: LoginReply): (o: LoginOutcome)
    // a rejected request, or a body of undefined or null (reading `.token`
    // throws), ends in the catch block: nothing is stored, nowhere to go
    ensures reply.Rejected? || (reply.Resolved? && (reply.data.Undefined? || reply.data.Null?))
      ==> o == LoginOutcome(store, LoginFailed, None)
    // any other body is accepted: the token key gets whatever `.token` reads
    ensures reply.Resolved? && !reply.data.Undefined? && !reply.data.Null? ==>
      && TokenKey in o.store
      && (reply.data.Obj? && "token" in reply.data.props && reply.data.props["token"].Str?
          ==> o.store[TokenKey] == reply.data.props["token"].s)
      && (reply.data.Obj? && "token" !in reply.data.props ==> o.store[TokenKey] == "undefined")
      && o.error == ""
      && o.nav == Some(Navigation(KitchenPath, false))
    // whatever `.token` reads is stored as `String(...)` makes it: null as
    // "null", a number as its numeral
    ensures reply.Resolved? && Property(reply.data, "token").Some? ==>
      TokenKey in o.store && o.store[TokenKey] == ToStr(Property(reply.data, "token").value)
    // nothing but the token key is ever written
    ensures forall k | k in store && k != TokenKey :: k in o.store && o.store[k] == store[k]
    ensures forall k | k in o.store && k != TokenKey :: k in store
    ensures Lookup(o.store, UsernameKey) == Lookup(store, UsernameKey)
  {
    match WrittenToken(reply)
    case None => LoginOutcome(store, LoginFailed, None)
    case Some(token) => LoginOutcome(store[TokenKey := token], "", Some(Navigation(KitchenPath, false)))
  }

  /** The login page's state. */
  class LoginPage {
    var username: string
    var password: string
    var error: string

    constructor ()
      ensures username == "" && password == "" && error == ""
    {
      username, password, error := "", "", "";
    }

    /** The username input's `onChange`. */
    method SetUsername(value: string)
      modifies this
      ensures username == value && password == old(password) && error == old(error)
    {
      username := value;
    }

    /** The password input's `onChange`. */
    method SetPassword(value: string)
      modifies this
      ensures password == value && username == old(username) && error == old(error)
    {
      password := value;
    }

    /** `handleLogin`: it sends `request`, then settles as `reply` says. */
    method HandleLogin(storage: LocalStorage, reply: LoginReply) returns (request: Credentials, nav: Option<Navigation>)
      modifies this, storage
      ensures request == Credentials(old(username), old(password))
      ensures username == old(username) && password == old(password)
      ensures var o := LoginTransition(old(storage.items), reply);
        storage.items == o.store && error == o.error && nav == o.nav
    {
      request := Credentials(username, password);
      match reply
      case Rejected =>
        error := LoginFailed;
        nav := None;
      case Resolved(data) =>
        var token := Property(data, "token");
        if token.None? {
          error := LoginFailed;
          nav := None;
        } else {
          storage.SetItem(TokenKey, ToStr(token.value));
          error := "";
          nav := Some(Navigation(KitchenPath, false));
        }
    }
  }
}
