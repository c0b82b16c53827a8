/** The browser facilities every page leans on: `localStorage` as a map from
    key to string, the three keys the application uses, and the navigation
    requests a page hands to the router. */
module Browser {

  import opened Wrappers

  /** The contents of `localStorage`. */
  type Store = map<string, string>

  const TokenKey: string := "token"
  const UsernameKey: string := "username"
  const RecipesKey: string := "recipes"

  const LoginPath: string := "/login"
  const KitchenPath: string := "/ai-kitchen"

  /** `localStorage.getItem(key)`: the stored string, or null. */
  function Lookup(store: Store, key: string): Option<string>
  {
    if key in store then Some(store[key]) else None
  }

  /** JavaScript truthiness of a `getItem` result: null and "" are falsy. */
  predicate ItemTruthy(v: Option<string>)
  {
    v.Some? && v.value != ""
  }

  /** `localStorage.getItem(key) || ""` */
  function OrEmpty(v: Option<string>): (s: string)
    ensures s != "" <==> ItemTruthy(v)
    ensures ItemTruthy(v) ==> s == v.value
  {
    if ItemTruthy(v) then v.value else ""
  }

  /** A session is signed in, as far as the client can tell, when the stored
      token is truthy. */
  predicate HasToken(store: Store)
  {
    ItemTruthy(Lookup(store, TokenKey))
  }

  /** `navigate(path)` from a handler, or `<Navigate to={path} replace />`. */
  datatype Navigation = Navigation(path: string, replace: bool)

  /** `localStorage`, the one piece of state shared by every page. */
  class LocalStorage {
    var items: Store

    constructor (initial: Store)
      ensures items == initial
    {
      items := initial;
    }

    method GetItem(key: string) returns (v: Option<string>)
      ensures v == Lookup(items, key)
    {
      v := if key in items then Some(items[key]) else None;
    }

    method SetItem(key: string, value: string)
      modifies this
      ensures items == old(items)[key := value]
    {
      items := items[key := value];
    }

    method RemoveItem(key: string)
      modifies this
      ensures items == old(items) - {key}
    {
      items := items - {key};
    }
  }
}
