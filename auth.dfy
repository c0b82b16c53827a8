/** The authenticated request channel: an HTTP client whose request
    interceptor reads the stored token before every request and, when it is
    truthy, attaches it as a bearer credential. */
module Auth {

  import opened Wrappers
  import opened Browser
  import JsValues

  const AuthorizationHeader: string := "Authorization"
  const BearerPrefix: string := "Bearer "

  /** The outgoing headers once the interceptor has seen `token`, the result
      of `localStorage.getItem("token")`. */
  function WithBearer(token: Option<string>, headers: map<string, string>): (r: map<string, string>)
    ensures ItemTruthy(token) ==> AuthorizationHeader in r && r[AuthorizationHeader] == BearerPrefix + token.value
    ensures !ItemTruthy(token) ==> r == headers
    ensures forall k | k in headers && k != AuthorizationHeader :: k in r && r[k] == headers[k]
    ensures forall k | k in r && k != AuthorizationHeader :: k in headers
  {
    if ItemTruthy(token) then headers[AuthorizationHeader := BearerPrefix + token.value] else headers
  }

  /** The credential a server reads back out of an `Authorization` value. */
  function BearerCredential(header: string): (t: Option<string>)
    ensures t.Some? <==> |header| >= |BearerPrefix| && header[..|BearerPrefix|] == BearerPrefix
    ensures t.Some? ==> header == BearerPrefix + t.value
  {
    if |header| >= |BearerPrefix| && header[..|BearerPrefix|] == BearerPrefix
    then Some(header[|BearerPrefix|..])
    else None
  }

  /** The header carries the stored token exactly: reading the credential back
      out of it gives the token, character for character. */
  lemma BearerCarriesToken(token: string, headers: map<string, string>)
    requires token != ""
    ensures var r := WithBearer(Some(token), headers);
      AuthorizationHeader in r && BearerCredential(r[AuthorizationHeader]) == Some(token)
  {
    var h := BearerPrefix + token;
    assert h[..|BearerPrefix|] == BearerPrefix;
    assert h[|BearerPrefix|..] == token;
  }

  /** The part of an axios request config the interceptor can see. The
      interceptor changes `headers` in place and hands back the same
      object. */
  class RequestConfig {
    var url: string
    var verb: string
    var headers: map<string, string>
    var data: JsValues.JsValue

    constructor (url: string, verb: string, headers: map<string, string>, data: JsValues.JsValue)
      ensures this.url == url && this.verb == verb
      ensures this.headers == headers && this.data == data
    {
      this.url := url;
      this.verb := verb;
      this.headers := headers;
      this.data := data;
    }
  }

  /** The interceptor: it reads the store, never writes it, and changes no
      field of the config but `headers`. */
  method Intercept(storage: LocalStorage, config: RequestConfig) returns (result: RequestConfig)
    modifies config
    ensures result == config
    ensures config.headers == WithBearer(Lookup(storage.items, TokenKey), old(config.headers))
    ensures config.url == old(config.url) && config.verb == old(config.verb)
    ensures config.data == old(config.data)
    ensures unchanged(storage)
  {
    var token := storage.GetItem(TokenKey);
    if ItemTruthy(token) {
      config.headers := config.headers[AuthorizationHeader := BearerPrefix + token.value];
    }
    result := config;
  }
}
