/** The API client (lib/api.ts): the requests the storefront sends, and the
    request interceptor that attaches the stored bearer token. */
module Api {
  import opened Base

  datatype Verb = GET | POST | PATCH | DELETE

  /** The endpoints the core calls; `CartEntry(id)` is `/cart/:id`. */
  datatype Path =
    | Products
    | Cart
    | CartEntry(lineId: int)
    | UsersAddress
    | UsersUpdate
    | Orders
    | AuthMe
    | AuthLogin
    | AuthSignup

  /** The five fields of the new-address form, posted as they are. */
  datatype AddressFields = AddressFields(lineOne: string, lineTwo: string, city: string, country: string, pincode: string)

  const EmptyAddressFields := AddressFields("", "", "", "", "")

  datatype Body =
    | NoBody
    | AddToCartBody(productId: int, quantity: int)
    | QuantityBody(quantity: int)
    | AddressBody(fields: AddressFields)
    | DefaultAddressBody(defaultShippingAddressId: int)
    | LoginBody(email: string, password: string)
    | SignupBody(name: string, email: string, password: string)

  datatype Request = Request(verb: Verb, path: Path, body: Body)

  const AuthorizationHeader := "Authorization"
  const BearerPrefix := "Bearer "

  /** `if (token)`: a stored token is used only when it is a non-empty string. */
  predicate TokenTruthy(token: Option<string>)
    ensures token.None? ==> !TokenTruthy(token)
    ensures token == Some("") ==> !TokenTruthy(token)
    ensures token.Some? && token.value != "" ==> TokenTruthy(token)
  {
    token.Some? && token.value != ""
  }

  /** The headers after the interceptor's write: the bearer header is set
      (or overwritten) exactly when a token is present, and every other entry
      is left as it was. */
  function WithAuthorization(headers: map<string, string>, token: Option<string>): (r: map<string, string>)
    ensures TokenTruthy(token) ==> r.Keys == headers.Keys + {AuthorizationHeader}
    ensures TokenTruthy(token) ==> r[AuthorizationHeader] == BearerPrefix + token.value
    ensures !TokenTruthy(token) ==> r == headers
    ensures forall k :: k in headers && k != AuthorizationHeader ==> k in r && r[k] == headers[k]
  {
    if TokenTruthy(token) then headers[AuthorizationHeader := BearerPrefix + token.value] else headers
  }

  /** An outgoing request's configuration; its headers may be null or
      undefined (None). */
  class RequestConfig {
    var headers: Option<map<string, string>>

    constructor (headers: Option<map<string, string>>)
      ensures this.headers == headers
    {
      this.headers := headers;
    }
  }

  /** The request interceptor. Outside a browser window it returns the
      configuration untouched; in a window it replaces null headers by an
      empty map and then writes the bearer header when a token is stored.
      `storedToken` is what `localStorage.getItem("token")` returns. */
  method Intercept(config: RequestConfig, hasWindow: bool, storedToken: Option<string>) returns (r: RequestConfig)
    modifies config
    ensures r == config
    ensures !hasWindow ==> config.headers == old(config.headers)
    ensures hasWindow ==> config.headers.Some?
    ensures hasWindow && old(config.headers).None? ==> config.headers.value == WithAuthorization(map[], storedToken)
    ensures hasWindow && old(config.headers).Some? ==> config.headers.value == WithAuthorization(old(config.headers).value, storedToken)
  {
    if hasWindow {
      if config.headers.None? {
        config.headers := Some(map[]);
      }
      if TokenTruthy(storedToken) {
        config.headers := Some(config.headers.value[AuthorizationHeader := BearerPrefix + storedToken.value]);
      }
    }
    r := config;
  }
}
