/** The product card's add-to-cart action (components/ProductCard.tsx). */
module ProductCard {
  import opened Base
  import opened Js
  import opened Api
  import opened Toasts
  import opened Effects
  import Catalog
  import Auth

  /** What the catch block reads from a thrown error:
      `err.response?.data?.message` (None when any link is missing) and
      `err.message` ("" when absent). */
  datatype RequestError = RequestError(responseMessage: Option<string>, message: string)

  /** How the POST ends. The client keeps axios's default status check, so
      only a 2xx response resolves (`Responded`); any other status, like a
      network failure, arrives as a thrown error (`Threw`). */
  datatype PostResult = Responded(status: int) | Threw(error: RequestError)

  /** The statuses the card reports as success: 200 and 201, both 2xx. */
  predicate Added(status: int)
    ensures Added(status) ==> 200 <= status <= 201
    ensures status == 200 ==> Added(status)
    ensures status == 201 ==> Added(status)
  {
    status == 201 || status == 200
  }

  const FailurePrefix := "FAILED_TO_ADD: "
  const UnknownError := "Unknown Error"

  /** The error thrown for a resolved 2xx response other than 200 or 201. */
  const UnexpectedStatus := RequestError(None, "Unexpected status code")

  /** The failure toast: the first non-empty of the response's message, the
      error's message and "Unknown Error", after the fixed prefix. */
  function FailureMessage(e: RequestError): (m: string)
    ensures |m| > |FailurePrefix| && m[..|FailurePrefix|] == FailurePrefix
    ensures e.responseMessage.Some? && e.responseMessage.value != "" ==> m == FailurePrefix + e.responseMessage.value
    ensures (e.responseMessage.None? || e.responseMessage.value == "") && e.message != "" ==> m == FailurePrefix + e.message
    ensures (e.responseMessage.None? || e.responseMessage.value == "") && e.message == "" ==> m == FailurePrefix + UnknownError
  {
    var detail :=
      if e.responseMessage.Some? && e.responseMessage.value != "" then e.responseMessage.value
      else if e.message != "" then e.message
      else UnknownError;
    FailurePrefix + detail
  }

  /** `addToCart`: without a user only the login toast is posted; otherwise
      the fixed body is posted and exactly one toast reports the result,
      a success only for status 200 or 201. A resolved response is 2xx. */
  method AddToCart(user: Json<Auth.User>, product: Catalog.Product<Number>, result: PostResult)
    returns (effects: seq<Effect>)
    requires result.Responded? ==> 200 <= result.status < 300
    ensures !Truthy(user) ==> effects == [Notify("PLEASE LOGIN FIRST", Error)]
    ensures Truthy(user) ==> |effects| == 2 && effects[0] == Call(Request(POST, Cart, AddToCartBody(product.id, 1)))
    ensures Truthy(user) && result.Responded? && Added(result.status) ==>
      effects[1] == Notify("ITEM_ADDED_TO_CART", Success)
    ensures Truthy(user) && result.Responded? && !Added(result.status) ==>
      effects[1] == Notify(FailureMessage(UnexpectedStatus), Error)
    ensures Truthy(user) && result.Threw? ==> effects[1] == Notify(FailureMessage(result.error), Error)
  {
    if !Truthy(user) {
      effects := [Notify("PLEASE LOGIN FIRST", Error)];
      return;
    }
    effects := [Call(Request(POST, Cart, AddToCartBody(product.id, 1)))];
    var err: RequestError;
    match result {
      case Responded(status) =>
        if Added(status) {
          effects := effects + [Notify("ITEM_ADDED_TO_CART", Success)];
          return;
        }
        err := UnexpectedStatus;
      case Threw(e) =>
        err := e;
    }
    effects := effects + [Notify(FailureMessage(err), Error)];
  }

  /** A 2xx response other than 200 or 201 is reported with the thrown
      error's own message. */
  lemma UnexpectedStatusText()
    ensures FailureMessage(UnexpectedStatus) == "FAILED_TO_ADD: Unexpected status code"
  {
  }
}
