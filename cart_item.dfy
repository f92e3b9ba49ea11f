/** One row of the cart (components/CartItem.tsx): the arguments its buttons
    pass to the page's handlers, and how it shows the price. */
module CartItem {
  import opened Js

  datatype LineProduct = LineProduct(id: int, name: string, price: Price)

  /** A cart line; `id` identifies the cart entry, not the product. */
  datatype CartLine = CartLine(id: int, quantity: int, product: LineProduct)

  /** The arguments of `onUpdateQuantity(id, newQty)`. */
  datatype QuantityRequest = QuantityRequest(lineId: int, quantity: int)

  function Max(a: int, b: int): int
  {
    if a >= b then a else b
  }

  /** The "−" button: one less, but never below 1. */
  function Decrement(item: CartLine): (r: QuantityRequest)
    ensures r.lineId == item.id
    ensures r.quantity >= 1
    ensures item.quantity >= 2 ==> r.quantity == item.quantity - 1
    ensures item.quantity <= 1 ==> r.quantity == 1
  {
    QuantityRequest(item.id, Max(1, item.quantity - 1))
  }

  /** The "+" button: one more. */
  function Increment(item: CartLine): (r: QuantityRequest)
    ensures r.lineId == item.id
    ensures r.quantity == item.quantity + 1
  {
    QuantityRequest(item.id, item.quantity + 1)
  }

  /** The REMOVE button: the argument of `onRemove`. */
  function RemoveTarget(item: CartLine): (lineId: int)
    ensures lineId == item.id
  {
    item.id
  }

  /** `Number(item.product.price || 0)`: a falsy price shows as 0. `toNumber`
      is `Number`'s string parser. */
  function DisplayPrice(price: Price, toNumber: string -> Number): (n: Number)
    ensures !PriceTruthy(price) ==> n == Finite(0.0)
    ensures PriceTruthy(price) ==> n == ToNumber(price, toNumber)
    ensures price.PriceNumber? ==> n == Finite(price.amount)
  {
    if PriceTruthy(price) then ToNumber(price, toNumber) else Finite(0.0)
  }

  /** Decrement undoes increment for every positive quantity; at the floor
      decrement is a fixed point. */
  lemma StepRoundTrip(item: CartLine)
    requires item.quantity >= 1
    ensures Decrement(item.(quantity := Increment(item).quantity)) == QuantityRequest(item.id, item.quantity)
    ensures item.quantity == 1 ==> Decrement(item) == QuantityRequest(item.id, item.quantity)
  {
  }
}
