/** The cart page controller (app/cart/page.tsx): it loads the cart and the
    addresses, derives the totals, changes quantities, removes lines, adds an
    address and checks out. */
module Cart {
  import opened Base
  import opened Js
  import opened Api
  import opened Toasts
  import opened Effects
  import opened CartItem
  import Auth

  datatype Address = Address(id: int, lineOne: string, lineTwo: Option<string>, city: string, country: string, pincode: string)

  /** The page's `cart` state: the lines and the two totals derived from them. */
  datatype CartData = CartData(items: seq<CartLine>, totalPrice: Number, totalQuantity: int)

  // ---------------------------------------------------------------------
  // Response shape

  /** `Array.isArray(d) ? d : d.items || d`: an array is used as it is;
      otherwise the body's `items` if truthy, else the body itself. Reading
      `items` of null or undefined throws (None). */
  function CartArray(body: Json<CartLine>): (r: Option<Json<CartLine>>)
    ensures r.None? <==> body.Undefined? || body.Null?
    ensures body.Arr? ==> r == Some(body)
    ensures body.Obj? && "items" in body.fields && Truthy(body.fields["items"]) ==> r == Some(body.fields["items"])
    ensures r.Some? && !body.Arr? && !(body.Obj? && "items" in body.fields && Truthy(body.fields["items"])) ==> r == Some(body)
  {
    if body.Arr? then Some(body)
    else
      match Get(body, "items")
      case None => None
      case Some(items) => Some(if Truthy(items) then items else body)
  }

  /** The lines the totals are reduced over. `reduce` exists only on arrays,
      so a body that is neither an array nor a wrapper whose `items` is an
      array makes the load throw (None). */
  function CartLines(body: Json<CartLine>): (r: Option<seq<CartLine>>)
    ensures r.Some? <==> body.Arr? || (body.Obj? && "items" in body.fields && body.fields["items"].Arr?)
    ensures body.Arr? ==> r == Some(body.elems)
    ensures body.Obj? && "items" in body.fields && body.fields["items"].Arr? ==> r == Some(body.fields["items"].elems)
  {
    match CartArray(body)
    case Some(Arr(lines)) => Some(lines)
    case _ => None
  }

  // ---------------------------------------------------------------------
  // Derived totals

  /** `parseFloat(item.product.price) * item.quantity`. */
  function LineAmount(line: CartLine, parseFloat: string -> Number): (r: Number)
    ensures r.Finite? <==> ToNumber(line.product.price, parseFloat).Finite?
    ensures r.Finite? ==> r.value == ToNumber(line.product.price, parseFloat).value * (line.quantity as real)
  {
    Mul(ToNumber(line.product.price, parseFloat), Finite(line.quantity as real))
  }

  /** `reduce((sum, item) => sum + amount, 0)`: a left fold from 0. */
  function TotalPrice(lines: seq<CartLine>, parseFloat: string -> Number): (r: Number)
    ensures r.Finite? <==> Priced(lines, parseFloat)
    decreases |lines|
  {
    if lines == [] then Finite(0.0)
    else Add(TotalPrice(lines[..|lines| - 1], parseFloat), LineAmount(lines[|lines| - 1], parseFloat))
  }

  /** `reduce((sum, item) => sum + item.quantity, 0)`. With every quantity
      at least 1, the cart holds at least one unit per line. */
  function TotalQuantity(lines: seq<CartLine>): (r: int)
    ensures (forall i :: 0 <= i < |lines| ==> lines[i].quantity >= 1) ==> r >= |lines|
    decreases |lines|
  {
    if lines == [] then 0 else TotalQuantity(lines[..|lines| - 1]) + lines[|lines| - 1].quantity
  }

  /** Every line's price converts to a number (not NaN). */
  predicate Priced(lines: seq<CartLine>, parseFloat: string -> Number)
  {
    forall i :: 0 <= i < |lines| ==> ToNumber(lines[i].product.price, parseFloat).Finite?
  }

  /** Reference definition: the sum of price × quantity over the lines. */
  ghost function Subtotal(lines: seq<CartLine>, parseFloat: string -> Number): real
    requires Priced(lines, parseFloat)
    decreases |lines|
  {
    if lines == [] then 0.0
    else ToNumber(lines[0].product.price, parseFloat).value * (lines[0].quantity as real) + Subtotal(lines[1..], parseFloat)
  }

  /** Reference definition: the sum of the quantities. */
  ghost function QuantitySum(lines: seq<CartLine>): int
    decreases |lines|
  {
    if lines == [] then 0 else lines[0].quantity + QuantitySum(lines[1..])
  }

  lemma {:induction false} SubtotalSnoc(lines: seq<CartLine>, x: CartLine, parseFloat: string -> Number)
    requires Priced(lines + [x], parseFloat)
    ensures Priced(lines, parseFloat) && ToNumber(x.product.price, parseFloat).Finite?
    ensures Subtotal(lines + [x], parseFloat)
         == Subtotal(lines, parseFloat) + ToNumber(x.product.price, parseFloat).value * (x.quantity as real)
    decreases |lines|
  {
    assert forall i :: 0 <= i < |lines| ==> lines[i] == (lines + [x])[i];
    assert (lines + [x])[|lines|] == x;
    if lines != [] {
      assert (lines + [x])[1..] == lines[1..] + [x];
      assert (lines + [x])[0] == lines[0];
      SubtotalSnoc(lines[1..], x, parseFloat);
    } else {
      assert lines + [x] == [x];
    }
  }

  lemma {:induction false} QuantitySumSnoc(lines: seq<CartLine>, x: CartLine)
    ensures QuantitySum(lines + [x]) == QuantitySum(lines) + x.quantity
    decreases |lines|
  {
    if lines != [] {
      assert (lines + [x])[1..] == lines[1..] + [x];
      assert (lines + [x])[0] == lines[0];
      QuantitySumSnoc(lines[1..], x);
    } else {
      assert lines + [x] == [x];
    }
  }

  /** `totalPrice` is the sum of price × quantity over the lines when every
      price converts, and NaN as soon as one does not. */
  lemma {:induction false} TotalPriceIsSubtotal(lines: seq<CartLine>, parseFloat: string -> Number)
    ensures Priced(lines, parseFloat) ==> TotalPrice(lines, parseFloat) == Finite(Subtotal(lines, parseFloat))
    ensures !Priced(lines, parseFloat) ==> TotalPrice(lines, parseFloat) == NaN
    decreases |lines|
  {
    if lines != [] {
      var init, last := lines[..|lines| - 1], lines[|lines| - 1];
      assert lines == init + [last];
      TotalPriceIsSubtotal(init, parseFloat);
      assert forall i :: 0 <= i < |init| ==> init[i] == lines[i];
      if Priced(lines, parseFloat) {
        SubtotalSnoc(init, last, parseFloat);
      } else {
        var k :| 0 <= k < |lines| && !ToNumber(lines[k].product.price, parseFloat).Finite?;
        if k < |init| {
          assert !Priced(init, parseFloat);
        } else {
          assert k == |lines| - 1;
        }
      }
    }
  }

  /** `totalQuantity` is the sum of the quantities. */
  lemma {:induction false} TotalQuantityIsSum(lines: seq<CartLine>)
    ensures TotalQuantity(lines) == QuantitySum(lines)
    decreases |lines|
  {
    if lines != [] {
      var init, last := lines[..|lines| - 1], lines[|lines| - 1];
      assert lines == init + [last];
      TotalQuantityIsSum(init);
      QuantitySumSnoc(init, last);
    }
  }

  /** An empty cart totals 0 and 0; two lines, 2 at 10.00 and 1 at 5.00,
      total 25.00 for 3 units. */
  lemma TotalsExamples(parseFloat: string -> Number)
    ensures TotalPrice([], parseFloat) == Finite(0.0) && TotalQuantity([]) == 0
    ensures var lines := [CartLine(1, 2, LineProduct(7, "a", PriceNumber(10.0))), CartLine(2, 1, LineProduct(8, "b", PriceNumber(5.0)))];
      TotalPrice(lines, parseFloat) == Finite(25.0) && TotalQuantity(lines) == 3
  {
    var lines := [CartLine(1, 2, LineProduct(7, "a", PriceNumber(10.0))), CartLine(2, 1, LineProduct(8, "b", PriceNumber(5.0)))];
    assert lines[..1] == [lines[0]];
    assert [lines[0]][..0] == [];
  }

  // ---------------------------------------------------------------------
  // Loading

  /** How `fetchData`'s try block ends. */
  datatype LoadResult = LoadFailed | Loaded(lines: seq<CartLine>, addresses: seq<Address>)

  /** The load succeeds when both requests resolve and the cart body has a
      shape the totals can be reduced over. */
  function LoadOf(cartRes: Outcome<Json<CartLine>>, addrRes: Outcome<seq<Address>>): (r: LoadResult)
    ensures r.Loaded? <==> cartRes.Resolved? && addrRes.Resolved? && CartLines(cartRes.value).Some?
    ensures r.Loaded? ==> r.lines == CartLines(cartRes.value).value && r.addresses == addrRes.value
  {
    if cartRes.Rejected? || addrRes.Rejected? then LoadFailed
    else
      match CartLines(cartRes.value)
      case None => LoadFailed
      case Some(lines) => Loaded(lines, addrRes.value)
  }

  /** The two requests `fetchData` issues together. */
  const LoadCalls: seq<Effect> := [Call(Request(GET, Cart, NoBody)), Call(Request(GET, UsersAddress, NoBody))]

  /** The toast a load posts: one error toast exactly when it fails. */
  function LoadNotices(r: LoadResult): (n: seq<Effect>)
    ensures r.LoadFailed? <==> n == [Notify("Failed to load cart data", Error)]
    ensures r.Loaded? <==> n == []
  {
    if r.LoadFailed? then [Notify("Failed to load cart data", Error)] else []
  }

  /** `!selectedAddressId` is false: an id is selected and it is not 0. */
  predicate HasSelection(selected: Option<int>)
    ensures selected.None? ==> !HasSelection(selected)
    ensures selected == Some(0) ==> !HasSelection(selected)
    ensures selected.Some? && selected.value != 0 ==> HasSelection(selected)
  {
    selected.Some? && selected.value != 0
  }

  /** The browser's `required` check on the form (line one, city, pincode
      and country must be non-empty; line two is optional). */
  predicate Submittable(f: AddressFields)
    ensures Submittable(f) ==> f != EmptyAddressFields
    ensures f.lineOne == "" || f.city == "" || f.pincode == "" || f.country == "" ==> !Submittable(f)
  {
    f.lineOne != "" && f.city != "" && f.pincode != "" && f.country != ""
  }

  /** The checkout's first call: make the selected address the default. */
  function SetDefaultAddress(id: int): (r: Request)
    ensures r.verb == POST && r.path == UsersUpdate
    ensures r.body.DefaultAddressBody? && r.body.defaultShippingAddressId == id
    ensures r != CreateOrder
  {
    Request(POST, UsersUpdate, DefaultAddressBody(id))
  }

  const CreateOrder := Request(POST, Orders, NoBody)

  /** The cart page's state. `parseFloat` is `parseFloat`'s string parser;
      `effects` lists the requests, toasts and navigations in order. */
  class CartPage {
    const parseFloat: string -> Number
    var cart: Option<CartData>
    var loading: bool
    var addresses: seq<Address>
    var selectedAddressId: Option<int>
    var showAddAddress: bool
    var newAddress: AddressFields
    var effects: seq<Effect>

    /** The totals held in `cart` are always those of its lines. */
    ghost predicate Valid()
      reads this
    {
      cart.Some? ==>
        && cart.value.totalPrice == TotalPrice(cart.value.items, parseFloat)
        && cart.value.totalQuantity == TotalQuantity(cart.value.items)
    }

    /** The totals shown for the page's cart are the sum of the quantities
        and, when every price converts, the sum of price times quantity. */
    lemma CartTotals()
      requires Valid() && cart.Some?
      ensures cart.value.totalQuantity == QuantitySum(cart.value.items)
      ensures Priced(cart.value.items, parseFloat) ==> cart.value.totalPrice == Finite(Subtotal(cart.value.items, parseFloat))
      ensures !Priced(cart.value.items, parseFloat) ==> cart.value.totalPrice == NaN
    {
      TotalQuantityIsSum(cart.value.items);
      TotalPriceIsSubtotal(cart.value.items, parseFloat);
    }

    /** What a completed load did to the page's state. */
    twostate predicate LoadApplied(r: LoadResult)
      reads this
    {
      && !loading
      && showAddAddress == old(showAddAddress) && newAddress == old(newAddress)
      && (r.LoadFailed? ==>
            cart == old(cart) && addresses == old(addresses) && selectedAddressId == old(selectedAddressId))
      && (r.Loaded? ==>
            && cart == Some(CartData(r.lines, TotalPrice(r.lines, parseFloat), TotalQuantity(r.lines)))
            && addresses == r.addresses
            && selectedAddressId == (if |r.addresses| > 0 then Some(r.addresses[0].id) else old(selectedAddressId)))
    }

    /** The cart, the addresses, the selection and `loading` are as they were. */
    twostate predicate KeepsData()
      reads this
    {
      cart == old(cart) && loading == old(loading) && addresses == old(addresses)
      && selectedAddressId == old(selectedAddressId)
    }

    /** The address form is as it was. */
    twostate predicate KeepsForm()
      reads this
    {
      showAddAddress == old(showAddAddress) && newAddress == old(newAddress)
    }

    constructor (parseFloat: string -> Number)
      ensures Valid() && this.parseFloat == parseFloat
      ensures cart == None && loading && addresses == [] && selectedAddressId == None
      ensures !showAddAddress && newAddress == EmptyAddressFields && effects == []
    {
      this.parseFloat := parseFloat;
      cart := None;
      loading := true;
      addresses := [];
      selectedAddressId := None;
      showAddAddress := false;
      newAddress := EmptyAddressFields;
      effects := [];
    }

    /** `fetchData` up to its `await`: both requests are issued. */
    method IssueLoad()
      modifies this`effects
      ensures effects == old(effects) + LoadCalls
    {
      effects := effects + LoadCalls;
    }

    /** `fetchData` after its `await`: on success the cart and its totals are
        set, the address list replaced and, when it is non-empty, its first
        address selected; on failure an error toast is posted and the state
        kept. Loading ends either way. */
    method CompleteLoad(cartRes: Outcome<Json<CartLine>>, addrRes: Outcome<seq<Address>>)
      requires Valid()
      modifies this
      ensures Valid()
      ensures LoadApplied(LoadOf(cartRes, addrRes))
      ensures effects == old(effects) + LoadNotices(LoadOf(cartRes, addrRes))
    {
      var r := LoadOf(cartRes, addrRes);
      match r {
        case LoadFailed =>
          effects := effects + [Notify("Failed to load cart data", Error)];
        case Loaded(lines, addrList) =>
          cart := Some(CartData(lines, TotalPrice(lines, parseFloat), TotalQuantity(lines)));
          addresses := addrList;
          if |addrList| > 0 {
            selectedAddressId := Some(addrList[0].id);
          }
      }
      loading := false;
    }

    /** `fetchData`, its two requests awaited in sequence with the rest. */
    method FetchData(cartRes: Outcome<Json<CartLine>>, addrRes: Outcome<seq<Address>>)
      requires Valid()
      modifies this
      ensures Valid()
      ensures LoadApplied(LoadOf(cartRes, addrRes))
      ensures effects == old(effects) + LoadCalls + LoadNotices(LoadOf(cartRes, addrRes))
    {
      IssueLoad();
      CompleteLoad(cartRes, addrRes);
    }

    /** The effect on `[user]`: the page loads only when a user is logged in. */
    method OnUserChange(user: Json<Auth.User>, cartRes: Outcome<Json<CartLine>>, addrRes: Outcome<seq<Address>>)
      requires Valid()
      modifies this
      ensures Valid()
      ensures !Truthy(user) ==> KeepsData() && KeepsForm() && effects == old(effects)
      ensures Truthy(user) ==>
        LoadApplied(LoadOf(cartRes, addrRes)) && effects == old(effects) + LoadCalls + LoadNotices(LoadOf(cartRes, addrRes))
    {
      if Truthy(user) {
        FetchData(cartRes, addrRes);
      }
    }

    /** `updateQuantity(itemId, quantity)`: the PATCH first; only when it
        succeeds are the reload's requests issued, the success toast posted
        and the reload completed. On failure an error toast and no reload. */
    method UpdateQuantity(itemId: int, quantity: int, patchRes: Outcome<()>,
                          cartRes: Outcome<Json<CartLine>>, addrRes: Outcome<seq<Address>>)
      requires Valid()
      modifies this
      ensures Valid()
      ensures patchRes.Rejected? ==>
        && KeepsData() && KeepsForm()
        && effects == old(effects) + [Call(Request(PATCH, CartEntry(itemId), QuantityBody(quantity))),
                                      Notify("Failed to update quantity", Error)]
      ensures patchRes.Resolved? ==>
        && LoadApplied(LoadOf(cartRes, addrRes))
        && effects == old(effects) + [Call(Request(PATCH, CartEntry(itemId), QuantityBody(quantity)))]
                      + LoadCalls + [Notify("Quantity updated", Success)] + LoadNotices(LoadOf(cartRes, addrRes))
    {
      effects := effects + [Call(Request(PATCH, CartEntry(itemId), QuantityBody(quantity)))];
      if patchRes.Rejected? {
        effects := effects + [Notify("Failed to update quantity", Error)];
        return;
      }
      IssueLoad();
      effects := effects + [Notify("Quantity updated", Success)];
      CompleteLoad(cartRes, addrRes);
    }

    /** `removeItem(itemId)`: the DELETE first, then the reload only on
        success, in the same pattern as `UpdateQuantity`. */
    method RemoveItem(itemId: int, deleteRes: Outcome<()>,
                      cartRes: Outcome<Json<CartLine>>, addrRes: Outcome<seq<Address>>)
      requires Valid()
      modifies this
      ensures Valid()
      ensures deleteRes.Rejected? ==>
        && KeepsData() && KeepsForm()
        && effects == old(effects) + [Call(Request(DELETE, CartEntry(itemId), NoBody)),
                                      Notify("Failed to remove item", Error)]
      ensures deleteRes.Resolved? ==>
        && LoadApplied(LoadOf(cartRes, addrRes))
        && effects == old(effects) + [Call(Request(DELETE, CartEntry(itemId), NoBody))]
                      + LoadCalls + [Notify("Item removed", Info)] + LoadNotices(LoadOf(cartRes, addrRes))
    {
      effects := effects + [Call(Request(DELETE, CartEntry(itemId), NoBody))];
      if deleteRes.Rejected? {
        effects := effects + [Notify("Failed to remove item", Error)];
        return;
      }
      IssueLoad();
      effects := effects + [Notify("Item removed", Info)];
      CompleteLoad(cartRes, addrRes);
    }

    /** The address picker's `onChange`: the chosen id; the placeholder
        option "" converts to 0, which counts as no selection. */
    method SelectAddress(id: int)
      requires Valid()
      modifies this`selectedAddressId
      ensures Valid()
      ensures selectedAddressId == Some(id)
      ensures id == 0 ==> !HasSelection(selectedAddressId)
    {
      selectedAddressId := Some(id);
    }

    /** The form inputs' `onChange` handlers. */
    method EditAddressForm(fields: AddressFields)
      requires Valid()
      modifies this`newAddress
      ensures Valid()
      ensures newAddress == fields
    {
      newAddress := fields;
    }

    /** "+ ADD NEW ADDRESS" opens the form, CANCEL closes it. */
    method SetShowAddAddress(show: bool)
      requires Valid()
      modifies this`showAddAddress
      ensures Valid()
      ensures showAddAddress == show
    {
      showAddAddress := show;
    }

    /** `handleAddAddress`: posts the form; the created address is appended
        and selected, the form hidden and cleared. On failure only an error
        toast. */
    method HandleAddAddress(created: Outcome<Address>)
      requires Valid()
      modifies this
      ensures Valid()
      ensures cart == old(cart) && loading == old(loading)
      ensures created.Resolved? ==>
        && addresses == old(addresses) + [created.value]
        && selectedAddressId == Some(created.value.id)
        && !showAddAddress && newAddress == EmptyAddressFields
        && effects == old(effects) + [Call(Request(POST, UsersAddress, AddressBody(old(newAddress)))),
                                      Notify("Address added successfully", Success)]
      ensures created.Rejected? ==>
        && KeepsData() && KeepsForm()
        && effects == old(effects) + [Call(Request(POST, UsersAddress, AddressBody(old(newAddress)))),
                                      Notify("Failed to add address", Error)]
    {
      effects := effects + [Call(Request(POST, UsersAddress, AddressBody(newAddress)))];
      match created {
        case Resolved(a) =>
          addresses := addresses + [a];
          selectedAddressId := Some(a.id);
          showAddAddress := false;
          newAddress := EmptyAddressFields;
          effects := effects + [Notify("Address added successfully", Success)];
        case Rejected =>
          effects := effects + [Notify("Failed to add address", Error)];
      }
    }

    /** Submitting the form: the browser refuses while a required field is
        empty; otherwise `handleAddAddress` runs. */
    method SubmitAddressForm(created: Outcome<Address>)
      requires Valid()
      modifies this
      ensures Valid()
      ensures !Submittable(old(newAddress)) ==> KeepsData() && KeepsForm() && effects == old(effects)
      ensures Submittable(old(newAddress)) && created.Resolved? ==>
        && addresses == old(addresses) + [created.value]
        && selectedAddressId == Some(created.value.id)
        && !showAddAddress && newAddress == EmptyAddressFields
        && effects == old(effects) + [Call(Request(POST, UsersAddress, AddressBody(old(newAddress)))),
                                      Notify("Address added successfully", Success)]
      ensures Submittable(old(newAddress)) && created.Rejected? ==>
        && KeepsData() && KeepsForm()
        && effects == old(effects) + [Call(Request(POST, UsersAddress, AddressBody(old(newAddress)))),
                                      Notify("Failed to add address", Error)]
      ensures cart == old(cart) && loading == old(loading)
    {
      if Submittable(newAddress) {
        HandleAddAddress(created);
      }
    }

    /** `handleCheckout`: refuses without a selection; otherwise sets the
        default address, then creates the order, and clears the cart only
        when both succeed. A failure of either leaves the cart as it was
        (and a successful first call is not undone). */
    method HandleCheckout(updateRes: Outcome<()>, orderRes: Outcome<()>)
      requires Valid()
      modifies this
      ensures Valid()
      ensures loading == old(loading) && addresses == old(addresses) && selectedAddressId == old(selectedAddressId)
      ensures KeepsForm()
      ensures !HasSelection(old(selectedAddressId)) ==>
        cart == old(cart) && effects == old(effects) + [Notify("Please select a shipping address", Error)]
      ensures HasSelection(old(selectedAddressId)) && updateRes.Rejected? ==>
        && cart == old(cart)
        && effects == old(effects) + [Call(SetDefaultAddress(old(selectedAddressId).value)),
                                      Notify("Failed to place order", Error)]
      ensures HasSelection(old(selectedAddressId)) && updateRes.Resolved? && orderRes.Rejected? ==>
        && cart == old(cart)
        && effects == old(effects) + [Call(SetDefaultAddress(old(selectedAddressId).value)), Call(CreateOrder),
                                      Notify("Failed to place order", Error)]
      ensures HasSelection(old(selectedAddressId)) && updateRes.Resolved? && orderRes.Resolved? ==>
        && cart == None
        && effects == old(effects) + [Call(SetDefaultAddress(old(selectedAddressId).value)), Call(CreateOrder),
                                      Notify("Order placed successfully!", Success), Navigate("/orders")]
    {
      if !HasSelection(selectedAddressId) {
        effects := effects + [Notify("Please select a shipping address", Error)];
        return;
      }
      effects := effects + [Call(SetDefaultAddress(selectedAddressId.value))];
      if updateRes.Rejected? {
        effects := effects + [Notify("Failed to place order", Error)];
        return;
      }
      effects := effects + [Call(CreateOrder)];
      if orderRes.Rejected? {
        effects := effects + [Notify("Failed to place order", Error)];
        return;
      }
      effects := effects + [Notify("Order placed successfully!", Success)];
      cart := None;
      effects := effects + [Navigate("/orders")];
    }
  }
}
