/** The catalog page (app/page.tsx): one `GET /products`, whose body is
    unwrapped and whose prices are converted to numbers. */
module Catalog {
  import opened Base
  import opened Js
  import opened Api

  /** A product; `P` is the price's type: `Price` as received, `Number`
      once normalised. */
  datatype Product<P> = Product(id: int, name: string, description: string, price: P, tags: string)

  type RawProduct = Product<Price>

  /** `res.data && res.data.data ? res.data.data : res.data`: a wrapper
      `{count, data}` with truthy `data` is unwrapped, any other body is
      used as it is. */
  function Payload(body: Json<RawProduct>): (p: Json<RawProduct>)
    ensures body.Obj? && "data" in body.fields && Truthy(body.fields["data"]) ==> p == body.fields["data"]
    ensures !(body.Obj? && "data" in body.fields && Truthy(body.fields["data"])) ==> p == body
  {
    if Truthy(body) && Truthy(Get(body, "data").value) then Get(body, "data").value else body
  }

  /** `{...p, price: Number(p.price)}` over the list. */
  function WithNumericPrices(ps: seq<RawProduct>, toNumber: string -> Number): (r: seq<Product<Number>>)
    ensures |r| == |ps|
    ensures forall i :: 0 <= i < |ps| ==>
      && r[i].id == ps[i].id && r[i].name == ps[i].name
      && r[i].description == ps[i].description && r[i].tags == ps[i].tags
      && r[i].price == ToNumber(ps[i].price, toNumber)
  {
    if ps == [] then []
    else
      var p := ps[0];
      [Product(p.id, p.name, p.description, ToNumber(p.price, toNumber), p.tags)] + WithNumericPrices(ps[1..], toNumber)
  }

  /** An array payload has its prices converted; anything else becomes the
      empty list. */
  function Normalize(payload: Json<RawProduct>, toNumber: string -> Number): (r: seq<Product<Number>>)
    ensures payload.Arr? ==> r == WithNumericPrices(payload.elems, toNumber)
    ensures !payload.Arr? ==> r == []
  {
    if payload.Arr? then WithNumericPrices(payload.elems, toNumber) else []
  }

  /** The products list shown for a response body. */
  function CatalogProducts(body: Json<RawProduct>, toNumber: string -> Number): (r: seq<Product<Number>>)
    ensures body.Arr? ==> r == WithNumericPrices(body.elems, toNumber)
    ensures body.Obj? && "data" in body.fields && body.fields["data"].Arr? ==> r == WithNumericPrices(body.fields["data"].elems, toNumber)
    ensures r != [] ==> body.Arr? || (body.Obj? && "data" in body.fields && body.fields["data"].Arr?)
  {
    Normalize(Payload(body), toNumber)
  }

  /** The wrapped and the bare response shape give the same list, and a
      body that is neither gives the empty list. */
  lemma ResponseShapes(ps: seq<RawProduct>, count: real, toNumber: string -> Number, other: Json<RawProduct>)
    requires !other.Arr?
    requires !(other.Obj? && "data" in other.fields && other.fields["data"].Arr?)
    ensures CatalogProducts(Obj(map["count" := Num(count), "data" := Arr(ps)]), toNumber) == WithNumericPrices(ps, toNumber)
    ensures CatalogProducts(Arr(ps), toNumber) == WithNumericPrices(ps, toNumber)
    ensures CatalogProducts(other, toNumber) == []
  {
    var wrapped: Json<RawProduct> := Obj(map["count" := Num(count), "data" := Arr(ps)]);
    assert Payload(wrapped) == Arr(ps);
    assert Payload(Arr(ps)) == Arr(ps);
  }

  /** The home page's state. */
  class HomePage {
    var products: seq<Product<Number>>
    var loading: bool
    var requests: seq<Request>

    constructor ()
      ensures products == [] && loading && requests == []
    {
      products := [];
      loading := true;
      requests := [];
    }

    /** The mount effect: fetch the catalog; on success show the normalised
        list, on failure keep the current (initially empty) list. Loading
        ends either way. `toNumber` is `Number`'s string parser. */
    method Load(res: Outcome<Json<RawProduct>>, toNumber: string -> Number)
      modifies this
      ensures requests == old(requests) + [Request(GET, Products, NoBody)]
      ensures res.Resolved? ==> products == CatalogProducts(res.value, toNumber)
      ensures res.Rejected? ==> products == old(products)
      ensures !loading
    {
      requests := requests + [Request(GET, Products, NoBody)];
      if res.Resolved? {
        products := CatalogProducts(res.value, toNumber);
      }
      loading := false;
    }
  }
}
