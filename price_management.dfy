/**
 * The admin price panel (src/components/admin/PriceManagement.js): the
 * fetched products with their discounted price filled in, the edited
 * prices, and the price update that keeps the discounted price at or below
 * the price.
 */
module PriceManagement {
  import opened Common

  /** A product as the panel keeps it: its discounted price always present. */
  datatype PricedProduct = PricedProduct(id: ProductId, name: string, price: Money, discounted_price: Money)

  /** The content of a "New Price" box: empty, a typed amount (any typed
      text is truthy, "0" included), or the number it started with. */
  datatype PriceInput = Blank | Typed(amount: Money) | Current(amount: Money)

  /** `!newPrice`: nothing to send. */
  predicate IsFalsy(input: PriceInput)
  {
    input.Blank? || input == Current(0)
  }

  /** `Number(product.discounted_price || product.price)`: a missing or zero
      discounted price becomes the price. */
  function Normalise(p: Product): (q: PricedProduct)
    ensures q.id == p.id && q.name == p.name && q.price == p.price
    ensures p.discounted_price.Some? && p.discounted_price.value != 0 ==> q.discounted_price == p.discounted_price.value
    ensures p.discounted_price.None? || p.discounted_price.value == 0 ==> q.discounted_price == p.price
  {
    PricedProduct(p.id, p.name, p.price,
                  if p.discounted_price.Some? && p.discounted_price.value != 0 then p.discounted_price.value else p.price)
  }

  function NormaliseAll(ps: seq<Product>): (r: seq<PricedProduct>)
    ensures |r| == |ps| && forall i :: 0 <= i < |ps| ==> r[i] == Normalise(ps[i])
  {
    seq(|ps|, i requires 0 <= i < |ps| => Normalise(ps[i]))
  }

  /** Normalising never puts the discounted price above the price unless the
      backend sent it so. */
  lemma NormalisedDiscountBelowPrice(p: Product)
    requires p.discounted_price.None? || p.discounted_price.value <= p.price
    ensures Normalise(p).discounted_price <= Normalise(p).price
  {
  }

  /** The `initialPrices` object the `forEach` builds: each id maps to its
      product's price, a later product with the same id winning. */
  function InitialPrices(ps: seq<PricedProduct>): (m: map<ProductId, PriceInput>)
    ensures m.Keys == set p | p in ps :: p.id
  {
    if ps == [] then map[]
    else
      var last := ps[|ps| - 1];
      assert forall p :: p in ps <==> p in ps[..|ps| - 1] || p == last by {
        assert ps == ps[..|ps| - 1] + [last];
      }
      InitialPrices(ps[..|ps| - 1])[last.id := Current(last.price)]
  }

  predicate UniqueProductIds(ps: seq<PricedProduct>)
  {
    forall i, j :: 0 <= i < j < |ps| ==> ps[i].id != ps[j].id
  }

  /** With distinct ids, every product's box starts at its current price. */
  lemma {:induction false} InitialPricesAreCurrent(ps: seq<PricedProduct>, k: nat)
    requires UniqueProductIds(ps) && k < |ps|
    ensures InitialPrices(ps)[ps[k].id] == Current(ps[k].price)
  {
    if k < |ps| - 1 {
      InitialPricesAreCurrent(ps[..|ps| - 1], k);
    }
  }

  /** The product after a successful update: the new price, and the
      discounted price lowered to it only when it is below the old one. */
  function UpdatedProduct(p: PricedProduct, newPrice: Money): (q: PricedProduct)
    ensures q.id == p.id && q.name == p.name && q.price == newPrice
    ensures q.discounted_price <= q.price && q.discounted_price <= p.discounted_price
    ensures q.discounted_price == p.discounted_price || q.discounted_price == newPrice
    ensures q.discounted_price != p.discounted_price <==> newPrice < p.discounted_price
  {
    p.(price := newPrice, discounted_price := if newPrice < p.discounted_price then newPrice else p.discounted_price)
  }

  /** The `setProducts` map: every product with the id is updated. */
  function WithNewPrice(ps: seq<PricedProduct>, id: ProductId, newPrice: Money): (r: seq<PricedProduct>)
    ensures |r| == |ps|
    ensures forall i :: 0 <= i < |ps| && ps[i].id != id ==> r[i] == ps[i]
    ensures forall i :: 0 <= i < |ps| && ps[i].id == id ==> r[i] == UpdatedProduct(ps[i], newPrice)
  {
    seq(|ps|, i requires 0 <= i < |ps| => if ps[i].id == id then UpdatedProduct(ps[i], newPrice) else ps[i])
  }

  /** Every product's discounted price is at or below its price. */
  predicate DiscountsBelowPrices(ps: seq<PricedProduct>)
  {
    forall i :: 0 <= i < |ps| ==> ps[i].discounted_price <= ps[i].price
  }

  /** An update restores the rule for the product it touches and keeps it for the others. */
  lemma UpdateKeepsDiscountsBelowPrices(ps: seq<PricedProduct>, id: ProductId, newPrice: Money)
    ensures forall i :: 0 <= i < |ps| && ps[i].id == id ==>
              WithNewPrice(ps, id, newPrice)[i].discounted_price <= WithNewPrice(ps, id, newPrice)[i].price
    ensures DiscountsBelowPrices(ps) ==> DiscountsBelowPrices(WithNewPrice(ps, id, newPrice))
  {
  }

  /** Sending the same price twice changes nothing the second time. */
  lemma UpdateIdempotent(ps: seq<PricedProduct>, id: ProductId, newPrice: Money)
    ensures WithNewPrice(WithNewPrice(ps, id, newPrice), id, newPrice) == WithNewPrice(ps, id, newPrice)
  {
  }

  /** The body of `PATCH /products/update/:id`. */
  datatype PriceUpdate = PriceUpdate(id: ProductId, price: Money, discounted_price: Option<Money>)

  /** `updatedData`, built against the first product with the id. */
  function UpdateRequest(p: PricedProduct, newPrice: Money): (u: PriceUpdate)
    ensures u.id == p.id && u.price == newPrice
  {
    PriceUpdate(p.id, newPrice, if newPrice < p.discounted_price then Some(newPrice) else None)
  }

  /** The request carries a discounted price exactly when the page lowers
      it, and then it carries the value the page shows. */
  lemma RequestMatchesUpdate(p: PricedProduct, newPrice: Money)
    ensures UpdateRequest(p, newPrice).discounted_price.Some? <==>
              UpdatedProduct(p, newPrice).discounted_price != p.discounted_price
    ensures UpdateRequest(p, newPrice).discounted_price.Some? ==>
              UpdateRequest(p, newPrice).discounted_price.value == UpdatedProduct(p, newPrice).discounted_price
  {
  }

  const LoadFailed := "Failed to load products."
  const UpdateFailedAlert := "Failed to update price."

  class Panel {
    var products: seq<PricedProduct>
    var editedPrices: map<ProductId, PriceInput>
    var error: Option<string>

    /** The panel after `fetchProducts`. */
    constructor (response: Response<seq<Product>>)
      ensures response.Ok? ==> products == NormaliseAll(response.value) && error.None?
      ensures response.Ok? ==> editedPrices == InitialPrices(NormaliseAll(response.value))
      ensures response.Err? ==> products == [] && editedPrices == map[] && error == Some(LoadFailed)
    {
      match response
      case Ok(fetched) =>
        var updatedProducts := NormaliseAll(fetched);
        var initialPrices := InitEditedPrices(updatedProducts);
        products := updatedProducts;
        editedPrices := initialPrices;
        error := None;
      case Err(_) =>
        products := [];
        editedPrices := map[];
        error := Some(LoadFailed);
    }

    /** `handlePriceChange`: only this id's box changes. */
    method HandlePriceChange(id: ProductId, newPrice: PriceInput)
      modifies this`editedPrices
      ensures editedPrices == old(editedPrices)[id := newPrice]
      ensures forall other :: other != id ==>
                (other in editedPrices <==> other in old(editedPrices))
                && (other in editedPrices ==> editedPrices[other] == old(editedPrices)[other])
    {
      editedPrices := editedPrices[id := newPrice];
    }

    /** `handleUpdatePrice`. An empty box sends nothing; so does an id the
        list does not hold. Otherwise the update is sent and, once the
        backend accepts it, applied to every product with the id. */
    method HandleUpdatePrice(id: ProductId, backendAccepts: bool) returns (request: Option<PriceUpdate>, alert: Option<string>)
      modifies this`products
      ensures id !in old(editedPrices) || IsFalsy(old(editedPrices)[id]) ==>
                request.None? && alert.None? && products == old(products)
      ensures id in old(editedPrices) && !IsFalsy(old(editedPrices)[id]) ==>
                var newPrice := old(editedPrices)[id].amount;
                match FindFirst(old(products), (p: PricedProduct) => p.id == id)
                case None => request.None? && alert.None? && products == old(products)
                case Some(k) =>
                  request == Some(UpdateRequest(old(products)[k], newPrice))
                  && (backendAccepts ==> alert.None? && products == WithNewPrice(old(products), id, newPrice))
                  && (!backendAccepts ==> alert == Some(UpdateFailedAlert) && products == old(products))
    {
      request := None;
      alert := None;
      if id !in editedPrices || IsFalsy(editedPrices[id]) {
        return;
      }
      var newPrice := editedPrices[id].amount;
      var found := FindFirst(products, (p: PricedProduct) => p.id == id);
      if found.None? {
        return;
      }
      request := Some(UpdateRequest(products[found.value], newPrice));
      if backendAccepts {
        products := WithNewPrice(products, id, newPrice);
      } else {
        alert := Some(UpdateFailedAlert);
      }
    }
  }

  /** The `forEach` filling `initialPrices`. */
  method InitEditedPrices(ps: seq<PricedProduct>) returns (initialPrices: map<ProductId, PriceInput>)
    ensures initialPrices == InitialPrices(ps)
  {
    initialPrices := map[];
    var i := 0;
    while i < |ps|
      invariant 0 <= i <= |ps|
      invariant initialPrices == InitialPrices(ps[..i])
    {
      assert ps[..i + 1][..i] == ps[..i];
      initialPrices := initialPrices[ps[i].id := Current(ps[i].price)];
      i := i + 1;
    }
    assert ps[..i] == ps;
  }
}
