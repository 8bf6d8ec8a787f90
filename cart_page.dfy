/**
 * The cart page (src/Pages/CartPage.js): the displayed cart, quantity
 * updates and removals for guests (local storage) and signed-in users (the
 * backend), the subtotal, the per-line total, and the checkout redirect.
 */
module CartPage {
  import opened Common
  import opened Storage
  import opened CartUtils

  /** The request a signed-in user's action sends to the backend. */
  datatype CartRequest =
    | UpdateQuantity(product_id: ProductId, quantity: int)   // PATCH /cart/update/:id
    | RemoveLine(product_id: ProductId)                      // DELETE /cart/remove/:id

  /** Where `navigate` sends the browser, with the `state.from` it passes along. */
  datatype Navigation = Navigate(path: string, from: Option<string>)

  const UpdateFailed := "Failed to update quantity in the cart."
  const RemoveFailed := "Failed to remove item from cart."
  const LoadFailed := "Failed to load cart items"

  /** `discounted_price && discounted_price < price ? discounted_price : price`:
      the discounted price counts only when present, non-zero and below the list price. */
  function UnitPrice(line: CartLine): (p: Money)
    ensures p <= line.price
    ensures p == line.price || (line.discounted_price == Some(p) && p != 0)
    ensures p < line.price <==> line.discounted_price.Some? && line.discounted_price.value != 0
                                 && line.discounted_price.value < line.price
  {
    if line.discounted_price.Some? && line.discounted_price.value != 0
       && line.discounted_price.value < line.price
    then line.discounted_price.value
    else line.price
  }

  /** The amount a line adds to the `subtotal` reduce: unit price times
      quantity. It is also what the line's "Total" column evidently means to
      show (see DisplayedLineTotal). */
  function LineTotal(line: CartLine): (t: Money)
    ensures t == UnitPrice(line) * line.quantity
    ensures UnitPrice(line) == line.price ==> t == line.price * line.quantity
    ensures line.discounted_price.None? ==> t == line.price * line.quantity
    ensures (line.discounted_price.Some? && line.discounted_price.value != 0
             && line.discounted_price.value < line.price) ==> DisplayedLineTotal(line) == Some(t)
  {
    UnitPrice(line) * line.quantity
  }

  /** The `subtotal` reduce: the sum of the line totals; 0 for an empty cart. */
  function Subtotal(cart: seq<CartLine>): Money
  {
    if cart == [] then 0 else LineTotal(cart[0]) + Subtotal(cart[1..])
  }

  /** The sum of list prices times quantities, ignoring every discount. */
  function ListTotal(cart: seq<CartLine>): Money
  {
    if cart == [] then 0 else cart[0].price * cart[0].quantity + ListTotal(cart[1..])
  }

  /** The cart after `map(item => item.product_id === pid ? {...item, quantity: q} : item)`. */
  function WithQuantity(cart: seq<CartLine>, pid: ProductId, q: int): seq<CartLine>
  {
    seq(|cart|, i requires 0 <= i < |cart| =>
      if cart[i].product_id == pid then cart[i].(quantity := q) else cart[i])
  }

  /** The "Total" column of `CartItem` as written: `discounted_price * quantity`
      with no fallback. None stands for the NaN JavaScript computes when the
      line has no `discounted_price`. */
  function DisplayedLineTotal(line: CartLine): (t: Option<Money>)
    ensures t.Some? <==> line.discounted_price.Some?
    ensures t.Some? ==> t.value == line.discounted_price.value * line.quantity
  {
    if line.discounted_price.Some? then Some(line.discounted_price.value * line.quantity) else None
  }

  class Page {
    const storage: LocalStorage
    const isAuthenticated: bool
    var cartItems: seq<CartLine>
    var error: string

    /** The page after its `fetchCart` effect: a signed-in user's cart comes
        from `/cart`, a guest's from local storage. */
    constructor (storage: LocalStorage, isAuthenticated: bool, backendCart: Response<seq<CartLine>>)
      ensures this.storage == storage && this.isAuthenticated == isAuthenticated
      ensures !isAuthenticated ==> cartItems == GetCartFromLocalStorage(storage) && error == ""
      ensures isAuthenticated && backendCart.Ok? ==> cartItems == backendCart.value && error == ""
      ensures isAuthenticated && backendCart.Err? ==>
                cartItems == [] && error == ErrorText(backendCart.msg, LoadFailed)
    {
      this.storage := storage;
      this.isAuthenticated := isAuthenticated;
      if isAuthenticated {
        match backendCart
        case Ok(items) =>
          cartItems := items;
          error := "";
        case Err(msg) =>
          cartItems := [];
          error := ErrorText(msg, LoadFailed);
      } else {
        cartItems := GetCartFromLocalStorage(storage);
        error := "";
      }
    }

    /** `handleUpdateQuantity`. A quantity below 1 is ignored. A signed-in
        user's change is sent to the backend and applied locally only once it
        is accepted; a guest's change is applied and written to storage. */
    method HandleUpdateQuantity(pid: ProductId, newQuantity: int, backendAccepts: bool)
      returns (request: Option<CartRequest>)
      modifies this`cartItems, this`error, storage`cart
      ensures newQuantity < 1 ==>
                request.None? && cartItems == old(cartItems) && error == old(error)
                && storage.cart == old(storage.cart)
      ensures newQuantity >= 1 && isAuthenticated ==>
                request == Some(UpdateQuantity(pid, newQuantity)) && storage.cart == old(storage.cart)
      ensures newQuantity >= 1 && isAuthenticated && backendAccepts ==>
                cartItems == WithQuantity(old(cartItems), pid, newQuantity) && error == old(error)
      ensures newQuantity >= 1 && isAuthenticated && !backendAccepts ==>
                cartItems == old(cartItems) && error == UpdateFailed
      ensures newQuantity >= 1 && !isAuthenticated ==>
                request.None? && error == old(error)
                && cartItems == WithQuantity(old(cartItems), pid, newQuantity)
                && storage.cart == Some(cartItems)
    {
      request := None;
      if newQuantity < 1 {
        return;
      }
      if isAuthenticated {
        request := Some(UpdateQuantity(pid, newQuantity));
        if backendAccepts {
          cartItems := WithQuantity(cartItems, pid, newQuantity);
        } else {
          error := UpdateFailed;
        }
      } else {
        var updatedCart := WithQuantity(cartItems, pid, newQuantity);
        SaveCartToLocalStorage(storage, updatedCart);
        cartItems := updatedCart;
      }
    }

    /** `handleRemoveItem`. A signed-in user's removal is only sent to the
        backend (the displayed cart stays as it is); a guest's removal filters
        the displayed cart and writes that same list to storage. */
    method HandleRemoveItem(pid: ProductId, backendAccepts: bool) returns (request: Option<CartRequest>)
      modifies this`cartItems, this`error, storage`cart
      ensures isAuthenticated ==>
                request == Some(RemoveLine(pid)) && cartItems == old(cartItems)
                && storage.cart == old(storage.cart)
                && error == (if backendAccepts then old(error) else RemoveFailed)
      ensures !isAuthenticated ==>
                request.None? && error == old(error)
                && cartItems == WithoutProduct(old(cartItems), pid)
                && storage.cart == Some(cartItems)
    {
      if isAuthenticated {
        request := Some(RemoveLine(pid));
        if !backendAccepts {
          error := RemoveFailed;
        }
      } else {
        request := None;
        var updatedCart := WithoutProduct(cartItems, pid);
        SaveCartToLocalStorage(storage, updatedCart);
        cartItems := updatedCart;
      }
    }

    /** `handleCheckout`: guests go to the login page (remembering they came
        from the cart), signed-in users to payment. */
    method HandleCheckout() returns (nav: Navigation)
      ensures !isAuthenticated ==> nav == Navigate("/login", Some("/cart"))
      ensures isAuthenticated ==> nav == Navigate("/payment", None)
    {
      if !isAuthenticated {
        return Navigate("/login", Some("/cart"));
      }
      nav := Navigate("/payment", None);
    }
  }

  // ---------------------------------------------------------------------
  // The subtotal

  lemma {:induction false} SubtotalAppend(a: seq<CartLine>, b: seq<CartLine>)
    ensures Subtotal(a + b) == Subtotal(a) + Subtotal(b)
  {
    if a == [] {
      assert a + b == b;
    } else {
      assert (a + b)[1..] == a[1..] + b;
      SubtotalAppend(a[1..], b);
    }
  }

  /** With non-negative prices and quantities the subtotal lies between 0 and the undiscounted total. */
  lemma {:induction false} SubtotalBounds(cart: seq<CartLine>)
    requires forall i :: 0 <= i < |cart| ==> cart[i].quantity >= 0 && cart[i].price >= 0
    requires forall i :: 0 <= i < |cart| ==> cart[i].discounted_price.Some? ==> cart[i].discounted_price.value >= 0
    ensures 0 <= Subtotal(cart) <= ListTotal(cart)
  {
    if cart != [] {
      var l := cart[0];
      assert 0 <= UnitPrice(l) <= l.price;
      MulMonotone(UnitPrice(l), l.price, l.quantity);
      assert 0 <= LineTotal(l) <= l.price * l.quantity;
      SubtotalBounds(cart[1..]);
    }
  }

  lemma Distribute(a: int, b: int, c: int)
    ensures a * (b + c) == a * b + a * c
  {
  }

  lemma MulMonotone(a: int, b: int, q: int)
    requires 0 <= a <= b && q >= 0
    ensures 0 <= a * q <= b * q
  {
  }

  /** Adding an item to the guest cart raises the subtotal by the merged
      line's unit price (or the new item's) times the added quantity. */
  lemma SubtotalAfterAdd(cart: seq<CartLine>, item: CartLine)
    ensures LineIndex(cart, item.product_id).Some? ==>
              Subtotal(CartWithItem(cart, item))
                == Subtotal(cart) + UnitPrice(cart[LineIndex(cart, item.product_id).value]) * item.quantity
    ensures LineIndex(cart, item.product_id).None? ==>
              Subtotal(CartWithItem(cart, item)) == Subtotal(cart) + UnitPrice(item) * item.quantity
  {
    match LineIndex(cart, item.product_id)
    case Some(k) =>
      var line := cart[k].(quantity := cart[k].quantity + item.quantity);
      SubtotalReplace(cart, k, line);
      assert UnitPrice(line) == UnitPrice(cart[k]);
      Distribute(UnitPrice(cart[k]), cart[k].quantity, item.quantity);
    case None =>
      SubtotalAppend(cart, [item]);
      assert Subtotal([item]) == LineTotal(item) + Subtotal([]);
  }

  /** The subtotal of a cart split around one line. */
  lemma SubtotalAround(before: seq<CartLine>, line: CartLine, after: seq<CartLine>)
    ensures Subtotal(before + [line] + after) == Subtotal(before) + LineTotal(line) + Subtotal(after)
  {
    assert before + [line] + after == before + ([line] + after);
    SubtotalAppend(before, [line] + after);
    SubtotalAppend([line], after);
    assert Subtotal([line]) == LineTotal(line) + Subtotal([]);
  }

  /** Replacing one line changes the subtotal by the difference of the two line totals. */
  lemma SubtotalReplace(cart: seq<CartLine>, k: nat, line: CartLine)
    requires k < |cart|
    ensures Subtotal(cart[k := line]) == Subtotal(cart) - LineTotal(cart[k]) + LineTotal(line)
  {
    SplitAt(cart, k);
    ReplaceAt(cart, k, line);
    SubtotalAround(cart[..k], cart[k], cart[k + 1..]);
    SubtotalAround(cart[..k], line, cart[k + 1..]);
  }

  /** In a cart with unique ids, a guest removal lowers the subtotal by exactly the removed line's amount. */
  lemma SubtotalAfterRemove(cart: seq<CartLine>, k: nat)
    requires UniqueIds(cart) && k < |cart|
    ensures Subtotal(WithoutProduct(cart, cart[k].product_id)) == Subtotal(cart) - LineTotal(cart[k])
  {
    WithoutPresentProduct(cart, k);
    SubtotalWithoutLine(cart, k);
  }

  /** Dropping the line at `k` lowers the subtotal by that line's total. */
  lemma SubtotalWithoutLine(cart: seq<CartLine>, k: nat)
    requires k < |cart|
    ensures Subtotal(cart[..k] + cart[k + 1..]) == Subtotal(cart) - LineTotal(cart[k])
  {
    SplitAt(cart, k);
    SubtotalAround(cart[..k], cart[k], cart[k + 1..]);
    SubtotalAppend(cart[..k], cart[k + 1..]);
  }

  /** A quantity update keeps the length, the order of product ids, and every
      line of another product; the product's lines get the new quantity. */
  lemma QuantityUpdateShape(cart: seq<CartLine>, pid: ProductId, q: int)
    ensures |WithQuantity(cart, pid, q)| == |cart|
    ensures forall i :: 0 <= i < |cart| ==> WithQuantity(cart, pid, q)[i].product_id == cart[i].product_id
    ensures forall i :: 0 <= i < |cart| && cart[i].product_id != pid ==> WithQuantity(cart, pid, q)[i] == cart[i]
    ensures forall i :: 0 <= i < |cart| && cart[i].product_id == pid ==>
              WithQuantity(cart, pid, q)[i] == cart[i].(quantity := q)
    ensures UniqueIds(cart) ==> UniqueIds(WithQuantity(cart, pid, q))
  {
  }

  /** In a cart with unique ids, the quantity update touches the product's one line only. */
  lemma WithQuantityIsUpdate(cart: seq<CartLine>, k: nat, q: int)
    requires UniqueIds(cart) && k < |cart|
    ensures WithQuantity(cart, cart[k].product_id, q) == cart[k := cart[k].(quantity := q)]
  {
    var updated := WithQuantity(cart, cart[k].product_id, q);
    forall i | 0 <= i < |cart| && i != k
      ensures updated[i] == cart[i]
    {
      assert cart[i].product_id != cart[k].product_id;
    }
  }

  /** In a cart with unique ids, setting a line's quantity moves the subtotal
      by its unit price times the change in quantity. */
  lemma SubtotalAfterQuantityUpdate(cart: seq<CartLine>, k: nat, q: int)
    requires UniqueIds(cart) && k < |cart|
    ensures Subtotal(WithQuantity(cart, cart[k].product_id, q))
              == Subtotal(cart) + UnitPrice(cart[k]) * (q - cart[k].quantity)
  {
    WithQuantityIsUpdate(cart, k, q);
    SubtotalSetQuantity(cart, k, q);
  }

  /** Setting the quantity of the line at `k` moves the subtotal by its unit
      price times the change. */
  lemma SubtotalSetQuantity(cart: seq<CartLine>, k: nat, q: int)
    requires k < |cart|
    ensures Subtotal(cart[k := cart[k].(quantity := q)])
              == Subtotal(cart) + UnitPrice(cart[k]) * (q - cart[k].quantity)
  {
    var line := cart[k].(quantity := q);
    SubtotalReplace(cart, k, line);
    LineTotalChange(cart[k], q);
  }

  /** Changing a line's quantity changes its total by unit price times the difference. */
  lemma LineTotalChange(line: CartLine, q: int)
    ensures LineTotal(line.(quantity := q)) == LineTotal(line) + UnitPrice(line) * (q - line.quantity)
  {
    var u := UnitPrice(line);
    assert UnitPrice(line.(quantity := q)) == u;
    Distribute(u, q - line.quantity, line.quantity);
  }

  // ---------------------------------------------------------------------
  // The per-line total column

  /** As written, a line without `discounted_price` (every line a guest adds
      from the product page) shows NaN, and a line whose discounted price is
      not below its list price shows the discounted amount while the subtotal
      charges the list price. */
  lemma DisplayedLineTotalDisagrees()
    ensures DisplayedLineTotal(CartLine("p1", "Pistachio", 1000, None, 2, "p1.jpg")).None?
    ensures Subtotal([CartLine("p1", "Pistachio", 1000, None, 2, "p1.jpg")]) == 2000
    ensures DisplayedLineTotal(CartLine("p2", "Hazelnut", 1000, Some(1200), 1, "p2.jpg")) == Some(1200)
    ensures Subtotal([CartLine("p2", "Hazelnut", 1000, Some(1200), 1, "p2.jpg")]) == 1000
  {
    var a := CartLine("p1", "Pistachio", 1000, None, 2, "p1.jpg");
    var b := CartLine("p2", "Hazelnut", 1000, Some(1200), 1, "p2.jpg");
    assert Subtotal([a]) == LineTotal(a) + Subtotal([]);
    assert Subtotal([b]) == LineTotal(b) + Subtotal([]);
  }
}
