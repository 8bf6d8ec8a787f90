/**
 * The guest cart kept under the `cart` key of local storage
 * (src/utils/cartUtils.js): read, write, add with merge on `product_id`,
 * and remove.
 */
module CartUtils {
  import opened Common
  import opened Storage

  /** `getCartFromLocalStorage`: the stored cart, or the empty list when the key is absent. */
  function GetCartFromLocalStorage(s: LocalStorage): (cart: seq<CartLine>)
    reads s
    ensures s.cart.None? ==> cart == []
    ensures s.cart.Some? ==> cart == s.cart.value
  {
    if s.cart.Some? then s.cart.value else []
  }

  /** `saveCartToLocalStorage`: overwrites the `cart` key; reading it back gives the same list. */
  method SaveCartToLocalStorage(s: LocalStorage, cart: seq<CartLine>)
    modifies s`cart
    ensures s.cart == Some(cart)
    ensures GetCartFromLocalStorage(s) == cart
  {
    s.cart := Some(cart);
  }

  /** The predicate `find` is called with: the line is for product `pid`. */
  function IsLineFor(pid: ProductId): CartLine -> bool
  {
    (line: CartLine) => line.product_id == pid
  }

  /** The index of the line `find` returns for `pid`, if any. */
  function LineIndex(cart: seq<CartLine>, pid: ProductId): (r: Option<nat>)
    ensures r.Some? ==> r.value < |cart| && cart[r.value].product_id == pid
    ensures r.Some? ==> forall j :: 0 <= j < r.value ==> cart[j].product_id != pid
    ensures r.None? <==> forall j :: 0 <= j < |cart| ==> cart[j].product_id != pid
  {
    var r := FindFirst(cart, IsLineFor(pid));
    assert r.Some? ==> IsLineFor(pid)(cart[r.value]);
    r
  }

  /** The cart after `addItemToLocalStorageCart(item)`: the first line for the
      same product gains `item.quantity`, otherwise `item` is appended. */
  function CartWithItem(cart: seq<CartLine>, item: CartLine): (r: seq<CartLine>)
    ensures LineIndex(cart, item.product_id).Some? ==> |r| == |cart|
    ensures LineIndex(cart, item.product_id).None? ==> |r| == |cart| + 1 && r[|cart|] == item
    ensures forall i :: 0 <= i < |cart| ==> r[i].product_id == cart[i].product_id
  {
    match LineIndex(cart, item.product_id)
    case Some(k) => cart[k := cart[k].(quantity := cart[k].quantity + item.quantity)]
    case None => cart + [item]
  }

  /** `cart.filter(item => item.product_id !== pid)`. */
  function WithoutProduct(cart: seq<CartLine>, pid: ProductId): (r: seq<CartLine>)
    ensures |r| <= |cart|
    ensures forall i :: 0 <= i < |r| ==> r[i].product_id != pid
    ensures forall line :: line in r <==> line in cart && line.product_id != pid
  {
    if cart == [] then []
    else if cart[0].product_id == pid then WithoutProduct(cart[1..], pid)
    else [cart[0]] + WithoutProduct(cart[1..], pid)
  }

  /** `addItemToLocalStorageCart`: reads the cart, looks for a line with the
      same product, bumps its quantity or appends the item, and writes the
      whole cart back. Only the `cart` key changes. */
  method AddItemToLocalStorageCart(s: LocalStorage, item: CartLine)
    modifies s`cart
    ensures s.cart == Some(CartWithItem(old(GetCartFromLocalStorage(s)), item))
  {
    var cart := GetCartFromLocalStorage(s);
    var i := 0;
    while i < |cart| && cart[i].product_id != item.product_id
      invariant 0 <= i <= |cart|
      invariant forall j :: 0 <= j < i ==> cart[j].product_id != item.product_id
    {
      i := i + 1;
    }
    if i < |cart| {
      assert LineIndex(cart, item.product_id) == Some(i);
      cart := cart[i := cart[i].(quantity := cart[i].quantity + item.quantity)];
    } else {
      cart := cart + [item];
    }
    SaveCartToLocalStorage(s, cart);
  }

  /** `removeItemFromLocalStorageCart`: writes back the cart without the product's lines. */
  method RemoveItemFromLocalStorageCart(s: LocalStorage, pid: ProductId)
    modifies s`cart
    ensures s.cart == Some(WithoutProduct(old(GetCartFromLocalStorage(s)), pid))
  {
    var cart := GetCartFromLocalStorage(s);
    SaveCartToLocalStorage(s, WithoutProduct(cart, pid));
  }

  // ---------------------------------------------------------------------
  // Properties of the add and remove operations

  /** Adding a product that already has a line: the first such line gains
      `item.quantity` and keeps every other field; the length and all other
      lines are unchanged. */
  lemma AddToExistingLine(cart: seq<CartLine>, item: CartLine, k: nat)
    requires k < |cart| && cart[k].product_id == item.product_id
    requires forall j :: 0 <= j < k ==> cart[j].product_id != item.product_id
    ensures |CartWithItem(cart, item)| == |cart|
    ensures CartWithItem(cart, item)[k] == cart[k].(quantity := cart[k].quantity + item.quantity)
    ensures forall j :: 0 <= j < |cart| && j != k ==> CartWithItem(cart, item)[j] == cart[j]
  {
    assert LineIndex(cart, item.product_id) == Some(k);
  }

  /** Adding a product with no line appends the item and keeps every earlier line. */
  lemma AddNewLine(cart: seq<CartLine>, item: CartLine)
    requires forall j :: 0 <= j < |cart| ==> cart[j].product_id != item.product_id
    ensures |CartWithItem(cart, item)| == |cart| + 1
    ensures CartWithItem(cart, item)[|cart|] == item
    ensures CartWithItem(cart, item)[..|cart|] == cart
  {
  }

  /** After an add, the cart has a line for the item's product. */
  lemma AddLeavesLineForProduct(cart: seq<CartLine>, item: CartLine)
    ensures LineIndex(CartWithItem(cart, item), item.product_id).Some?
  {
    var r := CartWithItem(cart, item);
    match LineIndex(cart, item.product_id)
    case Some(k) =>
      assert r[k].product_id == item.product_id;
    case None =>
      assert r[|cart|].product_id == item.product_id;
  }

  /** Adding keeps product ids unique. */
  lemma AddKeepsIdsUnique(cart: seq<CartLine>, item: CartLine)
    requires UniqueIds(cart)
    ensures UniqueIds(CartWithItem(cart, item))
  {
    var r := CartWithItem(cart, item);
    match LineIndex(cart, item.product_id)
    case Some(k) =>
      assert forall j :: 0 <= j < |r| ==> r[j].product_id == cart[j].product_id;
    case None =>
      assert forall j :: 0 <= j < |cart| ==> r[j] == cart[j];
  }

  /** Filtering distributes over concatenation, so the kept lines stay in their original order. */
  lemma {:induction false} WithoutProductAppend(a: seq<CartLine>, b: seq<CartLine>, pid: ProductId)
    ensures WithoutProduct(a + b, pid) == WithoutProduct(a, pid) + WithoutProduct(b, pid)
  {
    if a == [] {
      assert a + b == b;
    } else {
      assert (a + b)[1..] == a[1..] + b;
      WithoutProductAppend(a[1..], b, pid);
    }
  }

  /** Removing a product the cart does not hold leaves the cart as it is. */
  lemma {:induction false} WithoutAbsentProduct(cart: seq<CartLine>, pid: ProductId)
    requires forall j :: 0 <= j < |cart| ==> cart[j].product_id != pid
    ensures WithoutProduct(cart, pid) == cart
  {
    if cart != [] {
      WithoutAbsentProduct(cart[1..], pid);
    }
  }

  /** Removing twice is removing once. */
  lemma WithoutProductIdempotent(cart: seq<CartLine>, pid: ProductId)
    ensures WithoutProduct(WithoutProduct(cart, pid), pid) == WithoutProduct(cart, pid)
  {
    WithoutAbsentProduct(WithoutProduct(cart, pid), pid);
  }

  /** In a cart with unique ids, removing a product that has a line drops exactly that one line. */
  lemma {:induction false} WithoutPresentProduct(cart: seq<CartLine>, k: nat)
    requires UniqueIds(cart) && k < |cart|
    ensures WithoutProduct(cart, cart[k].product_id) == cart[..k] + cart[k + 1..]
  {
    var pid := cart[k].product_id;
    assert cart == cart[..k] + ([cart[k]] + cart[k + 1..]);
    WithoutProductAppend(cart[..k], [cart[k]] + cart[k + 1..], pid);
    WithoutProductAppend([cart[k]], cart[k + 1..], pid);
    WithoutAbsentProduct(cart[..k], pid);
    WithoutAbsentProduct(cart[k + 1..], pid);
    assert WithoutProduct([cart[k]], pid) == [];
  }
}
