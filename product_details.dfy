/**
 * The product page (src/Pages/ProductDetailsPage.js): the five-slot star
 * rating, the cached product lookup, the quantity stepper and the
 * add-to-cart guard with its guest branch.
 */
module ProductDetails {
  import opened Common
  import opened Storage
  import opened CartUtils

  // ---------------------------------------------------------------------
  // Star rating

  datatype Star = Full | Half | Empty

  /** The icon of slot `i` (1 to 5): full when `i <= rating`, half when
      `i - 0.5 === rating`, empty otherwise. */
  function Slot(i: int, rating: real): (star: Star)
    ensures star == Full <==> i as real <= rating
    ensures star == Half <==> i as real > rating && i as real - 0.5 == rating
  {
    if i as real <= rating then Full
    else if i as real - 0.5 == rating then Half
    else Empty
  }

  /** The five icons `StarRating` renders. */
  ghost function Stars(rating: real): seq<Star>
  {
    seq(5, i requires 0 <= i < 5 => Slot(i + 1, rating))
  }

  /** `StarRating`: the loop pushing one icon per slot. */
  method StarRating(rating: real) returns (stars: seq<Star>)
    ensures |stars| == 5
    ensures stars == Stars(rating)
  {
    stars := [];
    var i := 1;
    while i <= 5
      invariant 1 <= i <= 6 && |stars| == i - 1
      invariant forall k :: 0 <= k < i - 1 ==> stars[k] == Slot(k + 1, rating)
    {
      var star;
      if i as real <= rating {
        star := Full;
      } else if i as real - 0.5 == rating {
        star := Half;
      } else {
        star := Empty;
      }
      stars := stars + [star];
      i := i + 1;
    }
  }

  /** The full icons come first: a full slot is preceded only by full slots. */
  lemma FullSlotsArePrefix(rating: real, i: nat, j: nat)
    requires i < j < 5 && Stars(rating)[j] == Full
    ensures Stars(rating)[i] == Full
  {
  }

  /** At most one slot is half full. */
  lemma AtMostOneHalf(rating: real, i: nat, j: nat)
    requires i < 5 && j < 5 && Stars(rating)[i] == Half && Stars(rating)[j] == Half
    ensures i == j
  {
  }

  /** A whole rating r from 0 to 5 shows r full icons, then 5 - r empty ones. */
  lemma WholeRating(r: nat)
    requires r <= 5
    ensures Stars(r as real) == seq(r, _ => Full) + seq(5 - r, _ => Empty)
  {
    var expected := seq(r, _ => Full) + seq(5 - r, _ => Empty);
    forall k | 0 <= k < 5 ensures Stars(r as real)[k] == expected[k] {
      if k < r {
        assert expected[k] == Full;
      } else {
        assert expected[k] == Empty;
      }
    }
  }

  /** A rating r + 0.5 with r from 0 to 4 shows r full icons, one half icon, then empty ones. */
  lemma HalfRating(r: nat)
    requires r <= 4
    ensures Stars(r as real + 0.5) == seq(r, _ => Full) + [Half] + seq(4 - r, _ => Empty)
  {
    var expected := seq(r, _ => Full) + [Half] + seq(4 - r, _ => Empty);
    forall k | 0 <= k < 5 ensures Stars(r as real + 0.5)[k] == expected[k] {
      if k < r {
        assert expected[k] == Full;
      } else if k == r {
        assert expected[k] == Half;
      } else {
        assert expected[k] == Empty;
      }
    }
  }

  // ---------------------------------------------------------------------
  // Cached product lookup

  /** The product the page finds in the `products` key: the first one with
      the id, or None when the key is absent or holds no such product. */
  function CachedProduct(stored: Option<seq<Product>>, id: ProductId): (r: Option<Product>)
    ensures r.Some? ==> r.value.id == id
    ensures r.None? <==> stored.None? || forall k :: 0 <= k < |stored.value| ==> stored.value[k].id != id
    ensures r.Some? ==> exists k :: 0 <= k < |stored.value| && r.value == stored.value[k]
                         && forall j :: 0 <= j < k ==> stored.value[j].id != id
  {
    if stored.None? then None
    else match FindFirst(stored.value, (p: Product) => p.id == id)
      case Some(k) => Some(stored.value[k])
      case None => None
  }

  // ---------------------------------------------------------------------
  // Quantity stepper and add-to-cart guard

  /** `Math.max(1, prev + delta)`. */
  function SteppedQuantity(prev: int, delta: int): (q: int)
    ensures q >= 1
    ensures prev + delta >= 1 ==> q == prev + delta
    ensures prev + delta < 1 ==> q == 1
  {
    if prev + delta > 1 then prev + delta else 1
  }

  /** From any quantity of at least 1, a `+` then a `-` gives back the same quantity. */
  lemma StepUpThenDown(q: int)
    requires q >= 1
    ensures SteppedQuantity(SteppedQuantity(q, 1), -1) == q
  {
  }

  /** A `-` at quantity 1 stays at 1. */
  lemma StepDownAtOne()
    ensures SteppedQuantity(1, -1) == 1
  {
  }

  /** The guard of `handleAddToCart`: a product is loaded and its stock covers the quantity. */
  predicate AddAllowed(product: Option<Product>, quantity: int)
  {
    product.Some? && product.value.quantity_in_stock >= quantity
  }

  /** The add button is disabled exactly when the stock is 0. */
  predicate AddButtonDisabled(p: Product)
  {
    p.quantity_in_stock == 0
  }

  /** A disabled button matches the guard: with stock 0 no quantity of at least 1 is allowed. */
  lemma DisabledButtonMeansRefused(p: Product, quantity: int)
    requires quantity >= 1
    ensures AddButtonDisabled(p) ==> !AddAllowed(Some(p), quantity)
  {
  }

  /** The button is enabled for a negative stock, which the guard still refuses. */
  lemma NegativeStockEnabledButRefused(p: Product, quantity: int)
    requires p.quantity_in_stock < 0 && quantity >= 1
    ensures !AddButtonDisabled(p) && !AddAllowed(Some(p), quantity)
  {
  }

  /** The line a guest add puts in the cart: no discounted price is copied. */
  function GuestLine(p: Product, quantity: int): (line: CartLine)
    ensures line.product_id == p.id && line.name == p.name && line.price == p.price
    ensures line.discounted_price.None? && line.quantity == quantity && line.image_link == p.image_link
  {
    CartLine(p.id, p.name, p.price, None, quantity, p.image_link)
  }

  /** The guard compares the stock with the quantity being added only: a
      guest's line that already holds some of the product grows past the
      stock. */
  lemma GuardIgnoresCartQuantity(p: Product, cart: seq<CartLine>, quantity: int, k: nat)
    requires AddAllowed(Some(p), quantity)
    requires LineIndex(cart, p.id) == Some(k)
    ensures CartWithItem(cart, GuestLine(p, quantity))[k].quantity == cart[k].quantity + quantity
    ensures cart[k].quantity > p.quantity_in_stock - quantity ==>
              CartWithItem(cart, GuestLine(p, quantity))[k].quantity > p.quantity_in_stock
  {
  }

  const OutOfStock := "This product is currently out of stock."
  const AddedToCart := "Product added to cart."
  const AddFailed := "An error occurred"
  const LoadFailed := "Failed to load product details."

  /** The `/cart/add` request a signed-in user's add sends. */
  datatype AddRequest = AddRequest(user_id: string, product_id: ProductId, quantity: int)

  class Page {
    const storage: LocalStorage
    const isAuthenticated: bool
    const user: Option<User>
    var product: Option<Product>
    var quantity: int
    var message: string

    /** The page after its effect: the cached product when the `products` key
        holds one with the id, otherwise the backend's answer. */
    constructor (storage: LocalStorage, isAuthenticated: bool, user: Option<User>, id: ProductId,
                 backendProduct: Response<Product>)
      ensures this.storage == storage && this.isAuthenticated == isAuthenticated && this.user == user
      ensures quantity == 1
      ensures CachedProduct(storage.products, id).Some? ==>
                product == CachedProduct(storage.products, id) && message == ""
      ensures CachedProduct(storage.products, id).None? && backendProduct.Ok? ==>
                product == Some(backendProduct.value) && message == ""
      ensures CachedProduct(storage.products, id).None? && backendProduct.Err? ==>
                product.None? && message == LoadFailed
    {
      this.storage := storage;
      this.isAuthenticated := isAuthenticated;
      this.user := user;
      quantity := 1;
      message := "";
      var cached := CachedProduct(storage.products, id);
      if cached.Some? {
        product := cached;
      } else {
        match backendProduct
        case Ok(p) =>
          product := Some(p);
        case Err(_) =>
          product := None;
          message := LoadFailed;
      }
    }

    /** `handleQuantityChange`. */
    method HandleQuantityChange(delta: int)
      modifies this`quantity
      ensures quantity == SteppedQuantity(old(quantity), delta)
      ensures quantity >= 1
    {
      quantity := SteppedQuantity(quantity, delta);
    }

    /** `handleAddToCart`. Refused with the out-of-stock message when the
        guard fails. A guest's line is merged into the stored cart. A signed-in
        user's add is sent to `/cart/add` and the backend's message shown;
        without a loaded user the request is never built and the generic
        error is shown. `backend` is the answer to that request. */
    method HandleAddToCart(backend: Response<string>) returns (request: Option<AddRequest>)
      modifies this`message, storage`cart
      ensures !AddAllowed(product, quantity) ==>
                request.None? && message == OutOfStock && storage.cart == old(storage.cart)
      ensures AddAllowed(product, quantity) && !isAuthenticated ==>
                request.None? && message == AddedToCart
                && storage.cart == Some(CartWithItem(old(GetCartFromLocalStorage(storage)),
                                                     GuestLine(product.value, quantity)))
      ensures AddAllowed(product, quantity) && isAuthenticated ==> storage.cart == old(storage.cart)
      ensures AddAllowed(product, quantity) && isAuthenticated && user.None? ==>
                request.None? && message == AddFailed
      ensures AddAllowed(product, quantity) && isAuthenticated && user.Some? ==>
                request == Some(AddRequest(user.value.email, product.value.id, quantity))
                && message == (match backend
                               case Ok(msg) => msg
                               case Err(msg) => ErrorText(msg, AddFailed))
    {
      request := None;
      if product.None? || product.value.quantity_in_stock < quantity {
        message := OutOfStock;
        return;
      }
      var p := product.value;
      if !isAuthenticated {
        AddItemToLocalStorageCart(storage, GuestLine(p, quantity));
        message := AddedToCart;
        return;
      }
      if user.None? {
        message := AddFailed;
        return;
      }
      request := Some(AddRequest(user.value.email, p.id, quantity));
      match backend
      case Ok(msg) =>
        message := msg;
      case Err(msg) =>
        message := ErrorText(msg, AddFailed);
    }
  }
}
