/**
 * Records shared by the storefront's pages. Every record here mirrors a JSON
 * object the backend sends or the browser keeps in local storage; money is
 * held in integer cents so that no floating point enters the model.
 */
module Common {

  datatype Option<+T> = None | Some(value: T)

  /** The outcome of one HTTP request: the body on success, or the `msg` the
      backend put in its error body (None when there was no such message). */
  datatype Response<+T> = Ok(value: T) | Err(msg: Option<string>)

  /** `error.response?.data?.msg || fallback`: the backend's message when it
      sent a non-empty one, the page's own text otherwise. */
  function ErrorText(msg: Option<string>, fallback: string): (text: string)
    ensures msg.Some? && msg.value != [] ==> text == msg.value
    ensures msg.None? || msg.value == [] ==> text == fallback
  {
    if msg.Some? && msg.value != [] then msg.value else fallback
  }

  type ProductId = string

  /** An amount of money in cents. */
  type Money = int

  /** A line of a shopping cart, as kept in local storage or sent by `/cart`. */
  datatype CartLine = CartLine(
    product_id: ProductId,
    name: string,
    price: Money,
    discounted_price: Option<Money>,
    quantity: int,
    image_link: string)

  /** A product as `/products/...` sends it, with the rating the catalogue page attaches. */
  datatype Product = Product(
    id: ProductId,
    name: string,
    description: string,
    category: string,
    price: Money,
    discounted_price: Option<Money>,
    popularity: int,
    quantity_in_stock: int,
    image_link: string,
    averageRating: real)

  /** The signed-in user as `/user/data` sends it. */
  datatype User = User(email: string, role: Option<string>, homeAddress: string)

  /** No two lines of the cart share a product id. */
  predicate UniqueIds(cart: seq<CartLine>)
  {
    forall i, j :: 0 <= i < j < |cart| ==> cart[i].product_id != cart[j].product_id
  }

  /** `Array.prototype.find` / `findIndex`: the index of the first element
      satisfying `p`, or None when there is none. */
  function FindFirst<T>(s: seq<T>, p: T -> bool): (r: Option<nat>)
    ensures r.Some? ==> r.value < |s| && p(s[r.value])
    ensures r.Some? ==> forall j :: 0 <= j < r.value ==> !p(s[j])
    ensures r.None? <==> forall j :: 0 <= j < |s| ==> !p(s[j])
  {
    if s == [] then None
    else if p(s[0]) then Some(0)
    else match FindFirst(s[1..], p)
      case Some(k) => Some(k + 1)
      case None => None
  }

  /** The prefix up to `i + 1` is the prefix up to `i` and `s[i]`, and it
      begins `s`. */
  lemma PrefixStep<T>(s: seq<T>, i: nat)
    requires i < |s|
    ensures s[..i + 1] == s[..i] + [s[i]]
    ensures s[..i + 1] + s[i + 1..] == s
  {
  }

  /** A sequence is its part before `k`, the element at `k` and the part after. */
  lemma SplitAt<T>(s: seq<T>, k: nat)
    requires k < |s|
    ensures s == s[..k] + [s[k]] + s[k + 1..]
  {
  }

  /** Replacing the element at `k` keeps the parts before and after it. */
  lemma ReplaceAt<T>(s: seq<T>, k: nat, x: T)
    requires k < |s|
    ensures s[k := x] == s[..k] + [x] + s[k + 1..]
  {
  }

  lemma PrefixOfAppend<T>(a: seq<T>, b: seq<T>)
    ensures a <= a + b
  {
    assert (a + b)[..|a|] == a;
  }
}
