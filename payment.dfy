/**
 * The payment page (src/Pages/PaymentPage.js): the stock reconciliation of
 * the fetched cart, the order-number builder, the card-number check, the
 * requests `handlePayNow` sends in order, and the `OrderSummary` subtotal.
 */
module Payment {
  import opened Common
  import CartPage

  /** The `notification` attached to a reconciled line. */
  datatype Notice = NoNotice | OutOfStockNotice | OnlyAvailable(count: int)

  /** A cart line as the payment page keeps it after reconciliation. */
  datatype CheckoutLine = CheckoutLine(line: CartLine, maxAvailable: int, highlight: bool, notification: Notice)

  /** The two fields of `/products/:id` the reconciliation reads. */
  datatype StockInfo = StockInfo(quantity_in_stock: int, discounted_price: Money)

  /** The catalogue as the backend answers `/products/:id`; an id without an
      entry is a request that fails. */
  type Catalogue = map<ProductId, StockInfo>

  // ---------------------------------------------------------------------
  // Reconciliation

  /** One step of the `fetchCartItems` loop: a sold-out line is kept as it is
      and marked, a line above the stock is capped to it, any other line is
      kept with no notice. */
  function ReconciledLine(item: CartLine, p: StockInfo): (cl: CheckoutLine)
    ensures cl.line == item.(quantity := cl.line.quantity)
    ensures cl.highlight <==> p.quantity_in_stock == 0 || p.quantity_in_stock < item.quantity
    ensures p.quantity_in_stock == 0 ==>
              cl.line == item && cl.maxAvailable == 0 && cl.notification == OutOfStockNotice
    ensures p.quantity_in_stock != 0 ==>
              cl.maxAvailable == p.quantity_in_stock
              && cl.line.quantity == (if p.quantity_in_stock < item.quantity then p.quantity_in_stock else item.quantity)
              && cl.line.quantity <= p.quantity_in_stock
              && (cl.notification == NoNotice <==> !cl.highlight)
              && (cl.highlight ==> cl.notification == OnlyAvailable(p.quantity_in_stock))
  {
    if p.quantity_in_stock == 0 then
      CheckoutLine(item, 0, true, OutOfStockNotice)
    else if p.quantity_in_stock < item.quantity then
      CheckoutLine(item.(quantity := p.quantity_in_stock), p.quantity_in_stock, true,
                   OnlyAvailable(p.quantity_in_stock))
    else
      CheckoutLine(item, p.quantity_in_stock, false, NoNotice)
  }

  /** What the same step adds to `total`. */
  function LineCharge(item: CartLine, p: StockInfo): Money
  {
    if p.quantity_in_stock == 0 then 0
    else if p.quantity_in_stock < item.quantity then p.discounted_price * p.quantity_in_stock
    else p.discounted_price * item.quantity
  }

  /** The charge is the fetched discounted price times the reconciled
      quantity, except that a sold-out line is charged nothing. */
  lemma LineChargeIsPriceTimesQuantity(item: CartLine, p: StockInfo)
    ensures LineCharge(item, p) ==
              if ReconciledLine(item, p).maxAvailable == 0 then 0
              else p.discounted_price * ReconciledLine(item, p).line.quantity
  {
  }

  /** Every product of the cart has an answer in the catalogue. */
  predicate AllFetched(items: seq<CartLine>, catalogue: Catalogue)
  {
    forall i :: 0 <= i < |items| ==> items[i].product_id in catalogue
  }

  /** `updatedCart` at the end of the loop. */
  function Reconciled(items: seq<CartLine>, catalogue: Catalogue): (r: seq<CheckoutLine>)
    requires AllFetched(items, catalogue)
    ensures |r| == |items|
    ensures forall i :: 0 <= i < |items| ==> r[i] == ReconciledLine(items[i], catalogue[items[i].product_id])
  {
    if items == [] then []
    else
      var last := items[|items| - 1];
      Reconciled(items[..|items| - 1], catalogue) + [ReconciledLine(last, catalogue[last.product_id])]
  }

  /** `total` at the end of the loop. */
  function ReconciledTotal(items: seq<CartLine>, catalogue: Catalogue): Money
    requires AllFetched(items, catalogue)
  {
    if items == [] then 0
    else
      var last := items[|items| - 1];
      ReconciledTotal(items[..|items| - 1], catalogue) + LineCharge(last, catalogue[last.product_id])
  }

  /** The plain cart lines of the reconciled cart. */
  function Lines(cls: seq<CheckoutLine>): (ls: seq<CartLine>)
    ensures |ls| == |cls| && forall i :: 0 <= i < |cls| ==> ls[i] == cls[i].line
  {
    seq(|cls|, i requires 0 <= i < |cls| => cls[i].line)
  }

  /** Reconciliation keeps the cart's length and its product ids in order. */
  lemma ReconcilePreservesOrder(items: seq<CartLine>, catalogue: Catalogue)
    requires AllFetched(items, catalogue)
    ensures |Reconciled(items, catalogue)| == |items|
    ensures forall i :: 0 <= i < |items| ==> Lines(Reconciled(items, catalogue))[i].product_id == items[i].product_id
  {
  }

  /** A line that is not sold out is charged the fetched discounted price
      times its reconciled quantity. */
  function BilledLine(cl: CheckoutLine, p: StockInfo): Money
  {
    if cl.maxAvailable == 0 then 0 else p.discounted_price * cl.line.quantity
  }

  function BilledTotal(cls: seq<CheckoutLine>, catalogue: Catalogue): Money
    requires forall i :: 0 <= i < |cls| ==> cls[i].line.product_id in catalogue
  {
    if cls == [] then 0
    else
      var last := cls[|cls| - 1];
      BilledTotal(cls[..|cls| - 1], catalogue) + BilledLine(last, catalogue[last.line.product_id])
  }

  /** The final total is the sum over the reconciled lines of the fetched
      discounted price times the reconciled quantity, sold-out lines counting 0. */
  lemma {:induction false} TotalIsBilledTotal(items: seq<CartLine>, catalogue: Catalogue)
    requires AllFetched(items, catalogue)
    ensures ReconciledTotal(items, catalogue) == BilledTotal(Reconciled(items, catalogue), catalogue)
  {
    if items != [] {
      var prefix := items[..|items| - 1];
      var last := items[|items| - 1];
      TotalIsBilledTotal(prefix, catalogue);
      var r := Reconciled(items, catalogue);
      assert r[..|r| - 1] == Reconciled(prefix, catalogue);
      LineChargeIsPriceTimesQuantity(last, catalogue[last.product_id]);
    }
  }

  /** Reconciling the reconciled cart against the same stock changes no
      quantity and gives the same total. */
  lemma {:induction false} ReconcileSettles(items: seq<CartLine>, catalogue: Catalogue)
    requires AllFetched(items, catalogue)
    ensures AllFetched(Lines(Reconciled(items, catalogue)), catalogue)
    ensures Lines(Reconciled(Lines(Reconciled(items, catalogue)), catalogue)) == Lines(Reconciled(items, catalogue))
    ensures ReconciledTotal(Lines(Reconciled(items, catalogue)), catalogue) == ReconciledTotal(items, catalogue)
  {
    if items != [] {
      var prefix := items[..|items| - 1];
      var once := Lines(Reconciled(items, catalogue));
      ReconcileSettles(prefix, catalogue);
      assert once[..|once| - 1] == Lines(Reconciled(prefix, catalogue));
    }
  }

  // ---------------------------------------------------------------------
  // Finding: a sold-out line keeps its quantity

  /** As written, a sold-out line keeps its quantity: it adds nothing to the
      total, yet the order summary counts it, `handlePayNow` still sends a
      stock decrease for it and the order lists it. */
  lemma SoldOutLineStillBought()
    ensures var item := CartLine("p1", "Pistachio cream", 1000, Some(800), 2, "p1.jpg");
            var catalogue := map["p1" := StockInfo(0, 800)];
            var r := Reconciled([item], catalogue);
            && r[0].line.quantity == 2
            && ReconciledTotal([item], catalogue) == 0
            && OrderSummarySubtotal(r, 0) == 1600
            && StockRequests(Lines(r)) == [DecreaseStock("p1", 2), IncreasePopularity("p1", 2)]
            && OrderItems(r)[0].quantity == 2
  {
    var item := CartLine("p1", "Pistachio cream", 1000, Some(800), 2, "p1.jpg");
    var catalogue := map["p1" := StockInfo(0, 800)];
    var r := Reconciled([item], catalogue);
    assert Lines(r) == [item];
    assert Lines(r)[..0] == [];
    assert [item][1..] == [];
    assert CartPage.UnitPrice(item) == 800;
    assert CartPage.Subtotal([item]) == CartPage.LineTotal(item) + CartPage.Subtotal([]);
  }

  /** The evidently intended step: a sold-out line is kept and marked, with quantity 0. */
  function CorrectedLine(item: CartLine, p: StockInfo): (cl: CheckoutLine)
    ensures p.quantity_in_stock == 0 ==> cl.line.quantity == 0 && cl.notification == OutOfStockNotice
    ensures p.quantity_in_stock != 0 ==> cl == ReconciledLine(item, p)
  {
    var cl := ReconciledLine(item, p);
    if p.quantity_in_stock == 0 then cl.(line := item.(quantity := 0)) else cl
  }

  function CorrectedReconciled(items: seq<CartLine>, catalogue: Catalogue): (r: seq<CheckoutLine>)
    requires AllFetched(items, catalogue)
    ensures |r| == |items|
    ensures forall i :: 0 <= i < |items| ==> r[i] == CorrectedLine(items[i], catalogue[items[i].product_id])
  {
    seq(|items|, i requires 0 <= i < |items| => CorrectedLine(items[i], catalogue[items[i].product_id]))
  }

  /** The sum of the fetched discounted price times the line quantity, with no exception. */
  function PlainTotal(cls: seq<CheckoutLine>, catalogue: Catalogue): Money
    requires forall i :: 0 <= i < |cls| ==> cls[i].line.product_id in catalogue
  {
    if cls == [] then 0
    else
      var last := cls[|cls| - 1];
      PlainTotal(cls[..|cls| - 1], catalogue) + catalogue[last.line.product_id].discounted_price * last.line.quantity
  }

  /** With the correction, the page's total is simply price times quantity
      summed over the lines it shows. */
  lemma {:induction false} CorrectedTotalIsPlain(items: seq<CartLine>, catalogue: Catalogue)
    requires AllFetched(items, catalogue)
    ensures ReconciledTotal(items, catalogue) == PlainTotal(CorrectedReconciled(items, catalogue), catalogue)
  {
    if items != [] {
      var prefix := items[..|items| - 1];
      CorrectedTotalIsPlain(prefix, catalogue);
      var r := CorrectedReconciled(items, catalogue);
      assert r[..|r| - 1] == CorrectedReconciled(prefix, catalogue);
    }
  }

  /** With the correction, no stock request is sent for a sold-out product. */
  lemma CorrectedSkipsSoldOut(items: seq<CartLine>, catalogue: Catalogue, req: PayRequest)
    requires AllFetched(items, catalogue)
    requires req in StockRequests(Lines(CorrectedReconciled(items, catalogue)))
    ensures req.DecreaseStock? || req.IncreasePopularity?
    ensures req.product_id in catalogue && catalogue[req.product_id].quantity_in_stock != 0
  {
    var ls := Lines(CorrectedReconciled(items, catalogue));
    var k := StockRequestSource(ls, req);
    assert ls[k].product_id == items[k].product_id;
  }

  // ---------------------------------------------------------------------
  // Order number

  const Alphabet := "ABCDEFGHIJKLMNOPQRSTUVWXYZ0123456789"

  /** Ten values of `Math.random()`, each in [0, 1). */
  predicate ValidDraws(draws: seq<real>)
  {
    |draws| == 10 && forall i :: 0 <= i < |draws| ==> 0.0 <= draws[i] < 1.0
  }

  /** `Math.floor(r * characters.length)`. */
  function CharIndex(r: real): (k: int)
    requires 0.0 <= r < 1.0
    ensures 0 <= k < |Alphabet|
    ensures k as real <= r * 36.0 < k as real + 1.0
  {
    (r * 36.0).Floor
  }

  ghost function OrderNumberFor(draws: seq<real>): (s: string)
    requires ValidDraws(draws)
    ensures |s| == 10 && forall i :: 0 <= i < 10 ==> s[i] in Alphabet
  {
    seq(10, i requires 0 <= i < 10 => Alphabet[CharIndex(draws[i])])
  }

  /** `generateOrderNumber`: one character per draw. */
  method GenerateOrderNumber(draws: seq<real>) returns (orderNumber: string)
    requires ValidDraws(draws)
    ensures orderNumber == OrderNumberFor(draws)
    ensures |orderNumber| == 10 && forall i :: 0 <= i < 10 ==> orderNumber[i] in Alphabet
  {
    orderNumber := "";
    var i := 0;
    while i < 10
      invariant 0 <= i <= 10 && |orderNumber| == i
      invariant forall k :: 0 <= k < i ==> orderNumber[k] == Alphabet[CharIndex(draws[k])]
    {
      orderNumber := orderNumber + [Alphabet[CharIndex(draws[i])]];
      i := i + 1;
    }
  }

  lemma CharIndexOfGridPoint(k: nat)
    requires k < 36
    ensures 0.0 <= k as real / 36.0 < 1.0 && CharIndex(k as real / 36.0) == k
  {
    assert (k as real / 36.0) * 36.0 == k as real;
  }

  /** Every ten-character string over the alphabet is some draw's order number. */
  lemma EveryOrderNumberReachable(s: string)
    requires |s| == 10 && forall i :: 0 <= i < 10 ==> s[i] in Alphabet
    ensures exists draws :: ValidDraws(draws) && OrderNumberFor(draws) == s
  {
    var idx := seq(10, i requires 0 <= i < 10 => IndexIn(s[i], Alphabet));
    var draws := seq(10, i requires 0 <= i < 10 => idx[i] as real / 36.0);
    forall i | 0 <= i < 10 ensures 0.0 <= draws[i] < 1.0 && CharIndex(draws[i]) == idx[i] {
      CharIndexOfGridPoint(idx[i]);
    }
    assert OrderNumberFor(draws) == s;
  }

  function IndexIn(c: char, s: string): (k: nat)
    requires c in s
    ensures k < |s| && s[k] == c
  {
    if s[0] == c then 0 else 1 + IndexIn(c, s[1..])
  }

  // ---------------------------------------------------------------------
  // Card number

  /** The characters JavaScript's `\s` matches. */
  predicate IsJsWhitespace(c: char)
  {
    var n := c as int;
    n == 0x20 || (0x09 <= n <= 0x0D) || n == 0xA0 || n == 0x1680 || (0x2000 <= n <= 0x200A)
    || n == 0x2028 || n == 0x2029 || n == 0x202F || n == 0x205F || n == 0x3000 || n == 0xFEFF
  }

  /** `replace(/\s+/g, "")`. */
  function WithoutWhitespace(s: string): (r: string)
    ensures |r| <= |s|
    ensures forall c :: c in r <==> c in s && !IsJsWhitespace(c)
  {
    if s == [] then []
    else (if IsJsWhitespace(s[0]) then [] else [s[0]]) + WithoutWhitespace(s[1..])
  }

  /** JavaScript's `.length`: the number of UTF-16 code units, so a character
      above U+FFFF counts twice. */
  function Utf16Length(s: string): (n: nat)
    ensures |s| <= n <= 2 * |s|
    ensures (forall i :: 0 <= i < |s| ==> s[i] as int <= 0xFFFF) ==> n == |s|
    ensures (forall i :: 0 <= i < |s| ==> s[i] as int > 0xFFFF) ==> n == 2 * |s|
  {
    if s == [] then 0 else (if s[0] as int > 0xFFFF then 2 else 1) + Utf16Length(s[1..])
  }

  /** The card check: a non-empty number with at least 16 UTF-16 code units
      once whitespace is removed. */
  predicate CardNumberAccepted(cardNumber: string)
  {
    cardNumber != [] && Utf16Length(WithoutWhitespace(cardNumber)) >= 16
  }

  lemma {:induction false} WithoutWhitespaceAppend(a: string, b: string)
    ensures WithoutWhitespace(a + b) == WithoutWhitespace(a) + WithoutWhitespace(b)
  {
    if a == [] {
      assert a + b == b;
    } else {
      assert (a + b)[1..] == a[1..] + b;
      WithoutWhitespaceAppend(a[1..], b);
    }
  }

  /** Spaces typed between digit groups do not change the verdict. */
  lemma CardCheckIgnoresSpaces(a: string, b: string)
    requires a + b != []
    ensures CardNumberAccepted(a + " " + b) == CardNumberAccepted(a + b)
  {
    SpaceRemoved(a, b);
  }

  /** A space between two parts is removed with the rest of the whitespace. */
  lemma SpaceRemoved(a: string, b: string)
    ensures WithoutWhitespace(a + " " + b) == WithoutWhitespace(a + b)
  {
    assert " "[1..] == [];
    assert WithoutWhitespace(" ") == [];
    WithoutWhitespaceAppend(a, " ");
    assert WithoutWhitespace(a + " ") == WithoutWhitespace(a);
    WithoutWhitespaceAppend(a + " ", b);
    WithoutWhitespaceAppend(a, b);
  }

  /** Only the length is checked: any 16 characters without whitespace, digits or not, pass. */
  lemma {:induction false} NoWhitespaceAccepted(s: string)
    requires |s| >= 16 && forall i :: 0 <= i < |s| ==> !IsJsWhitespace(s[i])
    ensures CardNumberAccepted(s)
  {
    KeptWhenNoWhitespace(s);
  }

  lemma {:induction false} KeptWhenNoWhitespace(s: string)
    requires forall i :: 0 <= i < |s| ==> !IsJsWhitespace(s[i])
    ensures WithoutWhitespace(s) == s
  {
    if s != [] {
      KeptWhenNoWhitespace(s[1..]);
    }
  }

  /** An accepted card number is at least 16 code units long, so at least 8
      characters, and at least 16 when none of them lies above U+FFFF. */
  lemma AcceptedIsLongEnough(cardNumber: string)
    requires CardNumberAccepted(cardNumber)
    ensures Utf16Length(cardNumber) >= 16 && |cardNumber| >= 8
    ensures (forall i :: 0 <= i < |cardNumber| ==> cardNumber[i] as int <= 0xFFFF) ==> |cardNumber| >= 16
  {
    Utf16LengthWithoutWhitespace(cardNumber);
  }

  /** Removing whitespace never lengthens a string in code units. */
  lemma {:induction false} Utf16LengthWithoutWhitespace(s: string)
    ensures Utf16Length(WithoutWhitespace(s)) <= Utf16Length(s)
  {
    if s != [] {
      Utf16LengthWithoutWhitespace(s[1..]);
      var head := if IsJsWhitespace(s[0]) then [] else [s[0]];
      Utf16LengthAppend(head, WithoutWhitespace(s[1..]));
    }
  }

  /** The code units of a concatenation are those of its parts. */
  lemma {:induction false} Utf16LengthAppend(a: string, b: string)
    ensures Utf16Length(a + b) == Utf16Length(a) + Utf16Length(b)
  {
    if a == [] {
      assert a + b == b;
    } else {
      assert (a + b)[1..] == a[1..] + b;
      Utf16LengthAppend(a[1..], b);
    }
  }

  /** Eight characters above U+FFFF make 16 code units, and pass the check. */
  lemma EightEmojiAccepted()
    ensures CardNumberAccepted(seq(8, _ => '\U{1F600}'))
  {
    var s := seq(8, _ => '\U{1F600}');
    KeptWhenNoWhitespace(s);
  }

  // ---------------------------------------------------------------------
  // Paying

  /** An entry of `orderData.items`: its price is the line's `discounted_price`. */
  datatype OrderItem = OrderItem(product_id: ProductId, name: string, price: Option<Money>, quantity: int,
                                 image_link: string)

  datatype OrderData = OrderData(
    order_number: string,
    email: string,
    shipping_method: string,
    shipping_address: string,
    shipping_cost: Money,
    items: seq<OrderItem>,
    total_price: Money)

  /** The requests of `handlePayNow`, in the order they are awaited. */
  datatype PayRequest =
    | DecreaseStock(product_id: ProductId, quantity: int)        // PATCH /products/stock/decrease/:id
    | IncreasePopularity(product_id: ProductId, quantity: int)   // PATCH /products/popularity/increase/:id
    | AddOrder(order: OrderData)                                 // POST /orders/add
    | CreateDelivery(order: OrderData)                           // POST /product-deliveries/create
    | ClearCart                                                  // DELETE /cart/clear

  datatype PayOutcome = CardRejected | PaymentFailed | ThankYou(order: OrderData)

  const ShippingMethod := "Standard Shipping - FREE"

  function OrderItems(cls: seq<CheckoutLine>): (items: seq<OrderItem>)
    ensures |items| == |cls|
    ensures forall i :: 0 <= i < |cls| ==>
              items[i].product_id == cls[i].line.product_id && items[i].price == cls[i].line.discounted_price
              && items[i].quantity == cls[i].line.quantity
  {
    seq(|cls|, i requires 0 <= i < |cls| =>
      var l := cls[i].line; OrderItem(l.product_id, l.name, l.discounted_price, l.quantity, l.image_link))
  }

  function StockRequestsFor(line: CartLine): (r: seq<PayRequest>)
    ensures line.quantity <= 0 <==> r == []
  {
    if line.quantity > 0 then [DecreaseStock(line.product_id, line.quantity), IncreasePopularity(line.product_id, line.quantity)]
    else []
  }

  /** The requests of the stock loop. */
  function StockRequests(ls: seq<CartLine>): seq<PayRequest>
  {
    if ls == [] then [] else StockRequests(ls[..|ls| - 1]) + StockRequestsFor(ls[|ls| - 1])
  }

  /** The lines with a positive quantity, in cart order. */
  function PositiveLines(ls: seq<CartLine>): (r: seq<CartLine>)
    ensures forall l :: l in r <==> l in ls && l.quantity > 0
  {
    if ls == [] then []
    else
      var last := ls[|ls| - 1];
      assert forall l :: l in ls <==> l in ls[..|ls| - 1] || l == last by {
        assert ls == ls[..|ls| - 1] + [last];
      }
      PositiveLines(ls[..|ls| - 1]) + (if last.quantity > 0 then [last] else [])
  }

  /** A stock decrease and a popularity increase are sent exactly for each
      line with a positive quantity, in cart order, each for that line's quantity. */
  lemma {:induction false} StockRequestsArePositiveLines(ls: seq<CartLine>)
    ensures |StockRequests(ls)| == 2 * |PositiveLines(ls)|
    ensures forall k :: 0 <= k < |PositiveLines(ls)| ==>
              StockRequests(ls)[2 * k] == DecreaseStock(PositiveLines(ls)[k].product_id, PositiveLines(ls)[k].quantity)
              && StockRequests(ls)[2 * k + 1] == IncreasePopularity(PositiveLines(ls)[k].product_id, PositiveLines(ls)[k].quantity)
  {
    if ls != [] {
      var prefix, last := ls[..|ls| - 1], ls[|ls| - 1];
      StockRequestsArePositiveLines(prefix);
      StockPairsExtend(StockRequests(prefix), PositiveLines(prefix), last);
    }
  }

  /** `requests` holds, pair by pair, the two requests of each line of `bought`. */
  predicate StockPairs(requests: seq<PayRequest>, bought: seq<CartLine>)
  {
    |requests| == 2 * |bought|
    && forall k :: 0 <= k < |bought| ==>
         requests[2 * k] == DecreaseStock(bought[k].product_id, bought[k].quantity)
         && requests[2 * k + 1] == IncreasePopularity(bought[k].product_id, bought[k].quantity)
  }

  /** One more line keeps the pairing. */
  lemma StockPairsExtend(requests: seq<PayRequest>, bought: seq<CartLine>, line: CartLine)
    requires StockPairs(requests, bought)
    ensures StockPairs(requests + StockRequestsFor(line), bought + (if line.quantity > 0 then [line] else []))
  {
    if line.quantity > 0 {
      var r, b := requests + StockRequestsFor(line), bought + [line];
      forall k | 0 <= k < |b|
        ensures r[2 * k] == DecreaseStock(b[k].product_id, b[k].quantity)
        ensures r[2 * k + 1] == IncreasePopularity(b[k].product_id, b[k].quantity)
      {
        if k < |bought| {
          assert b[k] == bought[k] && r[2 * k] == requests[2 * k] && r[2 * k + 1] == requests[2 * k + 1];
        }
      }
    } else {
      assert requests + StockRequestsFor(line) == requests;
      assert bought + [] == bought;
    }
  }

  lemma {:induction false} StockRequestsAppend(a: seq<CartLine>, b: seq<CartLine>)
    ensures StockRequests(a + b) == StockRequests(a) + StockRequests(b)
    decreases |b|
  {
    if b == [] {
      assert a + b == a;
    } else {
      assert (a + b)[..|a + b| - 1] == a + b[..|b| - 1];
      StockRequestsAppend(a, b[..|b| - 1]);
    }
  }

  /** The line a stock request comes from. */
  lemma {:induction false} StockRequestSource(ls: seq<CartLine>, req: PayRequest) returns (k: nat)
    requires req in StockRequests(ls)
    ensures k < |ls| && ls[k].quantity > 0
    ensures req == DecreaseStock(ls[k].product_id, ls[k].quantity)
            || req == IncreasePopularity(ls[k].product_id, ls[k].quantity)
  {
    var prefix := ls[..|ls| - 1];
    if req in StockRequests(prefix) {
      k := StockRequestSource(prefix, req);
    } else {
      k := |ls| - 1;
    }
  }

  /** The stock loop of `handlePayNow`: for each line with a positive
      quantity, a stock decrease and then a popularity increase, stopping at
      the first request the backend rejects (`failAt` is its position). */
  method SendStockRequests(ls: seq<CartLine>, failAt: Option<nat>) returns (sent: seq<PayRequest>, ok: bool)
    ensures ok <==> failAt.None? || failAt.value >= |StockRequests(ls)|
    ensures ok ==> sent == StockRequests(ls)
    ensures !ok ==> sent == StockRequests(ls)[..failAt.value + 1]
  {
    sent := [];
    var i := 0;
    while i < |ls|
      invariant 0 <= i <= |ls|
      invariant sent == StockRequests(ls[..i])
      invariant failAt.None? || failAt.value >= |sent|
    {
      StockRequestsStep(ls, i);
      var lineOk;
      sent, lineOk := SendLineRequests(sent, ls[i], failAt);
      if !lineOk {
        PrefixTransitive(sent, StockRequests(ls[..i]) + StockRequestsFor(ls[i]), StockRequests(ls));
        return sent, false;
      }
      i := i + 1;
    }
    assert ls[..i] == ls;
    ok := true;
  }

  /** The body of the stock loop for one line, after `sent` went out. */
  method SendLineRequests(sent: seq<PayRequest>, item: CartLine, failAt: Option<nat>)
    returns (after: seq<PayRequest>, ok: bool)
    requires failAt.None? || failAt.value >= |sent|
    ensures ok <==> failAt.None? || failAt.value >= |sent + StockRequestsFor(item)|
    ensures ok ==> after == sent + StockRequestsFor(item)
    ensures !ok ==> after <= sent + StockRequestsFor(item) && |after| == failAt.value + 1
  {
    after := sent;
    if item.quantity > 0 {
      after := after + [DecreaseStock(item.product_id, item.quantity)];
      if failAt == Some(|after| - 1) {
        return after, false;
      }
      after := after + [IncreasePopularity(item.product_id, item.quantity)];
      if failAt == Some(|after| - 1) {
        return after, false;
      }
    }
    ok := true;
  }

  lemma PrefixTransitive<T>(a: seq<T>, b: seq<T>, c: seq<T>)
    requires a <= b && b <= c
    ensures a <= c && a == c[..|a|]
  {
  }

  /** One more line of the loop adds its own requests, and what has been
      sent so far, with that line's requests, begins the whole list. */
  lemma StockRequestsStep(ls: seq<CartLine>, i: nat)
    requires i < |ls|
    ensures StockRequests(ls[..i + 1]) == StockRequests(ls[..i]) + StockRequestsFor(ls[i])
    ensures StockRequests(ls[..i]) + StockRequestsFor(ls[i]) <= StockRequests(ls)
  {
    PrefixStep(ls, i);
    StockRequestsSnoc(ls[..i], ls[i]);
    StockRequestsPrefix(ls[..i + 1], ls[i + 1..]);
  }

  /** One more line adds its own requests at the end. */
  lemma StockRequestsSnoc(pre: seq<CartLine>, line: CartLine)
    ensures StockRequests(pre + [line]) == StockRequests(pre) + StockRequestsFor(line)
  {
    assert (pre + [line])[..|pre|] == pre;
  }

  /** The requests of a prefix begin the requests of the whole list. */
  lemma StockRequestsPrefix(pre: seq<CartLine>, post: seq<CartLine>)
    ensures StockRequests(pre) <= StockRequests(pre + post)
  {
    StockRequestsAppend(pre, post);
    PrefixOfAppend(StockRequests(pre), StockRequests(post));
  }

  /** Everything `handlePayNow` would send if every request succeeded. */
  function PayPlan(ls: seq<CartLine>, order: OrderData): seq<PayRequest>
  {
    StockRequests(ls) + [AddOrder(order), CreateDelivery(order), ClearCart]
  }

  /** The requests actually sent: all of them, or those up to and including
      the first one the backend rejects. */
  function SentUntilFailure(plan: seq<PayRequest>, failAt: Option<nat>): (sent: seq<PayRequest>)
    ensures failAt.Some? && failAt.value < |plan| ==> |sent| == failAt.value + 1
    ensures sent <= plan
  {
    if failAt.Some? && failAt.value < |plan| then plan[..failAt.value + 1] else plan
  }

  /** `cartItems.reduce(...) - shippingCost`: the cart page's subtotal of the lines, less shipping. */
  function OrderSummarySubtotal(cls: seq<CheckoutLine>, shippingCost: Money): Money
  {
    CartPage.Subtotal(Lines(cls)) - shippingCost
  }

  /** When every line is in stock and carries the fetched discounted price,
      positive and below its list price, the summary's subtotal and the total agree. */
  lemma {:induction false} SummaryAgreesWhenInStock(items: seq<CartLine>, catalogue: Catalogue)
    requires AllFetched(items, catalogue)
    requires forall i :: 0 <= i < |items| ==>
               var p := catalogue[items[i].product_id];
               p.quantity_in_stock >= items[i].quantity && p.quantity_in_stock != 0
               && items[i].discounted_price == Some(p.discounted_price)
               && 0 < p.discounted_price < items[i].price
    ensures OrderSummarySubtotal(Reconciled(items, catalogue), 0) == ReconciledTotal(items, catalogue)
  {
    var r := Reconciled(items, catalogue);
    assert Lines(r) == items;
    SubtotalIsSum(items, catalogue);
  }

  lemma {:induction false} SubtotalIsSum(items: seq<CartLine>, catalogue: Catalogue)
    requires AllFetched(items, catalogue)
    requires forall i :: 0 <= i < |items| ==>
               var p := catalogue[items[i].product_id];
               p.quantity_in_stock >= items[i].quantity && p.quantity_in_stock != 0
               && items[i].discounted_price == Some(p.discounted_price)
               && 0 < p.discounted_price < items[i].price
    ensures CartPage.Subtotal(items) == ReconciledTotal(items, catalogue)
  {
    if items != [] {
      var prefix := items[..|items| - 1];
      var last := items[|items| - 1];
      SubtotalIsSum(prefix, catalogue);
      assert items == prefix + [last];
      CartPage.SubtotalAppend(prefix, [last]);
      assert [last][1..] == [];
    }
  }

  class Page {
    var cartItems: seq<CheckoutLine>
    var totalCost: Money
    /** Always 0: shipping is free. */
    const shippingCost: Money

    constructor ()
      ensures cartItems == [] && totalCost == 0 && shippingCost == 0
    {
      cartItems := [];
      totalCost := 0;
      shippingCost := 0;
    }

    /** `fetchCartItems`: reconciles the fetched cart against each product's
        stock. Any failed request aborts it and leaves the page as it was. */
    method FetchCartItems(cartResponse: Response<seq<CartLine>>, catalogue: Catalogue)
      modifies this`cartItems, this`totalCost
      ensures cartResponse.Ok? && AllFetched(cartResponse.value, catalogue) ==>
                cartItems == Reconciled(cartResponse.value, catalogue)
                && totalCost == ReconciledTotal(cartResponse.value, catalogue)
      ensures !(cartResponse.Ok? && AllFetched(cartResponse.value, catalogue)) ==>
                cartItems == old(cartItems) && totalCost == old(totalCost)
    {
      if cartResponse.Err? {
        return;
      }
      var items := cartResponse.value;
      var updatedCart := [];
      var total := 0;
      var i := 0;
      while i < |items|
        invariant 0 <= i <= |items|
        invariant AllFetched(items[..i], catalogue)
        invariant updatedCart == Reconciled(items[..i], catalogue)
        invariant total == ReconciledTotal(items[..i], catalogue)
      {
        var item := items[i];
        if item.product_id !in catalogue {
          return;
        }
        var product := catalogue[item.product_id];
        assert items[..i + 1][..i] == items[..i];
        if product.quantity_in_stock == 0 {
          updatedCart := updatedCart + [CheckoutLine(item, 0, true, OutOfStockNotice)];
        } else if product.quantity_in_stock < item.quantity {
          total := total + product.discounted_price * product.quantity_in_stock;
          updatedCart := updatedCart + [CheckoutLine(item.(quantity := product.quantity_in_stock),
                                                     product.quantity_in_stock, true,
                                                     OnlyAvailable(product.quantity_in_stock))];
        } else {
          total := total + product.discounted_price * item.quantity;
          updatedCart := updatedCart + [CheckoutLine(item, product.quantity_in_stock, false, NoNotice)];
        }
        i := i + 1;
      }
      assert items[..i] == items;
      cartItems := updatedCart;
      totalCost := total;
    }

    /** The order `handlePayNow` builds. */
    function OrderFor(orderNumber: string, email: string, address: string): (order: OrderData)
      reads this
      ensures order.items == OrderItems(cartItems) && order.total_price == totalCost
      ensures order.order_number == orderNumber && order.shipping_cost == shippingCost
    {
      OrderData(orderNumber, email, ShippingMethod, address, shippingCost, OrderItems(cartItems), totalCost)
    }

    /** `handlePayNow`. A rejected card number sends nothing. Otherwise the
        stock loop, the order, the delivery and the cart clearing are sent in
        turn until the backend rejects one (`failAt` is its position). */
    method HandlePayNow(cardNumber: string, email: string, address: string, draws: seq<real>,
                        failAt: Option<nat>)
      returns (sent: seq<PayRequest>, outcome: PayOutcome)
      requires ValidDraws(draws)
      ensures !CardNumberAccepted(cardNumber) ==> sent == [] && outcome == CardRejected
      ensures CardNumberAccepted(cardNumber) ==>
                var plan := PayPlan(Lines(cartItems), OrderFor(OrderNumberFor(draws), email, address));
                sent == SentUntilFailure(plan, failAt)
                && (if failAt.Some? && failAt.value < |plan| then outcome == PaymentFailed
                    else outcome == ThankYou(OrderFor(OrderNumberFor(draws), email, address)))
    {
      sent := [];
      if cardNumber == [] || Utf16Length(WithoutWhitespace(cardNumber)) < 16 {
        outcome := CardRejected;
        return;
      }
      var ls := Lines(cartItems);
      var ok;
      sent, ok := SendStockRequests(ls, failAt);
      if !ok {
        outcome := PaymentFailed;
        return;
      }
      var orderNumber := GenerateOrderNumber(draws);
      var order := OrderData(orderNumber, email, ShippingMethod, address, shippingCost, OrderItems(cartItems),
                             totalCost);
      sent, ok := SendOrderRequests(sent, order, failAt);
      outcome := if ok then ThankYou(order) else PaymentFailed;
    }
  }

  /** The three awaited requests after the stock loop: the order, the
      delivery and the cart clearing, stopping at the first rejection. */
  method SendOrderRequests(sent: seq<PayRequest>, order: OrderData, failAt: Option<nat>)
    returns (after: seq<PayRequest>, ok: bool)
    requires failAt.None? || failAt.value >= |sent|
    ensures ok <==> failAt.None? || failAt.value >= |sent| + 3
    ensures after == SentUntilFailure(sent + [AddOrder(order), CreateDelivery(order), ClearCart], failAt)
  {
    ghost var all := sent + [AddOrder(order), CreateDelivery(order), ClearCart];
    after := sent + [AddOrder(order)];
    ok := false;
    if failAt == Some(|after| - 1) {
      assert after == all[..|after|];
      return;
    }
    after := after + [CreateDelivery(order)];
    if failAt == Some(|after| - 1) {
      assert after == all[..|after|];
      return;
    }
    after := after + [ClearCart];
    if failAt == Some(|after| - 1) {
      assert after == all[..|after|];
      return;
    }
    ok := true;
  }
}
