/**
 * The catalogue page (src/Pages/ProductsPage.js): each product's average
 * rating, the search filter, grouping by category with sorted category
 * names, and sorting by price, popularity or rating.
 */
module ProductsPage {
  import opened Common
  import opened Storage
  import opened Sorting

  datatype Review = Review(rating: int, approved: bool)

  /** The rating a product gets when it has no approved review or its reviews could not be fetched. */
  const DefaultRating: real := 3.0

  // ---------------------------------------------------------------------
  // Average rating

  function ApprovedReviews(reviews: seq<Review>): (r: seq<Review>)
    ensures forall x :: x in r <==> x in reviews && x.approved
  {
    if reviews == [] then []
    else (if reviews[0].approved then [reviews[0]] else []) + ApprovedReviews(reviews[1..])
  }

  function SumOfRatings(reviews: seq<Review>): int
  {
    if reviews == [] then 0 else reviews[0].rating + SumOfRatings(reviews[1..])
  }

  /** `averageRating` for one product. `fetched` is the `reviews` list the
      backend sent (an absent list counts as empty), or None when the request
      failed. */
  function AverageRating(fetched: Option<seq<Review>>): (avg: real)
    ensures fetched.None? || ApprovedReviews(fetched.value) == [] ==> avg == DefaultRating
    ensures fetched.Some? && ApprovedReviews(fetched.value) != [] ==>
              avg == (SumOfRatings(ApprovedReviews(fetched.value)) as real) / (|ApprovedReviews(fetched.value)| as real)
  {
    if fetched.None? then DefaultRating
    else
      var approved := ApprovedReviews(fetched.value);
      if |approved| > 0 then (SumOfRatings(approved) as real) / (|approved| as real) else DefaultRating
  }

  lemma {:induction false} SumOfRatingsBounds(reviews: seq<Review>, lo: int, hi: int)
    requires forall i :: 0 <= i < |reviews| ==> lo <= reviews[i].rating <= hi
    ensures lo * |reviews| <= SumOfRatings(reviews) <= hi * |reviews|
  {
    if reviews != [] {
      SumOfRatingsBounds(reviews[1..], lo, hi);
    }
  }

  /** With star ratings of 1 to 5, the average rating is between 1 and 5. */
  lemma AverageRatingInRange(fetched: Option<seq<Review>>)
    requires fetched.Some? ==> forall x :: x in fetched.value ==> 1 <= x.rating <= 5
    ensures 1.0 <= AverageRating(fetched) <= 5.0
  {
    if fetched.Some? && ApprovedReviews(fetched.value) != [] {
      var approved := ApprovedReviews(fetched.value);
      assert forall i :: 0 <= i < |approved| ==> 1 <= approved[i].rating <= 5 by {
        forall i | 0 <= i < |approved| ensures 1 <= approved[i].rating <= 5 {
          assert approved[i] in approved;
        }
      }
      SumOfRatingsBounds(approved, 1, 5);
      AverageBetween(SumOfRatings(approved) as real, |approved| as real);
    }
  }

  lemma MulPositive(x: real, y: real)
    requires x > 0.0 && y > 0.0
    ensures x * y > 0.0
  {
  }

  /** An average of values between 1 and 5 is between 1 and 5. */
  lemma AverageBetween(sum: real, n: real)
    requires n > 0.0 && n <= sum && sum <= 5.0 * n
    ensures 1.0 <= sum / n && sum / n <= 5.0
  {
    var a := sum / n;
    assert a * n == sum;
    if a < 1.0 {
      assert (1.0 - a) * n == n - sum;
      MulPositive(1.0 - a, n);
      assert false;
    }
    if a > 5.0 {
      assert (a - 5.0) * n == sum - 5.0 * n;
      MulPositive(a - 5.0, n);
      assert false;
    }
  }

  /** The `fetchProducts` loop: each product gets the average rating of its
      own reviews response, in catalogue order. */
  method AttachRatings(productList: seq<Product>, reviewResponses: seq<Option<seq<Review>>>)
    returns (rated: seq<Product>)
    requires |reviewResponses| == |productList|
    ensures |rated| == |productList|
    ensures forall i :: 0 <= i < |rated| ==>
              rated[i] == productList[i].(averageRating := AverageRating(reviewResponses[i]))
  {
    rated := [];
    var i := 0;
    while i < |productList|
      invariant 0 <= i <= |productList| && |rated| == i
      invariant forall k :: 0 <= k < i ==>
                  rated[k] == productList[k].(averageRating := AverageRating(reviewResponses[k]))
    {
      rated := rated + [productList[i].(averageRating := AverageRating(reviewResponses[i]))];
      i := i + 1;
    }
  }

  /** `fetchProducts`: on success the rated list is shown and cached under
      the `products` key; on failure the error is set and storage is untouched. */
  method FetchProducts(s: LocalStorage, response: Response<seq<Product>>,
                       reviewResponses: seq<Option<seq<Review>>>)
    returns (products: seq<Product>, error: string)
    requires response.Ok? ==> |reviewResponses| == |response.value|
    modifies s`products
    ensures response.Ok? ==> error == "" && s.products == Some(products)
    ensures response.Ok? ==> |products| == |response.value|
    ensures response.Ok? ==> forall i :: 0 <= i < |products| ==>
              products[i] == response.value[i].(averageRating := AverageRating(reviewResponses[i]))
    ensures response.Err? ==> products == [] && error == "Failed to load products" && s.products == old(s.products)
  {
    match response
    case Ok(productList) =>
      products := AttachRatings(productList, reviewResponses);
      s.products := Some(products);
      error := "";
    case Err(_) =>
      products := [];
      error := "Failed to load products";
  }

  // ---------------------------------------------------------------------
  // Search

  /** `toLowerCase` on the letters A to Z. */
  function ToLowerChar(c: char): char
  {
    if 'A' <= c <= 'Z' then (c as int - 'A' as int + 'a' as int) as char else c
  }

  function ToLower(s: string): (r: string)
    ensures |r| == |s| && forall i :: 0 <= i < |s| ==> r[i] == ToLowerChar(s[i])
  {
    seq(|s|, i requires 0 <= i < |s| => ToLowerChar(s[i]))
  }

  /** `s.includes(sub)`. */
  function Includes(s: string, sub: string): bool
  {
    (|sub| <= |s| && s[..|sub|] == sub) || (s != [] && Includes(s[1..], sub))
  }

  /** A product matches when its lower-cased name or description contains the lower-cased query. */
  predicate MatchesQuery(p: Product, query: string)
  {
    Includes(ToLower(p.name), ToLower(query)) || Includes(ToLower(p.description), ToLower(query))
  }

  /** `products.filter(...)` with the search query. */
  function Filtered(products: seq<Product>, query: string): (r: seq<Product>)
    ensures |r| <= |products|
    ensures forall p :: p in r <==> p in products && MatchesQuery(p, query)
  {
    if products == [] then []
    else (if MatchesQuery(products[0], query) then [products[0]] else []) + Filtered(products[1..], query)
  }

  /** The filter keeps the catalogue order: it distributes over concatenation. */
  lemma {:induction false} FilteredAppend(a: seq<Product>, b: seq<Product>, query: string)
    ensures Filtered(a + b, query) == Filtered(a, query) + Filtered(b, query)
  {
    if a == [] {
      assert a + b == b;
    } else {
      assert (a + b)[1..] == a[1..] + b;
      FilteredAppend(a[1..], b, query);
    }
  }

  lemma EmptyQueryMatches(p: Product)
    ensures MatchesQuery(p, "")
  {
    assert ToLower("") == "";
  }

  /** An empty search keeps every product, in order. */
  lemma {:induction false} EmptyQueryKeepsAll(products: seq<Product>)
    ensures Filtered(products, "") == products
  {
    if products != [] {
      EmptyQueryMatches(products[0]);
      EmptyQueryKeepsAll(products[1..]);
    }
  }

  lemma ToLowerIdempotent(s: string)
    ensures ToLower(ToLower(s)) == ToLower(s)
  {
  }

  /** The search ignores the case of the query's letters. */
  lemma {:induction false} FilterIgnoresQueryCase(products: seq<Product>, query: string)
    ensures Filtered(products, ToLower(query)) == Filtered(products, query)
  {
    ToLowerIdempotent(query);
    if products != [] {
      FilterIgnoresQueryCase(products[1..], query);
    }
  }

  // ---------------------------------------------------------------------
  // Grouping by category

  /** The `reduce` that pushes each product onto its category's list. */
  function GroupByCategory(ps: seq<Product>): (groups: map<string, seq<Product>>)
  {
    if ps == [] then map[]
    else
      var acc := GroupByCategory(ps[..|ps| - 1]);
      var p := ps[|ps| - 1];
      if p.category in acc then acc[p.category := acc[p.category] + [p]] else acc[p.category := [p]]
  }

  /** The products of category `c`, in the order given. */
  function InCategory(ps: seq<Product>, c: string): (r: seq<Product>)
    ensures forall p :: p in r <==> p in ps && p.category == c
  {
    if ps == [] then []
    else InCategory(ps[..|ps| - 1], c) + (if ps[|ps| - 1].category == c then [ps[|ps| - 1]] else [])
  }

  /** The categories of `ps`, each once, in order of first appearance. */
  function Categories(ps: seq<Product>): (cs: seq<string>)
    ensures forall c :: c in cs <==> exists p :: p in ps && p.category == c
    ensures forall i, j :: 0 <= i < j < |cs| ==> cs[i] != cs[j]
  {
    if ps == [] then []
    else
      var prefix := ps[..|ps| - 1];
      var last := ps[|ps| - 1];
      assert forall p :: p in ps <==> p in prefix || p == last by {
        assert ps == prefix + [last];
      }
      var before := Categories(prefix);
      if last.category in before then before else before + [last.category]
  }

  /** Each group is exactly the products of its category, in filtered order,
      and there is a group for each category present and for no other. */
  lemma {:induction false} GroupsAreCategories(ps: seq<Product>)
    ensures GroupByCategory(ps).Keys == (set p | p in ps :: p.category)
    ensures forall c :: c in GroupByCategory(ps) ==> GroupByCategory(ps)[c] == InCategory(ps, c)
  {
    if ps != [] {
      var prefix := ps[..|ps| - 1];
      var last := ps[|ps| - 1];
      GroupsAreCategories(prefix);
      GroupKeysStep(prefix, last);
      assert ps == prefix + [last];
      var acc := GroupByCategory(prefix);
      forall c | c in GroupByCategory(ps) ensures GroupByCategory(ps)[c] == InCategory(ps, c) {
        if c != last.category {
          assert c in acc;
        } else if c !in acc {
          forall p | p in prefix ensures p.category != c {
            assert p.category in acc.Keys;
          }
          NoneInCategory(prefix, c);
        }
      }
    }
  }

  /** The categories of a list with one more product. */
  lemma GroupKeysStep(prefix: seq<Product>, last: Product)
    ensures (set p | p in prefix + [last] :: p.category) == (set p | p in prefix :: p.category) + {last.category}
  {
    var both := prefix + [last];
    assert forall p :: p in both <==> p in prefix || p == last;
  }

  lemma NoneInCategory(ps: seq<Product>, c: string)
    requires forall p :: p in ps ==> p.category != c
    ensures InCategory(ps, c) == []
  {
    if InCategory(ps, c) != [] {
      assert InCategory(ps, c)[0] in InCategory(ps, c);
    }
  }

  /** So every filtered product sits in its own category's group and in no other. */
  lemma ProductInExactlyOneGroup(ps: seq<Product>, p: Product, c: string)
    requires p in ps
    ensures p.category in GroupByCategory(ps) && p in GroupByCategory(ps)[p.category]
    ensures c in GroupByCategory(ps) && p in GroupByCategory(ps)[c] ==> c == p.category
  {
    GroupsAreCategories(ps);
  }

  // ---------------------------------------------------------------------
  // Ordering

  /** `a.localeCompare(b) <= 0`, taken as plain lexicographic order on characters. */
  predicate LexLe(a: string, b: string)
  {
    a == [] || (b != [] && (a[0] < b[0] || (a[0] == b[0] && LexLe(a[1..], b[1..]))))
  }

  lemma {:induction false} LexLeTotal(a: string, b: string)
    ensures LexLe(a, b) || LexLe(b, a)
  {
    if a != [] && b != [] && a[0] == b[0] {
      LexLeTotal(a[1..], b[1..]);
    }
  }

  lemma {:induction false} LexLeAntisymmetric(a: string, b: string)
    requires LexLe(a, b) && LexLe(b, a)
    ensures a == b
  {
    if a != [] && b != [] {
      LexLeAntisymmetric(a[1..], b[1..]);
      assert a == [a[0]] + a[1..] && b == [b[0]] + b[1..];
    }
  }

  lemma {:induction false} LexLeTransitive(a: string, b: string, c: string)
    requires LexLe(a, b) && LexLe(b, c)
    ensures LexLe(a, c)
  {
    if a != [] && b != [] && c != [] && a[0] == b[0] && b[0] == c[0] {
      LexLeTransitive(a[1..], b[1..], c[1..]);
    }
  }

  /** The comparator on category names: ascending for 'asc', descending otherwise. */
  function CategoryOrder(sortOrder: string): (string, string) -> bool
  {
    if sortOrder == "asc" then (a: string, b: string) => LexLe(a, b)
    else (a: string, b: string) => LexLe(b, a)
  }

  /** The number the comparator computes before the direction is applied:
      `a.price - b.price`, `a.popularity - b.popularity`,
      `a.averageRating - b.averageRating`, or `b.popularity - a.popularity`
      for any other option. */
  function CompareValue(sortOption: string, a: Product, b: Product): (d: real)
    ensures d == SortKey(sortOption, a) - SortKey(sortOption, b)
  {
    if sortOption == "price" then (a.price - b.price) as real
    else if sortOption == "popularity" then (a.popularity - b.popularity) as real
    else if sortOption == "rating" then a.averageRating - b.averageRating
    else (b.popularity - a.popularity) as real
  }

  /** The key the comparator orders by. */
  function SortKey(sortOption: string, p: Product): real
  {
    if sortOption == "price" then p.price as real
    else if sortOption == "popularity" then p.popularity as real
    else if sortOption == "rating" then p.averageRating
    else -(p.popularity as real)
  }

  /** `sortOrder === 'asc' ? compareValue : -compareValue`, read as "a may stay before b". */
  function ProductOrder(sortOption: string, sortOrder: string): (Product, Product) -> bool
  {
    (a: Product, b: Product) =>
      if sortOrder == "asc" then CompareValue(sortOption, a, b) <= 0.0
      else -CompareValue(sortOption, a, b) <= 0.0
  }

  /** Every compare value is the difference of two keys, so the comparator
      orders by the key: ascending for 'asc', descending otherwise. */
  lemma ProductOrderByKey(sortOption: string, sortOrder: string, a: Product, b: Product)
    ensures CompareValue(sortOption, a, b) == SortKey(sortOption, a) - SortKey(sortOption, b)
    ensures ProductOrder(sortOption, sortOrder)(a, b) <==>
              if sortOrder == "asc" then SortKey(sortOption, a) <= SortKey(sortOption, b)
              else SortKey(sortOption, b) <= SortKey(sortOption, a)
  {
  }

  /** What `groupAndSortProducts` returns. */
  datatype CatalogueView =
    | Grouped(groupedProducts: map<string, seq<Product>>, sortedCategories: seq<string>, totalProducts: nat)
    | Sorted(sortedProducts: seq<Product>, totalProducts: nat)

  /** `groupAndSortProducts`: filter, then group by category or sort. */
  function GroupAndSortProducts(products: seq<Product>, searchQuery: string, sortOption: string,
                                sortOrder: string): (v: CatalogueView)
    ensures v.Grouped? <==> sortOption == "category"
    ensures v.totalProducts == |Filtered(products, searchQuery)|
    ensures v.Sorted? ==> multiset(v.sortedProducts) == multiset(Filtered(products, searchQuery))
    ensures v.Grouped? ==> multiset(v.sortedCategories) == multiset(Categories(Filtered(products, searchQuery)))
  {
    var filtered := Filtered(products, searchQuery);
    if sortOption == "category" then
      Grouped(GroupByCategory(filtered), SortBy(Categories(filtered), CategoryOrder(sortOrder)), |filtered|)
    else
      Sorted(SortBy(filtered, ProductOrder(sortOption, sortOrder)), |filtered|)
  }

  /** In category mode every filtered product is in exactly the group of its
      category, groups keep filtered order, and the category names are each
      listed once, ascending for 'asc' and descending otherwise. */
  lemma CategoryViewCorrect(products: seq<Product>, searchQuery: string, sortOrder: string)
    ensures var v := GroupAndSortProducts(products, searchQuery, "category", sortOrder);
            var filtered := Filtered(products, searchQuery);
            && v.groupedProducts.Keys == (set p | p in filtered :: p.category)
            && (forall c :: c in v.groupedProducts ==> v.groupedProducts[c] == InCategory(filtered, c))
            && (forall c :: c in v.sortedCategories <==> c in v.groupedProducts)
            && (forall i, j :: 0 <= i < j < |v.sortedCategories| ==>
                  v.sortedCategories[i] != v.sortedCategories[j]
                  && (if sortOrder == "asc" then LexLe(v.sortedCategories[i], v.sortedCategories[j])
                      else LexLe(v.sortedCategories[j], v.sortedCategories[i])))
  {
    var v := GroupAndSortProducts(products, searchQuery, "category", sortOrder);
    var filtered := Filtered(products, searchQuery);
    GroupsAreCategories(filtered);
    var cs := Categories(filtered);
    var le := CategoryOrder(sortOrder);
    var sorted := v.sortedCategories;
    assert sorted == SortBy(cs, le);
    assert TotalOn(le, cs) by {
      forall i, j | 0 <= i < |cs| && 0 <= j < |cs| ensures le(cs[i], cs[j]) || le(cs[j], cs[i]) {
        LexLeTotal(cs[i], cs[j]);
      }
    }
    SortBySorted(cs, le);
    forall c ensures c in sorted <==> c in v.groupedProducts {
      assert c in sorted <==> c in multiset(sorted);
      assert c in cs <==> c in multiset(cs);
    }
    forall a, b, c | le(a, b) && le(b, c) ensures le(a, c) {
      if sortOrder == "asc" { LexLeTransitive(a, b, c); } else { LexLeTransitive(c, b, a); }
    }
    forall i, j | 0 <= i < j < |sorted|
      ensures sorted[i] != sorted[j]
      ensures if sortOrder == "asc" then LexLe(sorted[i], sorted[j]) else LexLe(sorted[j], sorted[i])
    {
      SortedPairwise(sorted, le, i, j);
      DistinctAfterSort(cs, sorted, i, j);
    }
  }

  /** A permutation of a sequence without repeats has no repeats. */
  lemma DistinctAfterSort(cs: seq<string>, sorted: seq<string>, i: nat, j: nat)
    requires forall a, b :: 0 <= a < b < |cs| ==> cs[a] != cs[b]
    requires multiset(sorted) == multiset(cs)
    requires i < j < |sorted|
    ensures sorted[i] != sorted[j]
  {
    if sorted[i] == sorted[j] {
      var x := sorted[i];
      assert multiset(sorted)[x] >= 2 by {
        assert sorted == sorted[..j] + [x] + sorted[j + 1..];
        assert x in sorted[..j];
      }
      DistinctCountsOnce(cs, x);
    }
  }

  lemma {:induction false} DistinctCountsOnce(cs: seq<string>, x: string)
    requires forall a, b :: 0 <= a < b < |cs| ==> cs[a] != cs[b]
    ensures multiset(cs)[x] <= 1
  {
    if cs != [] {
      assert cs == [cs[0]] + cs[1..];
      DistinctCountsOnce(cs[1..], x);
      if cs[0] == x {
        assert x !in cs[1..];
      }
    }
  }

  /** In the other modes the result is the filtered list reordered so that
      the sort key never decreases for 'asc' and never increases otherwise. */
  lemma SortedViewOrdered(products: seq<Product>, searchQuery: string, sortOption: string,
                          sortOrder: string, i: nat, j: nat)
    requires sortOption != "category"
    requires i < j < |GroupAndSortProducts(products, searchQuery, sortOption, sortOrder).sortedProducts|
    ensures var r := GroupAndSortProducts(products, searchQuery, sortOption, sortOrder).sortedProducts;
            if sortOrder == "asc" then SortKey(sortOption, r[i]) <= SortKey(sortOption, r[j])
            else SortKey(sortOption, r[j]) <= SortKey(sortOption, r[i])
  {
    var filtered := Filtered(products, searchQuery);
    var le := ProductOrder(sortOption, sortOrder);
    var r := SortBy(filtered, le);
    assert TotalOn(le, filtered) by {
      forall a, b | 0 <= a < |filtered| && 0 <= b < |filtered|
        ensures le(filtered[a], filtered[b]) || le(filtered[b], filtered[a])
      {
        ProductOrderByKey(sortOption, sortOrder, filtered[a], filtered[b]);
        ProductOrderByKey(sortOption, sortOrder, filtered[b], filtered[a]);
      }
    }
    SortBySorted(filtered, le);
    forall a, b, c | le(a, b) && le(b, c) ensures le(a, c) {
      ProductOrderByKey(sortOption, sortOrder, a, b);
      ProductOrderByKey(sortOption, sortOrder, b, c);
      ProductOrderByKey(sortOption, sortOrder, a, c);
    }
    SortedPairwise(r, le, i, j);
    ProductOrderByKey(sortOption, sortOrder, r[i], r[j]);
  }

  /** The default ('recommended') order with 'asc' selected lists the most popular products first. */
  lemma RecommendedAscendingIsMostPopularFirst(products: seq<Product>, searchQuery: string, i: nat, j: nat)
    requires i < j < |GroupAndSortProducts(products, searchQuery, "recommended", "asc").sortedProducts|
    ensures var r := GroupAndSortProducts(products, searchQuery, "recommended", "asc").sortedProducts;
            r[j].popularity <= r[i].popularity
  {
    SortedViewOrdered(products, searchQuery, "recommended", "asc", i, j);
  }
}
