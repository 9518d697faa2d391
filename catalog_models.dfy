/** catalog/models.py: products and their pricing properties, category paths,
    the category-type guard of books and toys, and the rating kept from reviews. */
module Catalog {
  import opened Basics
  import opened Text
  import opened CommonUtils
  import opened SoftDelete

  /** A category together with its chain of parents up to the root. */
  datatype Category = Category(name: string, kind: CategoryType, parent: Option<Category>)

  /** Category.full_name */
  function FullName(c: Category): (r: string)
    ensures |r| >= |c.name| && r[|r| - |c.name|..] == c.name
    ensures c.parent.None? ==> r == c.name
  {
    match c.parent
    case None => c.name
    case Some(p) => FullName(p) + " > " + c.name
  }

  /** The root (top-most ancestor) of a category. */
  function Root(c: Category): Category {
    match c.parent
    case None => c
    case Some(p) => Root(p)
  }

  /** The number of categories on the path from the root to `c`. */
  function Depth(c: Category): nat {
    match c.parent
    case None => 1
    case Some(p) => Depth(p) + 1
  }

  /** A full path starts with the root's name, and has one " > " per level. */
  lemma {:induction false} FullNameStartsAtRoot(c: Category)
    ensures |Root(c).name| <= |FullName(c)| && FullName(c)[..|Root(c).name|] == Root(c).name
    ensures |FullName(c)| >= |c.name| + 3 * (Depth(c) - 1)
  {
    match c.parent
    case None =>
    case Some(p) =>
      FullNameStartsAtRoot(p);
      assert FullName(c)[..|FullName(p)|] == FullName(p);
  }

  datatype Product = Product(
    sku: string,
    title: string,
    price: Cents,
    salePrice: Option<Cents>,
    inventory: nat,
    vendor: UserId,
    category: Category,
    ageMin: Option<nat>,
    ageMax: Option<nat>,
    isActive: bool,
    ratingAvg: real,
    ratingCount: nat,
    deletion: Deletion)

  /** `if self.sale_price`: a sale price that is set and non-zero. */
  predicate HasSalePrice(p: Product) { p.salePrice.Some? && p.salePrice.value != 0 }

  /** Product.current_price */
  function CurrentPrice(p: Product): (r: Cents)
    ensures HasSalePrice(p) ==> r == p.salePrice.value
    ensures !HasSalePrice(p) ==> r == p.price
  {
    if HasSalePrice(p) then p.salePrice.value else p.price
  }

  /** Product.is_on_sale */
  predicate IsOnSale(p: Product)
    ensures IsOnSale(p) ==> p.salePrice.Some? && CurrentPrice(p) < p.price
  { HasSalePrice(p) && p.salePrice.value < p.price }

  /** On sale, the current price is strictly below the list price; off sale, it is
      the list price unless a sale price at or above the list price is set, which
      is then charged although the product is not on sale. */
  lemma CurrentPriceAgainstPrice(p: Product)
    ensures IsOnSale(p) <==> CurrentPrice(p) < p.price
    ensures !IsOnSale(p) && HasSalePrice(p) ==> CurrentPrice(p) >= p.price
    ensures !HasSalePrice(p) ==> CurrentPrice(p) == p.price
  {
  }

  /** Decimal rounding of n / d to an integer, ties to even (ROUND_HALF_EVEN). */
  function RoundHalfEven(n: int, d: int): (r: int)
    requires d != 0
    ensures d > 0 ==> 2 * (n - d * r) <= d && -d <= 2 * (n - d * r)
    decreases if d < 0 then 1 else 0
  {
    if d < 0 then RoundHalfEven(-n, -d)
    else
      var q := n / d;
      var rem := n % d;
      if 2 * rem > d then q + 1
      else if 2 * rem < d then q
      else if q % 2 == 0 then q else q + 1
  }

  /** Rounding a quotient that lies between `lo` and `hi` keeps it there. */
  lemma RoundHalfEvenBetween(n: int, d: int, lo: int, hi: int)
    requires d > 0 && lo * d <= n <= hi * d
    ensures lo <= RoundHalfEven(n, d) <= hi
  {
    var q := n / d;
    var rem := n % d;
    assert n == d * q + rem && 0 <= rem < d;
    if q < lo {
      MulMonotone(d, q, lo - 1);
      assert false;
    }
    if q > hi {
      MulMonotone(d, hi + 1, q);
      assert false;
    }
    if q == hi {
      assert rem == 0;
    }
  }

  lemma MulMonotone(d: int, a: int, b: int)
    requires d > 0 && a <= b
    ensures d * a <= d * b
  {
    assert d * b - d * a == d * (b - a);
  }

  /** Product.discount_percentage in hundredths of a percent: 0 off sale, else
      round((price - sale) / price * 100, 2). None is the DivisionByZero that a
      negative sale price on a zero price raises. */
  function DiscountPercentage(p: Product): (r: Option<int>)
    ensures !IsOnSale(p) ==> r == Some(0)
    ensures r.None? <==> IsOnSale(p) && p.price == 0
    ensures r.Some? && IsOnSale(p) && p.price > 0 ==>
      var num := 10000 * (p.price - p.salePrice.value);
      2 * (num - p.price * r.value) <= p.price && -p.price <= 2 * (num - p.price * r.value)
  {
    if !IsOnSale(p) then Some(0)
    else if p.price == 0 then None
    else Some(RoundHalfEven(10000 * (p.price - p.salePrice.value), p.price))
  }

  /** With a non-negative sale price, on sale means 0 < sale < price, so there is
      no division by zero and the percentage lies in [0, 100]. */
  lemma DiscountPercentageInRange(p: Product)
    requires p.salePrice.Some? ==> p.salePrice.value >= 0
    ensures DiscountPercentage(p).Some?
    ensures 0 <= DiscountPercentage(p).value <= 10000
  {
    if IsOnSale(p) {
      var s := p.salePrice.value;
      assert 0 < s < p.price;
      assert 10000 * (p.price - s) <= 10000 * p.price;
      RoundHalfEvenBetween(10000 * (p.price - s), p.price, 0, 10000);
    }
  }

  /** Product.is_in_stock */
  predicate IsInStock(p: Product)
    ensures IsInStock(p) <==> p.inventory >= 1
  { p.inventory > 0 }

  /** Product.age_range_display. The label's format is its specification, so the
      ensures spell that format out; what it determines is stated by
      AgeRangeDisplayStartsWithMin. */
  function AgeRangeDisplay(p: Product): (r: string)
    ensures p.ageMin.Some? && p.ageMax.Some? ==>
      r == NatToString(p.ageMin.value) + "-" + NatToString(p.ageMax.value) + " years"
    ensures p.ageMin.Some? && p.ageMax.None? ==> r == NatToString(p.ageMin.value) + "+ years"
    ensures p.ageMin.None? ==> r == "All ages"
  {
    if p.ageMin.Some? && p.ageMax.Some? then
      NatToString(p.ageMin.value) + "-" + NatToString(p.ageMax.value) + " years"
    else if p.ageMin.Some? then NatToString(p.ageMin.value) + "+ years"
    else "All ages"
  }

  /** The minimum age can be read back from a "min-max years" or "min+ years" label. */
  lemma AgeRangeDisplayStartsWithMin(p: Product)
    requires p.ageMin.Some?
    ensures var s := NatToString(p.ageMin.value); var r := AgeRangeDisplay(p);
      |s| < |r| && r[..|s|] == s && !IsDigit(r[|s|])
  {
    var s := NatToString(p.ageMin.value);
    var r := AgeRangeDisplay(p);
    if p.ageMax.Some? {
      assert r == s + ("-" + NatToString(p.ageMax.value) + " years");
    } else {
      assert r == s + "+ years";
    }
  }

  /** The guard of Book.save (`kind` Books) and Toy.save (`kind` Toys). */
  function CategoryGuard(p: Product, kind: CategoryType): (v: Verdict)
    ensures v.Accept? <==> p.category.kind == kind
    ensures v.Reject? ==> v.message == CategoryMessage(kind)
  {
    if p.category.kind != kind then Reject(CategoryMessage(kind)) else Accept
  }

  function CategoryMessage(kind: CategoryType): string {
    if kind == Books then "Book must be assigned to a BOOKS category."
    else "Toy must be assigned to a TOYS category."
  }

  datatype Review = Review(
    product: ProductId,
    user: UserId,
    rating: nat,
    title: string,
    content: string,
    deletion: Deletion)

  /** The ratings of every review row of `product`, soft-deleted rows included
      (the aggregate filters on the product only). */
  function RatingsOf(reviews: seq<Review>, product: ProductId): (r: seq<nat>)
    ensures |r| <= |reviews|
  {
    if reviews == [] then []
    else (if reviews[0].product == product then [reviews[0].rating] else [])
         + RatingsOf(reviews[1..], product)
  }

  function Sum(s: seq<nat>): nat {
    if s == [] then 0 else s[0] + Sum(s[1..])
  }

  /** `Avg('rating') or 0` */
  function Mean(s: seq<nat>): (r: real)
    ensures s == [] ==> r == 0.0
  {
    if s == [] then 0.0 else (Sum(s) as real) / (|s| as real)
  }

  /** What update_product_rating stores: `Avg('rating') or 0` saved into
      rating_avg, a DecimalField with two decimal places, so the mean rounded
      half-even to hundredths. */
  function StoredRating(s: seq<nat>): (r: real)
    ensures s == [] ==> r == 0.0
    ensures s != [] ==> -0.005 <= r - Mean(s) <= 0.005
  {
    if s == [] then 0.0
    else
      var k := RoundHalfEven(100 * Sum(s), |s|);
      HundredthsNear(Sum(s), |s|, k);
      (k as real) / 100.0
  }

  /** k hundredths is within half a hundredth of total / n when k rounds
      100 * total / n. */
  lemma HundredthsNear(total: int, n: int, k: int)
    requires n > 0 && 2 * (100 * total - n * k) <= n && -n <= 2 * (100 * total - n * k)
    ensures -0.005 <= (k as real) / 100.0 - (total as real) / (n as real) <= 0.005
  {
    var N, T, K := n as real, total as real, k as real;
    CastProduct(n, k);
    assert ((2 * (100 * total - n * k)) as real) == 200.0 * T - 2.0 * (N * K);
    HundredthsNearReal(T, N, K);
  }

  lemma CastProduct(a: int, b: int)
    ensures (a * b) as real == (a as real) * (b as real)
  {
  }

  lemma HundredthsNearReal(T: real, N: real, K: real)
    requires N > 0.0 && -N <= 200.0 * T - 2.0 * (N * K) <= N
    ensures -0.005 <= K / 100.0 - T / N <= 0.005
  {
    var m := T / N;
    assert m * N == T;
    var e := K / 100.0 - m;
    assert e * N == (K / 100.0) * N - T;
    assert e * N * 200.0 == 2.0 * (N * K) - 200.0 * T;
    RealScaleBound(e * 200.0, N);
  }

  lemma RealScaleBound(x: real, d: real)
    requires d > 0.0 && -d <= x * d <= d
    ensures -1.0 <= x <= 1.0
  {
  }

  lemma {:induction false} SumBounds(s: seq<nat>, lo: nat, hi: nat)
    requires forall i :: 0 <= i < |s| ==> lo <= s[i] <= hi
    ensures lo * |s| <= Sum(s) <= hi * |s|
  {
    if s != [] {
      var t := s[1..];
      SumBounds(t, lo, hi);
      assert lo * |s| == lo * |t| + lo && hi * |s| == hi * |t| + hi;
    }
  }

  /** With ratings between 1 and 5 the average, and the two-place value
      stored for it, lie between 1 and 5. */
  lemma MeanOfRatings(s: seq<nat>)
    requires s != []
    requires forall i :: 0 <= i < |s| ==> 1 <= s[i] <= 5
    ensures 1.0 <= Mean(s) <= 5.0
    ensures 1.0 <= StoredRating(s) <= 5.0
  {
    SumBounds(s, 1, 5);
    RoundHalfEvenBetween(100 * Sum(s), |s|, 100, 500);
    var n := |s| as real;
    var total := Sum(s) as real;
    assert n <= total <= 5.0 * n;
    QuotientBetween(total, n, 1.0, 5.0);
  }

  lemma QuotientBetween(a: real, n: real, lo: real, hi: real)
    requires n > 0.0 && lo * n <= a <= hi * n
    ensures lo <= a / n <= hi
  {
    var m := a / n;
    assert (m - lo) * n == a - lo * n >= 0.0;
    assert (hi - m) * n == hi * n - a >= 0.0;
  }

  lemma {:induction false} RatingsOfAppend(reviews: seq<Review>, r: Review, product: ProductId)
    ensures RatingsOf(reviews + [r], product)
         == RatingsOf(reviews, product) + (if r.product == product then [r.rating] else [])
  {
    if reviews == [] {
      assert [r][1..] == [];
    } else {
      assert (reviews + [r])[0] == reviews[0];
      assert (reviews + [r])[1..] == reviews[1..] + [r];
      RatingsOfAppend(reviews[1..], r, product);
    }
  }

  predicate HasReview(reviews: seq<Review>, product: ProductId, user: UserId) {
    exists i :: 0 <= i < |reviews| && reviews[i].product == product && reviews[i].user == user
  }

  /** The catalog's tables. */
  class ProductCatalog {
    var products: map<ProductId, Product>
    var reviews: seq<Review>

    constructor ()
      ensures products == map[] && reviews == []
    {
      products, reviews := map[], [];
    }

    /** Book.save (`kind` Books) or Toy.save (`kind` Toys) of the row `id`: the
        ValueError leaves the table as it was. */
    method SaveTyped(id: ProductId, p: Product, kind: CategoryType) returns (v: Verdict)
      modifies this
      ensures v == CategoryGuard(p, kind)
      ensures products == if v.Accept? then old(products)[id := p] else old(products)
      ensures reviews == old(reviews)
    {
      v := CategoryGuard(p, kind);
      if v.Accept? {
        products := products[id := p];
      }
    }

    /** Review.save of a new review, then update_product_rating. A second review
        by the same user of the same product violates unique_together. */
    method SaveNewReview(r: Review) returns (ok: bool)
      requires r.product in products
      modifies this
      ensures ok <==> !HasReview(old(reviews), r.product, r.user)
      ensures !ok ==> products == old(products) && reviews == old(reviews)
      ensures ok ==> reviews == old(reviews) + [r]
      ensures ok ==> products == old(products)[r.product := old(products[r.product]).(
        ratingAvg := StoredRating(RatingsOf(reviews, r.product)),
        ratingCount := |RatingsOf(reviews, r.product)|)]
    {
      if HasReview(reviews, r.product, r.user) {
        return false;
      }
      reviews := reviews + [r];
      var ratings := RatingsOf(reviews, r.product);
      var p := products[r.product];
      products := products[r.product := p.(ratingAvg := StoredRating(ratings), ratingCount := |ratings|)];
      ok := true;
    }

    /** Review.save of an existing review: the rating of the product is not
        recomputed. */
    method SaveExistingReview(i: nat, r: Review)
      requires i < |reviews|
      modifies this
      ensures reviews == old(reviews)[i := r]
      ensures products == old(products)
    {
      reviews := reviews[i := r];
    }
  }

  /** After a first review, the product's count includes it and is at least 1. */
  lemma NewReviewCounted(reviews: seq<Review>, r: Review)
    ensures |RatingsOf(reviews + [r], r.product)| == |RatingsOf(reviews, r.product)| + 1
    ensures RatingsOf(reviews + [r], r.product) != []
  {
    RatingsOfAppend(reviews, r, r.product);
  }
}
