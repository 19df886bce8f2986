/** The product endpoints (productController.js): the listing query with
    its filter record and pagination, and the create, update, review and
    delete operations on product documents. */
module ProductController {
  import opened Wrappers
  import opened Http
  import opened ProductModel
  import Seqs

  type ProductId = string

  // ---------------------------------------------------------------------
  // getProducts

  const PageSize: int := 12

  /** The query string of `GET /api/products`. A `None` is a parameter
      that is absent or empty; `page` is also `None` when it is not a number. */
  datatype ProductQuery = ProductQuery(
    page: Option<int>,
    category: Option<string>,
    minPrice: Option<int>,
    maxPrice: Option<int>,
    keyword: Option<string>,
    isNew: Option<string>)

  datatype PriceBound =
    | AnyPrice
    | Between(lo: int, hi: int)
    | AtLeast(lo: int)
    | AtMost(hi: int)

  /** The filter object handed to the database. */
  datatype ProductFilter = ProductFilter(
    category: Option<string>,
    price: PriceBound,
    keyword: Option<string>,
    newOnly: bool)

  /** A query-string value JavaScript treats as true. */
  predicate Present(s: Option<string>)
  {
    s.Some? && s.value != ""
  }

  /** `Number(req.query.page) || 1`. */
  function PageNumber(page: Option<int>): (r: int)
    ensures r != 0
    ensures page.Some? && page.value != 0 ==> r == page.value
    ensures page.None? || page.value == 0 ==> r == 1
  {
    if page.Some? && page.value != 0 then page.value else 1
  }

  /** `pageSize * (page - 1)`: how many products the page skips. */
  function Skip(page: int): int
  {
    PageSize * (page - 1)
  }

  /** `Math.ceil(count / pageSize)`. */
  function PageCount(count: nat): (pages: nat)
    ensures PageSize * pages >= count
    ensures PageSize * (pages - 1) < count
  {
    (count + PageSize - 1) / PageSize
  }

  /** The products of one page: at most `pageSize` of the matching
      products, sorted newest first, after skipping the earlier pages. */
  function PageWindow<T>(sorted: seq<T>, skip: int): (r: seq<T>)
    requires skip >= 0
    ensures |r| <= PageSize
    ensures skip < |sorted| ==> r == sorted[skip..if skip + PageSize < |sorted| then skip + PageSize else |sorted|]
    ensures skip >= |sorted| ==> r == []
  {
    if skip >= |sorted| then []
    else if skip + PageSize < |sorted| then sorted[skip..skip + PageSize]
    else sorted[skip..]
  }

  /** The filter record `getProducts` builds from the query. */
  function BuildFilter(q: ProductQuery): (f: ProductFilter)
    ensures f.category.Some? ==> f.category.value != "" && f.category.value != "all"
    ensures f.keyword.Some? ==> f.keyword.value != ""
    ensures f.price.AnyPrice? <==> q.minPrice.None? && q.maxPrice.None?
  {
    var category := if Present(q.category) && q.category.value != "all" then q.category else None;
    var price :=
      if q.minPrice.Some? && q.maxPrice.Some? then Between(q.minPrice.value, q.maxPrice.value)
      else if q.minPrice.Some? then AtLeast(q.minPrice.value)
      else if q.maxPrice.Some? then AtMost(q.maxPrice.value)
      else AnyPrice;
    var keyword := if Present(q.keyword) then q.keyword else None;
    ProductFilter(category, price, keyword, q.isNew == Some("true"))
  }

  predicate PriceOk(price: int, b: PriceBound)
  {
    match b
    case AnyPrice => true
    case Between(lo, hi) => lo <= price <= hi
    case AtLeast(lo) => lo <= price
    case AtMost(hi) => price <= hi
  }

  /** Whether a product satisfies the filter; `nameMatches(name, keyword)`
      stands for the database's case-insensitive regular-expression match. */
  predicate Matches(p: Product, f: ProductFilter, nameMatches: (string, string) -> bool)
  {
    && (f.category.None? || p.category == f.category.value)
    && PriceOk(p.price, f.price)
    && (f.keyword.None? || nameMatches(p.name, f.keyword.value))
    && (!f.newOnly || p.isNew)
  }

  /** The four-way price branch means: every bound that is given holds. */
  lemma PriceFilterMeansBounds(q: ProductQuery, price: int)
    ensures PriceOk(price, BuildFilter(q).price) <==>
              ((q.minPrice.None? || q.minPrice.value <= price)
               && (q.maxPrice.None? || price <= q.maxPrice.value))
  {
  }

  /** A category constraint exists only for a given category other than
      "all"; the new-only constraint only for the exact string "true". */
  lemma FilterConstraints(q: ProductQuery)
    ensures BuildFilter(q).category.Some? <==> Present(q.category) && q.category.value != "all"
    ensures BuildFilter(q).category.Some? ==> BuildFilter(q).category == q.category
    ensures BuildFilter(q).newOnly <==> q.isNew == Some("true")
  {
  }

  /** A query with no parameters matches every product, on page 1. */
  lemma EmptyQueryMatchesAll(p: Product, nameMatches: (string, string) -> bool)
    ensures var q := ProductQuery(None, None, None, None, None, None);
            Matches(p, BuildFilter(q), nameMatches) && PageNumber(q.page) == 1 && Skip(PageNumber(q.page)) == 0
  {
  }

  /** Pages 1 to `pages` are all non-empty and the pages after them are
      empty, for `count` matching products. */
  lemma {:induction false} PagesCoverResults<T>(sorted: seq<T>, page: int)
    requires page >= 1
    ensures var pages := PageCount(|sorted|);
            (page <= pages ==> |PageWindow(sorted, Skip(page))| > 0)
            && (page > pages ==> PageWindow(sorted, Skip(page)) == [])
  {
    var pages := PageCount(|sorted|);
    if page <= pages {
      assert PageSize * (page - 1) <= PageSize * (pages - 1);
    } else {
      assert PageSize * (page - 1) >= PageSize * pages;
    }
  }

  /** The body of a successful `getProducts` response. */
  datatype ProductPage = ProductPage(products: seq<Product>, page: int, pages: nat, count: nat)

  /** The products satisfying the filter, in catalogue order. */
  function Matching(catalogue: seq<Product>, f: ProductFilter, nameMatches: (string, string) -> bool)
    : (r: seq<Product>)
    ensures forall i :: 0 <= i < |r| ==> r[i] in catalogue && Matches(r[i], f, nameMatches)
    ensures forall i :: 0 <= i < |catalogue| && Matches(catalogue[i], f, nameMatches) ==> catalogue[i] in r
  {
    Seqs.Filter(catalogue, p => Matches(p, f, nameMatches))
  }

  /** `getProducts` over a catalogue listed newest first: `None` is the
      500 the database raises for the negative skip of a page below 1. */
  function GetProducts(catalogue: seq<Product>, q: ProductQuery, nameMatches: (string, string) -> bool)
    : (r: Option<ProductPage>)
    ensures r.None? <==> PageNumber(q.page) < 1
    ensures r.Some? ==>
              && r.value.page == PageNumber(q.page)
              && r.value.count == |Matching(catalogue, BuildFilter(q), nameMatches)|
              && r.value.pages * PageSize >= r.value.count
              && |r.value.products| <= PageSize
              && (forall i :: 0 <= i < |r.value.products| ==>
                    r.value.products[i] in catalogue && Matches(r.value.products[i], BuildFilter(q), nameMatches))
    ensures r.Some? ==>
              && r.value.products == PageWindow(Matching(catalogue, BuildFilter(q), nameMatches), Skip(r.value.page))
              && r.value.pages == PageCount(r.value.count)
  {
    var page := PageNumber(q.page);
    if page < 1 then None
    else
      var matching := Matching(catalogue, BuildFilter(q), nameMatches);
      Some(ProductPage(PageWindow(matching, Skip(page)), page, PageCount(|matching|), |matching|))
  }

  /** Page 1 of a query with no parameters lists the newest twelve
      products of the whole catalogue. */
  lemma FirstPageIsNewest(catalogue: seq<Product>, nameMatches: (string, string) -> bool)
    ensures var r := GetProducts(catalogue, ProductQuery(None, None, None, None, None, None), nameMatches);
            r.Some? && r.value.count == |catalogue|
            && r.value.products == catalogue[..if |catalogue| < PageSize then |catalogue| else PageSize]
  {
    var f := BuildFilter(ProductQuery(None, None, None, None, None, None));
    forall p ensures Matches(p, f, nameMatches) {
      EmptyQueryMatchesAll(p, nameMatches);
    }
    Seqs.FilterAllKept(catalogue, p => Matches(p, f, nameMatches));
  }

  /** `Number(req.query.limit) || 8` for the featured and new listings. */
  function ListingLimit(limit: Option<int>): (r: int)
    ensures r != 0
    ensures limit.Some? && limit.value != 0 ==> r == limit.value
    ensures limit.None? || limit.value == 0 ==> r == 8
  {
    if limit.Some? && limit.value != 0 then limit.value else 8
  }

  /** The first `|limit|` products; the database reads a negative limit
      as its absolute value. */
  function Limited(s: seq<Product>, limit: int): (r: seq<Product>)
    ensures limit >= 0 ==> |r| == if |s| < limit then |s| else limit
    ensures limit < 0 ==> |r| == if |s| < -limit then |s| else -limit
    ensures r <= s
  {
    var n := if limit < 0 then -limit else limit;
    if |s| < n then s else s[..n]
  }

  predicate IsFeatured(p: Product) { p.isFeatured }

  predicate IsNew(p: Product) { p.isNew }

  /** How many products a listing with this `limit` query returns at most. */
  function LimitSize(limit: Option<int>): nat
  {
    var n := ListingLimit(limit);
    if n < 0 then -n else n
  }

  /** `getFeaturedProducts`: the newest featured products, at most the limit:
      the first `LimitSize(limit)` of the featured products, in catalogue order. */
  function FeaturedProducts(catalogue: seq<Product>, limit: Option<int>): (r: seq<Product>)
    ensures forall i :: 0 <= i < |r| ==> r[i] in catalogue && r[i].isFeatured
    ensures limit.None? ==> |r| <= 8
    ensures var featured := Seqs.Filter(catalogue, IsFeatured);
            r <= featured && |r| == if |featured| < LimitSize(limit) then |featured| else LimitSize(limit)
  {
    Limited(Seqs.Filter(catalogue, IsFeatured), ListingLimit(limit))
  }

  /** `getNewProducts`: the newest products marked new, at most the limit:
      the first `LimitSize(limit)` of the new products, in catalogue order. */
  function NewProducts(catalogue: seq<Product>, limit: Option<int>): (r: seq<Product>)
    ensures forall i :: 0 <= i < |r| ==> r[i] in catalogue && r[i].isNew
    ensures limit.None? ==> |r| <= 8
    ensures var marked := Seqs.Filter(catalogue, IsNew);
            r <= marked && |r| == if |marked| < LimitSize(limit) then |marked| else LimitSize(limit)
  {
    Limited(Seqs.Filter(catalogue, IsNew), ListingLimit(limit))
  }

  // ---------------------------------------------------------------------
  // createProduct and updateProduct

  /** The body of `POST /api/products`; `None` is an absent field. */
  datatype ProductInput = ProductInput(
    name: string, description: string, price: Option<int>,
    images: Option<seq<string>>, category: string,
    sizes: Option<seq<string>>, colors: Option<seq<string>>,
    countInStock: Option<int>, isNew: Option<bool>, isFeatured: Option<bool>,
    discount: Option<real>)

  /** The body of `PUT /api/products/:id`; `None` is an absent field. */
  datatype ProductUpdate = ProductUpdate(
    name: Option<string>, description: Option<string>, price: Option<int>,
    images: Option<seq<string>>, category: Option<string>,
    sizes: Option<seq<string>>, colors: Option<seq<string>>,
    countInStock: Option<int>, isNew: Option<bool>, isFeatured: Option<bool>,
    discount: Option<real>)

  /** The product `createProduct` builds, or `None` when the price is
      missing. Absent lists become `[]`, absent or zero numbers 0 and
      absent flags false. */
  function NewProduct(input: ProductInput): (r: Option<Product>)
    ensures r.Some? <==> input.price.Some?
    ensures r.Some? ==> r.value.reviews == [] && r.value.rating == 0.0 && r.value.numReviews == 0
    ensures r.Some? ==> r.value.name == input.name && r.value.description == input.description
                        && r.value.price == input.price.value && r.value.category == input.category
    ensures r.Some? && input.images.Some? ==> r.value.images == input.images.value
    ensures r.Some? && input.sizes.Some? ==> r.value.sizes == input.sizes.value
    ensures r.Some? && input.colors.Some? ==> r.value.colors == input.colors.value
    ensures r.Some? && input.countInStock.Some? ==> r.value.countInStock == input.countInStock.value
    ensures r.Some? && input.isNew.Some? ==> r.value.isNew == input.isNew.value
    ensures r.Some? && input.isFeatured.Some? ==> r.value.isFeatured == input.isFeatured.value
    ensures r.Some? && input.discount.Some? ==> r.value.discount == input.discount.value
    ensures r.Some? && input.images.None? ==> r.value.images == []
    ensures r.Some? && input.sizes.None? ==> r.value.sizes == []
    ensures r.Some? && input.colors.None? ==> r.value.colors == []
    ensures r.Some? && input.countInStock.None? ==> r.value.countInStock == 0
    ensures r.Some? && input.isNew.None? ==> !r.value.isNew
    ensures r.Some? && input.isFeatured.None? ==> !r.value.isFeatured
    ensures r.Some? && input.discount.None? ==> r.value.discount == 0.0
  {
    if input.price.None? then None
    else Some(WithSchemaDefaults(
      input.name, input.description, input.price.value,
      input.images.GetOr([]), input.category, input.sizes.GetOr([]), input.colors.GetOr([]),
      input.countInStock.GetOr(0), input.isNew.GetOr(false), input.isFeatured.GetOr(false),
      input.discount.GetOr(0.0)))
  }

  /** A product created with the required fields filled in, and every
      optional field left out, passes the schema. */
  lemma RequiredFieldsSuffice(input: ProductInput)
    requires input.name != "" && input.description != "" && input.category in Categories
    requires input.price.Some? && input.price.value >= 0
    requires input.images.None? && input.sizes.None? && input.colors.None?
    requires input.countInStock.None? && input.discount.None?
    ensures NewProduct(input).Some? && ProductModel.Valid(NewProduct(input).value)
  {
  }

  /** `x || old` for the price: an absent or zero price keeps the old value. */
  function OrPrice(x: Option<int>, current: int): int
  {
    if x.Some? && x.value != 0 then x.value else current
  }

  /** The field values `updateProduct` assigns. */
  function Merged(p: Product, u: ProductUpdate): (r: Product)
    ensures r.reviews == p.reviews && r.rating == p.rating && r.numReviews == p.numReviews
    ensures u == NoChange ==> r == p
  {
    p.(name := TextOr(u.name, p.name),
       description := TextOr(u.description, p.description),
       price := OrPrice(u.price, p.price),
       images := u.images.GetOr(p.images),
       category := TextOr(u.category, p.category),
       sizes := u.sizes.GetOr(p.sizes),
       colors := u.colors.GetOr(p.colors),
       countInStock := u.countInStock.GetOr(p.countInStock),
       isNew := u.isNew.GetOr(p.isNew),
       isFeatured := u.isFeatured.GetOr(p.isFeatured),
       discount := u.discount.GetOr(p.discount))
  }

  const NoChange: ProductUpdate :=
    ProductUpdate(None, None, None, None, None, None, None, None, None, None, None)

  /** An update naming no field changes nothing; applying an update twice
      is the same as once; reviews and ratings are never touched. */
  lemma MergedLaws(p: Product, u: ProductUpdate)
    ensures Merged(p, NoChange) == p
    ensures Merged(Merged(p, u), u) == Merged(p, u)
    ensures Merged(p, u).reviews == p.reviews
    ensures Merged(p, u).rating == p.rating && Merged(p, u).numReviews == p.numReviews
  {
  }

  /** The two kinds of merge: an update cannot set the price to 0 or a
      text field to "", while a stock, flag or discount of 0/false given
      explicitly is applied. */
  lemma MergedFalsyRules(p: Product, u: ProductUpdate)
    ensures Merged(p, u).price == 0 ==> p.price == 0
    ensures Merged(p, u).name == "" ==> p.name == ""
    ensures u.countInStock == Some(0) ==> Merged(p, u).countInStock == 0
    ensures u.isNew == Some(false) ==> !Merged(p, u).isNew
    ensures u.discount == Some(0.0) ==> Merged(p, u).discount == 0.0
    ensures u.price == Some(0) ==> Merged(p, u).price == p.price
  {
  }

  // ---------------------------------------------------------------------
  // Reviews

  predicate ReviewedBy(reviews: seq<Review>, user: UserId)
  {
    exists i :: 0 <= i < |reviews| && reviews[i].user == user
  }

  /** At most one review per user. */
  ghost predicate OneReviewPerUser(reviews: seq<Review>)
  {
    forall i, j :: 0 <= i < j < |reviews| ==> reviews[i].user != reviews[j].user
  }

  function RatingSum(reviews: seq<Review>): real
    decreases |reviews|
  {
    if reviews == [] then 0.0 else reviews[0].rating + RatingSum(reviews[1..])
  }

  /** `reviews.reduce((acc, item) => item.rating + acc, 0) / reviews.length`. */
  function AverageRating(reviews: seq<Review>): (r: real)
    requires |reviews| > 0
    ensures (forall i :: 0 <= i < |reviews| ==> 1.0 <= reviews[i].rating <= 5.0) ==> 1.0 <= r <= 5.0
  {
    if forall i :: 0 <= i < |reviews| ==> 1.0 <= reviews[i].rating <= 5.0 then
      RatingSumBounds(reviews);
      MeanBounds(RatingSum(reviews), |reviews| as real);
      RatingSum(reviews) / |reviews| as real
    else
      RatingSum(reviews) / |reviews| as real
  }

  lemma {:induction false} RatingSumBounds(reviews: seq<Review>)
    requires forall i :: 0 <= i < |reviews| ==> 1.0 <= reviews[i].rating <= 5.0
    ensures |reviews| as real <= RatingSum(reviews) <= 5.0 * |reviews| as real
    decreases |reviews|
  {
    if reviews != [] {
      RatingSumBounds(reviews[1..]);
    }
  }

  /** The average of ratings the schema admits is itself within [1, 5]. */
  lemma AverageRatingInRange(reviews: seq<Review>)
    requires |reviews| > 0
    requires forall i :: 0 <= i < |reviews| ==> ValidReview(reviews[i])
    ensures 1.0 <= AverageRating(reviews) <= 5.0
  {
    RatingSumBounds(reviews);
    MeanBounds(RatingSum(reviews), |reviews| as real);
  }

  /** A sum of `n` values each in [1, 5] has its mean in [1, 5]. */
  lemma MeanBounds(sum: real, n: real)
    requires n > 0.0 && n <= sum <= 5.0 * n
    ensures 1.0 <= sum / n <= 5.0
  {
    var q := sum / n;
    assert q * n == sum;
    assert (q - 1.0) * n == sum - n;
    assert (5.0 - q) * n == 5.0 * n - sum;
  }

  /** A new review from a user who has none keeps one review per user. */
  lemma AppendKeepsOneReviewPerUser(reviews: seq<Review>, r: Review)
    requires OneReviewPerUser(reviews) && !ReviewedBy(reviews, r.user)
    ensures OneReviewPerUser(reviews + [r])
  {
    var s := reviews + [r];
    forall i, j | 0 <= i < j < |s| ensures s[i].user != s[j].user {
      if j == |reviews| {
        assert s[i] == reviews[i];
      } else {
        assert s[i] == reviews[i] && s[j] == reviews[j];
      }
    }
  }

  // ---------------------------------------------------------------------
  // Documents

  /** A product document; the controllers assign its fields in place and
      `save()` validates it against the schema. */
  class ProductDocument {
    var name: string
    var description: string
    var price: int
    var images: seq<string>
    var category: string
    var sizes: seq<string>
    var colors: seq<string>
    var countInStock: int
    var reviews: seq<Review>
    var rating: real
    var numReviews: int
    var isNew: bool
    var isFeatured: bool
    var discount: real

    function Value(): Product
      reads this
    {
      Product(name, description, price, images, category, sizes, colors, countInStock,
              reviews, rating, numReviews, isNew, isFeatured, discount)
    }

    /** What every stored product satisfies: the schema, and one review
        per user. */
    ghost predicate Stored()
      reads this
    {
      ProductModel.Valid(Value()) && OneReviewPerUser(reviews)
    }

    constructor(p: Product)
      ensures Value() == p
    {
      name, description, price, images := p.name, p.description, p.price, p.images;
      category, sizes, colors, countInStock := p.category, p.sizes, p.colors, p.countInStock;
      reviews, rating, numReviews := p.reviews, p.rating, p.numReviews;
      isNew, isFeatured, discount := p.isNew, p.isFeatured, p.discount;
    }

    /** Assigns every schema field of the document. */
    method Assign(p: Product)
      modifies this
      ensures name == p.name && description == p.description && price == p.price && images == p.images
      ensures category == p.category && sizes == p.sizes && colors == p.colors && countInStock == p.countInStock
      ensures reviews == p.reviews && rating == p.rating && numReviews == p.numReviews
      ensures isNew == p.isNew && isFeatured == p.isFeatured && discount == p.discount
    {
      name := p.name;
      description := p.description;
      price := p.price;
      images := p.images;
      category := p.category;
      sizes := p.sizes;
      colors := p.colors;
      countInStock := p.countInStock;
      reviews := p.reviews;
      rating := p.rating;
      numReviews := p.numReviews;
      isNew := p.isNew;
      isFeatured := p.isFeatured;
      discount := p.discount;
    }

    /** The assignments of `updateProduct` followed by `save()`: when the
        merged document breaks the schema the save fails (500) and the
        stored document is left as it was. */
    method Update(u: ProductUpdate) returns (status: Status)
      requires Stored()
      modifies this
      ensures Stored()
      ensures ProductModel.Valid(Merged(old(Value()), u)) ==> status == Ok && Value() == Merged(old(Value()), u)
      ensures !ProductModel.Valid(Merged(old(Value()), u)) ==> status == ServerError && unchanged(this)
    {
      var merged := Merged(Value(), u);
      if !ProductModel.Valid(merged) {
        return ServerError;
      }
      Assign(merged);
      status := Ok;
    }

    /** The body of `createProductReview` once the product is found: 400
        when the user already reviewed it; otherwise the review is
        appended, `numReviews` set to the review count and `rating` to the
        mean, unless the review breaks the schema and the save fails. */
    method AddReview(user: UserId, userName: string, rating': real, comment: string) returns (status: Status)
      requires Stored()
      modifies this
      ensures Stored()
      ensures ReviewedBy(old(reviews), user) ==> status == BadRequest && unchanged(this)
      ensures !ReviewedBy(old(reviews), user) && !ValidReview(Review(user, userName, rating', comment)) ==>
                status == ServerError && unchanged(this)
      ensures !ReviewedBy(old(reviews), user) && ValidReview(Review(user, userName, rating', comment)) ==>
                && status == Created
                && reviews == old(reviews) + [Review(user, userName, rating', comment)]
                && numReviews == |reviews|
                && rating == AverageRating(reviews)
                && 1.0 <= rating <= 5.0
                && Value() == old(Value()).(reviews := reviews, numReviews := numReviews, rating := rating)
    {
      if ReviewedBy(reviews, user) {
        return BadRequest;
      }
      var review := Review(user, userName, rating', comment);
      if !ValidReview(review) {
        return ServerError;
      }
      AppendKeepsOneReviewPerUser(reviews, review);
      reviews := reviews + [review];
      numReviews := |reviews|;
      AverageRatingInRange(reviews);
      rating := AverageRating(reviews);
      status := Created;
    }
  }

  /** The product collection: `Product.findById` is a lookup in `docs`. */
  class ProductStore {
    var docs: map<ProductId, ProductDocument>

    ghost predicate Valid()
      reads this, docs.Values
    {
      && (forall id :: id in docs ==> docs[id].Stored())
      && (forall a, b :: a in docs && b in docs && a != b ==> docs[a] != docs[b])
    }

    /** `createProduct`: 201 with the new document, or 500 when the built
        product fails the schema. `id` is the `_id` the database assigns. */
    method CreateProduct(id: ProductId, input: ProductInput) returns (status: Status)
      requires Valid() && id !in docs
      modifies this
      ensures Valid()
      ensures var p := NewProduct(input);
              if p.Some? && ProductModel.Valid(p.value)
              then status == Created && id in docs && fresh(docs[id]) && docs[id].Value() == p.value
                   && docs == old(docs)[id := docs[id]]
              else status == ServerError && docs == old(docs)
    {
      var p := NewProduct(input);
      if p.None? || !ProductModel.Valid(p.value) {
        return ServerError;
      }
      var doc := new ProductDocument(p.value);
      docs := docs[id := doc];
      status := Created;
    }

    /** `updateProduct`: 404 for a missing product. */
    method UpdateProduct(id: ProductId, u: ProductUpdate) returns (status: Status)
      requires Valid()
      modifies if id in docs then {docs[id]} else {}
      ensures Valid()
      ensures id !in docs ==> status == NotFound
      ensures id in docs && ProductModel.Valid(Merged(old(docs[id].Value()), u)) ==>
                status == Ok && docs[id].Value() == Merged(old(docs[id].Value()), u)
      ensures id in docs && !ProductModel.Valid(Merged(old(docs[id].Value()), u)) ==>
                status == ServerError && unchanged(docs[id])
      ensures forall other :: other in docs && other != id ==> docs[other].Value() == old(docs[other].Value())
    {
      if id !in docs {
        return NotFound;
      }
      status := docs[id].Update(u);
    }

    /** `getProductById`: the stored product, or 404. */
    method GetProductById(id: ProductId) returns (status: Status, product: Option<Product>)
      requires Valid()
      ensures id in docs ==> status == Ok && product == Some(docs[id].Value())
      ensures id !in docs ==> status == NotFound && product == None
      ensures product.Some? ==> ProductModel.Valid(product.value)
    {
      if id !in docs {
        return NotFound, None;
      }
      return Ok, Some(docs[id].Value());
    }

    /** `deleteProduct`: 404 for a missing product, otherwise it is removed. */
    method DeleteProduct(id: ProductId) returns (status: Status)
      requires Valid()
      modifies this
      ensures Valid()
      ensures id !in old(docs) ==> status == NotFound && docs == old(docs)
      ensures id in old(docs) ==> status == Ok && docs == old(docs) - {id}
    {
      if id !in docs {
        return NotFound;
      }
      docs := docs - {id};
      status := Ok;
    }

    /** `createProductReview`: 404 for a missing product. */
    method CreateProductReview(id: ProductId, user: UserId, userName: string, rating: real, comment: string)
      returns (status: Status)
      requires Valid()
      modifies if id in docs then {docs[id]} else {}
      ensures Valid()
      ensures id !in docs ==> status == NotFound
      ensures id in docs && ReviewedBy(old(docs[id].reviews), user) ==>
                status == BadRequest && unchanged(docs[id])
      ensures id in docs && !ReviewedBy(old(docs[id].reviews), user)
                && !ValidReview(Review(user, userName, rating, comment)) ==>
                status == ServerError && unchanged(docs[id])
      ensures id in docs && !ReviewedBy(old(docs[id].reviews), user)
                && ValidReview(Review(user, userName, rating, comment)) ==>
                && status == Created
                && docs[id].reviews == old(docs[id].reviews) + [Review(user, userName, rating, comment)]
                && docs[id].numReviews == |docs[id].reviews|
                && docs[id].rating == AverageRating(docs[id].reviews)
                && 1.0 <= docs[id].rating <= 5.0
                && docs[id].Value() == old(docs[id].Value()).(reviews := docs[id].reviews,
                     numReviews := docs[id].numReviews, rating := docs[id].rating)
      ensures forall other :: other in docs && other != id ==> docs[other].Value() == old(docs[other].Value())
    {
      if id !in docs {
        return NotFound;
      }
      status := docs[id].AddReview(user, userName, rating, comment);
    }
  }
}
