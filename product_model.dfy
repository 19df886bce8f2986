/** The product schema (productModel.js): its fields, the constraints a
    document must meet to be saved, and the `discountedPrice` virtual. */
module ProductModel {

  type UserId = string

  datatype Review = Review(user: UserId, name: string, rating: real, comment: string)

  datatype Product = Product(
    name: string,
    description: string,
    price: int,
    images: seq<string>,
    category: string,
    sizes: seq<string>,
    colors: seq<string>,
    countInStock: int,
    reviews: seq<Review>,
    rating: real,
    numReviews: int,
    isNew: bool,
    isFeatured: bool,
    discount: real)

  const Categories: set<string> := {"Dresses", "Tops", "Bottoms", "Accessories", "Combos"}

  const Sizes: set<string> := {"XS", "S", "M", "L", "XL", "XXL", "One Size"}

  /** The review sub-schema: every string required, rating within [1, 5]. */
  predicate ValidReview(r: Review)
  {
    r.name != "" && r.comment != "" && 1.0 <= r.rating <= 5.0
  }

  /** The constraints Mongoose checks before a product is saved. */
  predicate Valid(p: Product)
  {
    && p.name != ""
    && p.description != ""
    && p.price >= 0
    && (forall i :: 0 <= i < |p.images| ==> p.images[i] != "")
    && p.category in Categories
    && (forall i :: 0 <= i < |p.sizes| ==> p.sizes[i] in Sizes)
    && p.countInStock >= 0
    && (forall i :: 0 <= i < |p.reviews| ==> ValidReview(p.reviews[i]))
    && 0.0 <= p.discount <= 100.0
  }

  /** A product as the schema builds it from the given fields: no
      reviews, and rating and review count at their default 0. */
  function WithSchemaDefaults(name: string, description: string, price: int, images: seq<string>,
                              category: string, sizes: seq<string>, colors: seq<string>,
                              countInStock: int, isNew: bool, isFeatured: bool, discount: real): Product
  {
    Product(name, description, price, images, category, sizes, colors, countInStock,
            [], 0.0, 0, isNew, isFeatured, discount)
  }

  /** `discountedPrice = price * (1 - discount / 100)`. */
  function DiscountedPrice(p: Product): (r: real)
    ensures Valid(p) ==> 0.0 <= r <= p.price as real
    ensures p.discount == 0.0 ==> r == p.price as real
    ensures Valid(p) && p.discount == 100.0 ==> r == 0.0
  {
    var factor := 1.0 - p.discount / 100.0;
    assert Valid(p) ==> 0.0 <= p.price as real * factor <= p.price as real by {
      if Valid(p) {
        ScaleBounds(p.price as real, factor);
      }
    }
    p.price as real * factor
  }

  /** Scaling a non-negative amount by a factor in [0, 1]. */
  lemma ScaleBounds(x: real, f: real)
    requires x >= 0.0 && 0.0 <= f <= 1.0
    ensures 0.0 <= x * f <= x
  {
    assert x * f + x * (1.0 - f) == x;
    assert x * (1.0 - f) >= 0.0;
  }

  /** A larger discount never gives a higher price. */
  lemma DiscountIsMonotone(p: Product, d1: real, d2: real)
    requires p.price >= 0 && d1 <= d2
    ensures DiscountedPrice(p.(discount := d2)) <= DiscountedPrice(p.(discount := d1))
  {
    var f1, f2 := 1.0 - d1 / 100.0, 1.0 - d2 / 100.0;
    assert DiscountedPrice(p.(discount := d1)) == p.price as real * f1;
    assert DiscountedPrice(p.(discount := d2)) == p.price as real * f2;
    assert p.price as real * (f1 - f2) >= 0.0;
  }
}
