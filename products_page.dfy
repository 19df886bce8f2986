/** The catalogue page (Products.tsx): search, category and price-range
    filters over the product list, and the quick "add to cart" button. */
module ProductsPage {
  import Text
  import Seqs
  import opened CartContext

  datatype ListedProduct = ListedProduct(
    id: string, name: string, price: int, category: string, image: string)

  /** The four price ranges besides "all". */
  const PriceBuckets: seq<string> := ["under-1000", "1000-2000", "2000-5000", "over-5000"]

  predicate MatchesSearch(p: ListedProduct, query: string)
  {
    Text.Includes(Text.Lower(p.name), Text.Lower(query))
  }

  predicate MatchesCategory(p: ListedProduct, category: string)
  {
    category == "all" || p.category == category
  }

  predicate InPriceRange(price: int, range: string)
  {
    || range == "all"
    || (range == "under-1000" && price < 1000)
    || (range == "1000-2000" && 1000 <= price <= 2000)
    || (range == "2000-5000" && 2000 < price <= 5000)
    || (range == "over-5000" && price > 5000)
  }

  predicate Keep(p: ListedProduct, query: string, category: string, range: string)
  {
    MatchesSearch(p, query) && MatchesCategory(p, category) && InPriceRange(p.price, range)
  }

  /** `filteredProducts`: exactly the products passing all three tests. */
  function FilteredProducts(products: seq<ListedProduct>, query: string, category: string, range: string)
    : (r: seq<ListedProduct>)
    ensures forall i :: 0 <= i < |r| ==> r[i] in products && Keep(r[i], query, category, range)
    ensures forall i :: 0 <= i < |products| && Keep(products[i], query, category, range) ==> products[i] in r
    ensures forall p :: multiset(r)[p] == if Keep(p, query, category, range) then multiset(products)[p] else 0
  {
    Seqs.FilterCounts(products, p => Keep(p, query, category, range));
    Seqs.Filter(products, p => Keep(p, query, category, range))
  }

  /** The quick-add button on a product card. */
  function QuickAddAction(p: ListedProduct): (a: CartAction)
    ensures a.AddItem? && a.payload.id == p.id && a.payload.price == p.price && a.payload.quantity == 1
  {
    AddItem(CartItem(p.id, p.name, p.price, p.image, 1, "M", "Default"))
  }

  // ---------------------------------------------------------------------
  // Lemmas

  /** The filtered list keeps the catalogue's order. */
  lemma FilteredProductsInOrder(products: seq<ListedProduct>, query: string, category: string, range: string)
    ensures Seqs.SubsequenceOf(FilteredProducts(products, query, category, range), products)
  {
    Seqs.FilterIsSubsequence(products, p => Keep(p, query, category, range));
  }

  /** With no search text and both selects on "all", every product shows. */
  lemma NoFilterKeepsAll(products: seq<ListedProduct>)
    ensures FilteredProducts(products, "", "all", "all") == products
  {
    forall i | 0 <= i < |products| ensures Keep(products[i], "", "all", "all") {
      Text.EmptyIsIncluded(Text.Lower(products[i].name));
    }
    Seqs.FilterAllKept(products, p => Keep(p, "", "all", "all"));
  }

  /** Every price falls in exactly one of the four ranges. */
  lemma PriceBucketsPartition(price: int)
    ensures exists b :: b in PriceBuckets && InPriceRange(price, b)
    ensures forall b1, b2 ::
              (b1 in PriceBuckets && b2 in PriceBuckets && InPriceRange(price, b1) && InPriceRange(price, b2))
              ==> b1 == b2
  {
    if price < 1000 {
      assert InPriceRange(price, PriceBuckets[0]);
    } else if price <= 2000 {
      assert InPriceRange(price, PriceBuckets[1]);
    } else if price <= 5000 {
      assert InPriceRange(price, PriceBuckets[2]);
    } else {
      assert InPriceRange(price, PriceBuckets[3]);
    }
  }
}
