/** The client cart as the storefront pages drive it. The reducer alone
    keeps `total` exact only under a side condition; the pages supply it:
    every ADD_ITEM carries the catalogue price of its product and a
    quantity of at least 1, and the cart page never dispatches a quantity
    below 1. Under those rules the cart stays well formed forever. */
module CartSession {
  import opened Wrappers
  import Seqs
  import opened CartContext
  import CartPage
  import ProductsPage
  import ProductDetailsPage

  /** The state the client cart keeps between actions, for a catalogue
      that prices the variant `key` (product id, size, colour) at
      `priceOf(key)`. Keying by the whole variant lets one product id be
      sold at different prices in different sizes or colours. */
  ghost predicate WellFormed(state: CartState, priceOf: Key -> int)
  {
    && UniqueKeys(state.items)
    && state.total == Sum(state.items)
    && (forall i :: 0 <= i < |state.items| ==> state.items[i].quantity >= 1)
    && (forall i :: 0 <= i < |state.items| ==> state.items[i].price == priceOf(KeyOf(state.items[i])))
  }

  /** The actions the pages can dispatch. */
  ghost predicate PageAction(action: CartAction, priceOf: Key -> int)
  {
    match action
    case AddItem(p) => p.quantity >= 1 && p.price == priceOf(KeyOf(p))
    case UpdateQuantity(_, q, _, _) => q >= 1
    case RemoveItem(_, _, _) => true
    case ClearCart => true
  }

  lemma InitialStateWellFormed(priceOf: Key -> int)
    ensures WellFormed(InitialState, priceOf)
  {
  }

  /** Every page action takes a well-formed cart to a well-formed cart. */
  lemma PageActionKeepsWellFormed(state: CartState, action: CartAction, priceOf: Key -> int)
    requires WellFormed(state, priceOf)
    requires PageAction(action, priceOf)
    ensures WellFormed(Reduce(state, action), priceOf)
  {
    ReduceKeepsUniqueKeys(state, action);
    ReduceKeepsTotal(state, action);
    var s := state.items;
    var r := Reduce(state, action).items;
    match action
    case AddItem(p) =>
      if FirstMatch(s, KeyOf(p)).Some? {
        AddItemMerges(state, p);
      }
    case RemoveItem(id, size, color) =>
      forall i | 0 <= i < |r| ensures r[i].quantity >= 1 && r[i].price == priceOf(KeyOf(r[i])) {
        if FirstMatch(s, Key(id, size, color)).Some? {
          assert r[i] in s;
        }
      }
    case UpdateQuantity(id, q, size, color) =>
      if FirstMatch(s, Key(id, size, color)).Some? {
        UpdateQuantitySets(state, id, q, size, color);
      }
    case ClearCart =>
  }

  /** The cart page's buttons only dispatch page actions. */
  lemma CartButtonsArePageActions(item: CartItem, priceOf: Key -> int)
    ensures CartPage.MinusAction(item).Some? ==> PageAction(CartPage.MinusAction(item).value, priceOf)
    ensures CartPage.PlusAction(item).Some? ==> PageAction(CartPage.PlusAction(item).value, priceOf)
    ensures PageAction(CartPage.RemoveAction(item), priceOf)
  {
  }

  /** The quick-add button is a page action when the card shows the
      catalogue price of the variant it adds (size M, colour Default). */
  lemma QuickAddIsPageAction(p: ProductsPage.ListedProduct, priceOf: Key -> int)
    requires p.price == priceOf(Key(p.id, "M", "Default"))
    ensures PageAction(ProductsPage.QuickAddAction(p), priceOf)
  {
  }

  /** The product page's "Add to Cart" (the payload `AddToCart` returns,
      whose quantity the stepper keeps at 1 or more) is a page action when
      the shown price is the catalogue price of the selected variant. */
  lemma DetailsAddIsPageAction(image: string, quantity: int, size: string, color: string,
                               priceOf: Key -> int)
    requires quantity >= 1
    requires priceOf(Key(ProductDetailsPage.MockProduct.id, size, color)) == ProductDetailsPage.MockProduct.price
    ensures PageAction(AddItem(CartItem(
              ProductDetailsPage.MockProduct.id, ProductDetailsPage.MockProduct.name,
              ProductDetailsPage.MockProduct.price, image, quantity, size, color)), priceOf)
  {
  }

  /** Any run of page actions from the empty cart ends well formed. */
  lemma {:induction false} RunKeepsWellFormed(state: CartState, actions: seq<CartAction>, priceOf: Key -> int)
    requires WellFormed(state, priceOf)
    requires forall i :: 0 <= i < |actions| ==> PageAction(actions[i], priceOf)
    ensures WellFormed(Run(state, actions), priceOf)
    decreases |actions|
  {
    if actions != [] {
      PageActionKeepsWellFormed(state, actions[0], priceOf);
      RunKeepsWellFormed(Reduce(state, actions[0]), actions[1..], priceOf);
    }
  }

  /** The reducer applied to a sequence of dispatches, first to last. */
  function Run(state: CartState, actions: seq<CartAction>): CartState
    decreases |actions|
  {
    if actions == [] then state else Run(Reduce(state, actions[0]), actions[1..])
  }
}
