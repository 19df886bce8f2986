/** The cart page (Cart.tsx): the buttons on each line and the order summary. */
module CartPage {
  import opened Wrappers
  import opened CartContext

  /** `updateQuantity`: below 1 nothing is dispatched. */
  function UpdateQuantityAction(id: string, newQuantity: int, size: string, color: string): (a: Option<CartAction>)
    ensures a.None? <==> newQuantity < 1
    ensures a.Some? ==> a.value.UpdateQuantity? && a.value.quantity == newQuantity
                        && a.value.id == id && a.value.size == size && a.value.color == color
  {
    if newQuantity < 1 then None else Some(UpdateQuantity(id, newQuantity, size, color))
  }

  /** The minus button of a line. */
  function MinusAction(item: CartItem): (a: Option<CartAction>)
    ensures a.None? <==> item.quantity <= 1
    ensures a.Some? ==> a.value == UpdateQuantity(item.id, item.quantity - 1, item.size, item.color)
  {
    UpdateQuantityAction(item.id, item.quantity - 1, item.size, item.color)
  }

  /** The plus button of a line. */
  function PlusAction(item: CartItem): (a: Option<CartAction>)
    ensures item.quantity >= 0 ==> a == Some(UpdateQuantity(item.id, item.quantity + 1, item.size, item.color))
  {
    UpdateQuantityAction(item.id, item.quantity + 1, item.size, item.color)
  }

  /** The bin button of a line: `removeItem` with the line's key. */
  function RemoveAction(item: CartItem): (a: CartAction)
    ensures a.RemoveItem? && Key(a.id, a.size, a.color) == KeyOf(item)
  {
    RemoveItem(item.id, item.size, item.color)
  }

  /** What the reducer makes of an optional dispatch. */
  function Dispatch(state: CartState, a: Option<CartAction>): CartState
  {
    match a
    case None => state
    case Some(action) => Reduce(state, action)
  }

  function Subtotal(state: CartState): (r: int)
    ensures state.total == Sum(state.items) ==> r == Sum(state.items)
  {
    state.total
  }

  /** Flat shipping of 99 rupees on a non-empty cart. */
  function Shipping(state: CartState): (r: int)
    ensures r == 99 <==> |state.items| > 0
    ensures r == 0 <==> |state.items| == 0
  {
    if |state.items| > 0 then 99 else 0
  }

  /** 18% GST on the subtotal. */
  function Tax(subtotal: int): (r: real)
    ensures subtotal >= 0 ==> 0.0 <= r <= subtotal as real
    ensures subtotal == 0 ==> r == 0.0
  {
    subtotal as real * 0.18
  }

  function GrandTotal(state: CartState): (r: real)
    ensures state.total >= 0 ==> r >= state.total as real + Shipping(state) as real
    ensures state.items == [] && state.total == 0 ==> r == 0.0
  {
    Subtotal(state) as real + Shipping(state) as real + Tax(Subtotal(state))
  }

  // ---------------------------------------------------------------------
  // Lemmas

  /** Minus on a line at quantity 1 (or below) leaves the cart unchanged. */
  lemma MinusAtOneIsNoop(state: CartState, item: CartItem)
    requires item.quantity <= 1
    ensures Dispatch(state, MinusAction(item)) == state
  {
  }

  /** Minus on a line above 1 lowers exactly that line by one. */
  lemma MinusDecrements(state: CartState, i: nat)
    requires UniqueKeys(state.items) && i < |state.items|
    requires state.items[i].quantity > 1
    ensures var item := state.items[i];
            Dispatch(state, MinusAction(item)).items
              == state.items[i := item.(quantity := item.quantity - 1)]
  {
    FirstMatchIsIndex(state.items, i);
    var item := state.items[i];
    UpdateQuantitySets(state, item.id, item.quantity - 1, item.size, item.color);
  }

  /** Plus raises exactly that line by one and `total` by its price. */
  lemma PlusIncrements(state: CartState, i: nat)
    requires UniqueKeys(state.items) && i < |state.items|
    requires state.items[i].quantity >= 0
    ensures var item := state.items[i];
            var r := Dispatch(state, PlusAction(item));
            && r.items == state.items[i := item.(quantity := item.quantity + 1)]
            && r.total == state.total + item.price
  {
    FirstMatchIsIndex(state.items, i);
    var item := state.items[i];
    UpdateQuantitySets(state, item.id, item.quantity + 1, item.size, item.color);
  }

  /** The bin button drops exactly that line and keeps the rest in order. */
  lemma RemoveButtonDrops(state: CartState, i: nat)
    requires UniqueKeys(state.items) && i < |state.items|
    ensures Reduce(state, RemoveAction(state.items[i])).items
              == state.items[..i] + state.items[i + 1..]
  {
    FirstMatchIsIndex(state.items, i);
    var item := state.items[i];
    RemoveItemDrops(state, item.id, item.size, item.color);
  }

  /** On a cart whose `total` is exact, the amount shown is 1.18 times the
      sum of the lines plus 99 for a non-empty cart; an empty cart costs 0. */
  lemma GrandTotalOfExactCart(state: CartState)
    requires state.total == Sum(state.items)
    ensures GrandTotal(state)
              == Sum(state.items) as real * 1.18 + (if |state.items| > 0 then 99.0 else 0.0)
    ensures state.items == [] ==> GrandTotal(state) == 0.0
  {
  }
}
