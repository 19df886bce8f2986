/** The browser-side cart: `cartReducer` in CartContext.tsx. Every action
    builds a new `CartState`; `total` is patched by the change each action
    makes, never recomputed from the lines. */
module CartContext {
  import opened Wrappers
  import Seqs

  /** One cart line; `price` is in whole rupees. */
  datatype CartItem = CartItem(
    id: string, name: string, price: int, image: string,
    quantity: int, size: string, color: string)

  datatype CartState = CartState(items: seq<CartItem>, total: int)

  /** The identity of a line: the product id, the size and the colour. */
  datatype Key = Key(id: string, size: string, color: string)

  datatype CartAction =
    | AddItem(payload: CartItem)
    | RemoveItem(id: string, size: string, color: string)
    | UpdateQuantity(id: string, quantity: int, size: string, color: string)
    | ClearCart

  const InitialState: CartState := CartState([], 0)

  function KeyOf(item: CartItem): Key
  {
    Key(item.id, item.size, item.color)
  }

  function LineTotal(item: CartItem): int
  {
    item.price * item.quantity
  }

  /** Σ price*quantity over the lines: the value `total` stands for. */
  function Sum(items: seq<CartItem>): int
  {
    Seqs.SumOf(items, LineTotal)
  }

  ghost predicate UniqueKeys(items: seq<CartItem>)
  {
    Seqs.InjectiveOn(items, KeyOf)
  }

  /** `items.find(...)` on the key, given as the index of the first match. */
  function FirstMatch(items: seq<CartItem>, k: Key): (r: Option<nat>)
    ensures r.None? <==> forall i :: 0 <= i < |items| ==> KeyOf(items[i]) != k
    ensures r.Some? ==> r.value < |items| && KeyOf(items[r.value]) == k
    ensures r.Some? ==> forall j :: 0 <= j < r.value ==> KeyOf(items[j]) != k
    decreases |items|
  {
    if items == [] then None
    else if KeyOf(items[0]) == k then Some(0)
    else match FirstMatch(items[1..], k)
      case None => None
      case Some(i) => Some(i + 1)
  }

  /** The `map` of ADD_ITEM: every line with key `k` gains `delta`. */
  function AddToMatching(items: seq<CartItem>, k: Key, delta: int): seq<CartItem>
  {
    seq(|items|, i requires 0 <= i < |items| =>
      if KeyOf(items[i]) == k then items[i].(quantity := items[i].quantity + delta) else items[i])
  }

  /** The `map` of UPDATE_QUANTITY: every line with key `k` gets quantity `q`. */
  function SetMatching(items: seq<CartItem>, k: Key, q: int): seq<CartItem>
  {
    seq(|items|, i requires 0 <= i < |items| =>
      if KeyOf(items[i]) == k then items[i].(quantity := q) else items[i])
  }

  /** The `filter` of REMOVE_ITEM. */
  function WithoutKey(items: seq<CartItem>, k: Key): seq<CartItem>
  {
    Seqs.Filter(items, (item: CartItem) => KeyOf(item) != k)
  }

  /** `cartReducer`, without the write to local storage. */
  function Reduce(state: CartState, action: CartAction): (r: CartState)
    ensures action.AddItem? ==> |state.items| <= |r.items| <= |state.items| + 1
    ensures action.RemoveItem? ==> |r.items| <= |state.items|
    ensures action.UpdateQuantity? ==> |r.items| == |state.items|
    ensures action.ClearCart? ==> r.items == [] && r.total == 0
  {
    match action
    case AddItem(p) =>
      var items :=
        if FirstMatch(state.items, KeyOf(p)).Some?
        then AddToMatching(state.items, KeyOf(p), p.quantity)
        else state.items + [p];
      CartState(items, state.total + p.price * p.quantity)
    case RemoveItem(id, size, color) =>
      var k := Key(id, size, color);
      (match FirstMatch(state.items, k)
       case None => state
       case Some(i) => CartState(WithoutKey(state.items, k), state.total - LineTotal(state.items[i])))
    case UpdateQuantity(id, q, size, color) =>
      var k := Key(id, size, color);
      (match FirstMatch(state.items, k)
       case None => state
       case Some(i) =>
         CartState(SetMatching(state.items, k, q),
                   state.total + state.items[i].price * (q - state.items[i].quantity)))
    case ClearCart => InitialState
  }

  // ---------------------------------------------------------------------
  // Lemmas

  /** With unique keys, the first match is the only one. */
  lemma OnlyMatch(items: seq<CartItem>, i: nat, k: Key)
    requires UniqueKeys(items)
    requires i < |items| && KeyOf(items[i]) == k
    ensures forall j :: 0 <= j < |items| && j != i ==> KeyOf(items[j]) != k
  {
    forall j | 0 <= j < |items| && j != i ensures KeyOf(items[j]) != k {
      if j < i {
        assert KeyOf(items[j]) != KeyOf(items[i]);
      } else {
        assert KeyOf(items[i]) != KeyOf(items[j]);
      }
    }
  }

  /** With unique keys, `find` on a line's own key returns that line. */
  lemma FirstMatchIsIndex(items: seq<CartItem>, i: nat)
    requires UniqueKeys(items)
    requires i < |items|
    ensures FirstMatch(items, KeyOf(items[i])) == Some(i)
  {
    OnlyMatch(items, i, KeyOf(items[i]));
  }

  /** ADD_ITEM of a key already present keeps the number of lines and
      raises only that line's quantity, by the payload's quantity. */
  lemma AddItemMerges(state: CartState, p: CartItem)
    requires UniqueKeys(state.items)
    requires FirstMatch(state.items, KeyOf(p)).Some?
    ensures var i := FirstMatch(state.items, KeyOf(p)).value;
            var r := Reduce(state, AddItem(p));
            && |r.items| == |state.items|
            && r.items == state.items[i := state.items[i].(quantity := state.items[i].quantity + p.quantity)]
            && r.total == state.total + p.price * p.quantity
  {
    var i := FirstMatch(state.items, KeyOf(p)).value;
    OnlyMatch(state.items, i, KeyOf(p));
  }

  /** ADD_ITEM of a new key appends the payload as the last line. */
  lemma AddItemAppends(state: CartState, p: CartItem)
    requires forall i :: 0 <= i < |state.items| ==> KeyOf(state.items[i]) != KeyOf(p)
    ensures var r := Reduce(state, AddItem(p));
            && r.items == state.items + [p]
            && r.items[..|state.items|] == state.items
            && r.total == state.total + p.price * p.quantity
  {
  }

  /** REMOVE_ITEM of a present key drops exactly that line, keeps the
      others in order and takes the line's price*quantity off `total`. */
  lemma RemoveItemDrops(state: CartState, id: string, size: string, color: string)
    requires UniqueKeys(state.items)
    requires FirstMatch(state.items, Key(id, size, color)).Some?
    ensures var i := FirstMatch(state.items, Key(id, size, color)).value;
            var r := Reduce(state, RemoveItem(id, size, color));
            && r.items == state.items[..i] + state.items[i + 1..]
            && r.total == state.total - state.items[i].price * state.items[i].quantity
  {
    var k := Key(id, size, color);
    var i := FirstMatch(state.items, k).value;
    OnlyMatch(state.items, i, k);
    Seqs.FilterDropsOne(state.items, i, (item: CartItem) => KeyOf(item) != k);
  }

  /** UPDATE_QUANTITY of a present key sets only that line's quantity, to
      any value at all (zero and negative included), and moves `total` by
      price*(new - old). */
  lemma UpdateQuantitySets(state: CartState, id: string, q: int, size: string, color: string)
    requires UniqueKeys(state.items)
    requires FirstMatch(state.items, Key(id, size, color)).Some?
    ensures var i := FirstMatch(state.items, Key(id, size, color)).value;
            var r := Reduce(state, UpdateQuantity(id, q, size, color));
            && r.items == state.items[i := state.items[i].(quantity := q)]
            && r.items[i].quantity == q
            && r.total == state.total + state.items[i].price * (q - state.items[i].quantity)
  {
    var i := FirstMatch(state.items, Key(id, size, color)).value;
    OnlyMatch(state.items, i, Key(id, size, color));
  }

  /** REMOVE_ITEM and UPDATE_QUANTITY of a key not in the cart return the
      state unchanged. */
  lemma AbsentKeyIsNoop(state: CartState, action: CartAction)
    requires action.RemoveItem? || action.UpdateQuantity?
    requires forall i :: 0 <= i < |state.items| ==>
               KeyOf(state.items[i]) != Key(action.id, action.size, action.color)
    ensures Reduce(state, action) == state
  {
  }

  /** CLEAR_CART empties the cart from any state. */
  lemma ClearCartResets(state: CartState)
    ensures Reduce(state, ClearCart) == CartState([], 0)
  {
  }

  /** No action introduces two lines with the same key. */
  lemma ReduceKeepsUniqueKeys(state: CartState, action: CartAction)
    requires UniqueKeys(state.items)
    ensures UniqueKeys(Reduce(state, action).items)
  {
    var s := state.items;
    var r := Reduce(state, action).items;
    match action
    case AddItem(p) =>
      if FirstMatch(s, KeyOf(p)).Some? {
        assert forall i :: 0 <= i < |r| ==> KeyOf(r[i]) == KeyOf(s[i]);
      } else {
        forall i, j | 0 <= i < j < |r| ensures KeyOf(r[i]) != KeyOf(r[j]) {
          if j < |s| {
            assert r[i] == s[i] && r[j] == s[j];
          }
        }
      }
    case RemoveItem(id, size, color) =>
      Seqs.FilterKeepsInjective(s, (item: CartItem) => KeyOf(item) != Key(id, size, color), KeyOf);
    case UpdateQuantity(id, q, size, color) =>
      assert forall i :: 0 <= i < |r| ==> KeyOf(r[i]) == KeyOf(s[i]);
    case ClearCart =>
  }

  /** The side condition under which the incremental `total` stays exact:
      a merging ADD_ITEM carries the price of the line it merges into. */
  ghost predicate PriceAgrees(state: CartState, action: CartAction)
  {
    action.AddItem? && FirstMatch(state.items, KeyOf(action.payload)).Some? ==>
      state.items[FirstMatch(state.items, KeyOf(action.payload)).value].price == action.payload.price
  }

  lemma AddItemKeepsTotal(state: CartState, p: CartItem)
    requires UniqueKeys(state.items)
    requires state.total == Sum(state.items)
    requires PriceAgrees(state, AddItem(p))
    ensures Reduce(state, AddItem(p)).total == Sum(Reduce(state, AddItem(p)).items)
  {
    var s := state.items;
    if FirstMatch(s, KeyOf(p)).Some? {
      var i := FirstMatch(s, KeyOf(p)).value;
      AddItemMerges(state, p);
      Seqs.SumOfUpdate(s, i, s[i].(quantity := s[i].quantity + p.quantity), LineTotal);
      assert s[i].price * (s[i].quantity + p.quantity) == s[i].price * s[i].quantity + s[i].price * p.quantity;
    } else {
      Seqs.SumOfSnoc(s, p, LineTotal);
    }
  }

  lemma RemoveItemKeepsTotal(state: CartState, id: string, size: string, color: string)
    requires UniqueKeys(state.items)
    requires state.total == Sum(state.items)
    ensures var r := Reduce(state, RemoveItem(id, size, color)); r.total == Sum(r.items)
  {
    if FirstMatch(state.items, Key(id, size, color)).Some? {
      var i := FirstMatch(state.items, Key(id, size, color)).value;
      RemoveItemDrops(state, id, size, color);
      Seqs.SumOfRemoveAt(state.items, i, LineTotal);
    }
  }

  lemma UpdateQuantityKeepsTotal(state: CartState, id: string, q: int, size: string, color: string)
    requires UniqueKeys(state.items)
    requires state.total == Sum(state.items)
    ensures var r := Reduce(state, UpdateQuantity(id, q, size, color)); r.total == Sum(r.items)
  {
    var s := state.items;
    if FirstMatch(s, Key(id, size, color)).Some? {
      var i := FirstMatch(s, Key(id, size, color)).value;
      UpdateQuantitySets(state, id, q, size, color);
      Seqs.SumOfUpdate(s, i, s[i].(quantity := q), LineTotal);
      assert s[i].price * (q - s[i].quantity) == s[i].price * q - s[i].price * s[i].quantity;
    }
  }

  /** `total == Σ price*quantity` is preserved by every action, provided
      the keys are unique and a merging ADD_ITEM carries the line's price. */
  lemma ReduceKeepsTotal(state: CartState, action: CartAction)
    requires UniqueKeys(state.items)
    requires state.total == Sum(state.items)
    requires PriceAgrees(state, action)
    ensures Reduce(state, action).total == Sum(Reduce(state, action).items)
  {
    match action
    case AddItem(p) => AddItemKeepsTotal(state, p);
    case RemoveItem(id, size, color) => RemoveItemKeepsTotal(state, id, size, color);
    case UpdateQuantity(id, q, size, color) => UpdateQuantityKeepsTotal(state, id, q, size, color);
    case ClearCart =>
  }

  /** Without the side condition the running total drifts: a merging
      ADD_ITEM whose price differs from the line's leaves `total` off by
      (payload price - line price) * payload quantity. */
  lemma MergeAtOtherPriceDrifts(state: CartState, p: CartItem)
    requires UniqueKeys(state.items)
    requires FirstMatch(state.items, KeyOf(p)).Some?
    ensures var i := FirstMatch(state.items, KeyOf(p)).value;
            var r := Reduce(state, AddItem(p));
            r.total - Sum(r.items)
              == state.total - Sum(state.items) + (p.price - state.items[i].price) * p.quantity
  {
    var s := state.items;
    var i := FirstMatch(s, KeyOf(p)).value;
    AddItemMerges(state, p);
    Seqs.SumOfUpdate(s, i, s[i].(quantity := s[i].quantity + p.quantity), LineTotal);
    assert s[i].price * (s[i].quantity + p.quantity) == s[i].price * s[i].quantity + s[i].price * p.quantity;
    assert (p.price - s[i].price) * p.quantity == p.price * p.quantity - s[i].price * p.quantity;
  }
}
