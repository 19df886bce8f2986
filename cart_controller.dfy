/** The server cart (cartController.js). A cart document belongs to one
    user and holds its lines and a `total` that every mutation recomputes
    from the lines. Lines are matched by product, size and colour when
    adding, and by their own `_id` when updating or removing. */
module CartController {
  import opened Wrappers
  import opened Http
  import Seqs

  type UserId = string
  type ProductId = string
  type LineId = string

  /** A cart line: the product reference, a snapshot of its name, first
      image and price at the time of adding, and the chosen variant. */
  datatype Line = Line(
    lineId: LineId, product: ProductId, name: string, image: Option<string>,
    price: int, quantity: int, size: string, color: string)

  /** The fields of the product that `addToCart` copies into a new line. */
  datatype ProductInfo = ProductInfo(name: string, images: seq<string>, price: int)

  datatype LineKey = LineKey(product: ProductId, size: string, color: string)

  function KeyOf(l: Line): LineKey
  {
    LineKey(l.product, l.size, l.color)
  }

  function IdOf(l: Line): LineId
  {
    l.lineId
  }

  function LineTotal(l: Line): int
  {
    l.price * l.quantity
  }

  /** The `reduce` of price*quantity over the lines. */
  function Total(items: seq<Line>): int
  {
    Seqs.SumOf(items, LineTotal)
  }

  /** `product.images[0]`, undefined for a product without images. */
  function FirstImage(images: seq<string>): Option<string>
  {
    if |images| > 0 then Some(images[0]) else None
  }

  ghost predicate UniqueKeys(items: seq<Line>)
  {
    Seqs.InjectiveOn(items, KeyOf)
  }

  ghost predicate UniqueLineIds(items: seq<Line>)
  {
    Seqs.InjectiveOn(items, IdOf)
  }

  /** The index `findIndex` returns for a product/size/colour: the first
      matching line, or -1. */
  function KeyIndex(items: seq<Line>, k: LineKey): (r: int)
    ensures -1 <= r < |items|
    ensures r == -1 <==> forall i :: 0 <= i < |items| ==> KeyOf(items[i]) != k
    ensures r >= 0 ==> KeyOf(items[r]) == k && forall j :: 0 <= j < r ==> KeyOf(items[j]) != k
    decreases |items|
  {
    if items == [] then -1
    else if KeyOf(items[0]) == k then 0
    else
      var i := KeyIndex(items[1..], k);
      if i == -1 then -1 else i + 1
  }

  /** The index `findIndex` returns for a line id. */
  function IdIndex(items: seq<Line>, id: LineId): (r: int)
    ensures -1 <= r < |items|
    ensures r == -1 <==> forall i :: 0 <= i < |items| ==> items[i].lineId != id
    ensures r >= 0 ==> items[r].lineId == id && forall j :: 0 <= j < r ==> items[j].lineId != id
    decreases |items|
  {
    if items == [] then -1
    else if items[0].lineId == id then 0
    else
      var i := IdIndex(items[1..], id);
      if i == -1 then -1 else i + 1
  }

  /** The line `addToCart` appends for a product not yet in the cart. */
  function NewLine(id: LineId, product: ProductId, info: ProductInfo, quantity: int, size: string, color: string): Line
  {
    Line(id, product, info.name, FirstImage(info.images), info.price, quantity, size, color)
  }

  /** The lines after `addToCart`: the matching line gains `quantity`, or
      a new line is appended. */
  function AddedLines(items: seq<Line>, id: LineId, product: ProductId, info: ProductInfo,
                      quantity: int, size: string, color: string): (r: seq<Line>)
    ensures |items| <= |r| <= |items| + 1
    ensures KeyIndex(r, LineKey(product, size, color)) >= 0
  {
    var i := KeyIndex(items, LineKey(product, size, color));
    if i >= 0 then
      var r := items[i := items[i].(quantity := items[i].quantity + quantity)];
      assert KeyOf(r[i]) == LineKey(product, size, color);
      r
    else
      var r := items + [NewLine(id, product, info, quantity, size, color)];
      assert KeyOf(r[|items|]) == LineKey(product, size, color);
      r
  }

  // ---------------------------------------------------------------------
  // The loops of the controller

  /** `cart.items.findIndex(...)` on product, size and colour. */
  method FindByKey(items: seq<Line>, k: LineKey) returns (index: int)
    ensures -1 <= index < |items|
    ensures index == -1 <==> forall i :: 0 <= i < |items| ==> KeyOf(items[i]) != k
    ensures index >= 0 ==> KeyOf(items[index]) == k
    ensures index >= 0 ==> forall j :: 0 <= j < index ==> KeyOf(items[j]) != k
    ensures index == KeyIndex(items, k)
  {
    index := 0;
    while index < |items|
      invariant 0 <= index <= |items|
      invariant forall j :: 0 <= j < index ==> KeyOf(items[j]) != k
    {
      if KeyOf(items[index]) == k {
        return;
      }
      index := index + 1;
    }
    index := -1;
  }

  /** `cart.items.findIndex(item => item._id.toString() === itemId)`. */
  method FindById(items: seq<Line>, id: LineId) returns (index: int)
    ensures -1 <= index < |items|
    ensures index == -1 <==> forall i :: 0 <= i < |items| ==> items[i].lineId != id
    ensures index >= 0 ==> items[index].lineId == id
    ensures index >= 0 ==> forall j :: 0 <= j < index ==> items[j].lineId != id
    ensures index == IdIndex(items, id)
  {
    index := 0;
    while index < |items|
      invariant 0 <= index <= |items|
      invariant forall j :: 0 <= j < index ==> items[j].lineId != id
    {
      if items[index].lineId == id {
        return;
      }
      index := index + 1;
    }
    index := -1;
  }

  /** `cart.items.reduce((total, item) => total + item.price * item.quantity, 0)`. */
  method SumLines(items: seq<Line>) returns (total: int)
    ensures total == Total(items)
  {
    total := 0;
    var i := 0;
    while i < |items|
      invariant 0 <= i <= |items|
      invariant total == Total(items[..i])
    {
      assert items[..i + 1] == items[..i] + [items[i]];
      Seqs.SumOfSnoc(items[..i], items[i], LineTotal);
      total := total + items[i].price * items[i].quantity;
      i := i + 1;
    }
    assert items[..i] == items;
  }

  // ---------------------------------------------------------------------
  // Documents

  /** A cart document. */
  class Cart {
    const user: UserId
    var items: seq<Line>
    var total: int

    /** What every saved cart satisfies: the total is the sum of its lines,
        no two lines share a product/size/colour, and line ids are distinct. */
    ghost predicate Valid()
      reads this
    {
      total == Total(items) && UniqueKeys(items) && UniqueLineIds(items)
    }

    /** `new Cart({ user, items: [], total: 0 })`. */
    constructor(user: UserId)
      ensures this.user == user && items == [] && total == 0
      ensures Valid()
    {
      this.user := user;
      items := [];
      total := 0;
    }

    /** The merge-or-append of `addToCart`, then the recomputed total. */
    method AddLine(id: LineId, product: ProductId, info: ProductInfo, quantity: int, size: string, color: string)
      requires Valid()
      requires forall i :: 0 <= i < |items| ==> items[i].lineId != id
      modifies this
      ensures Valid()
      ensures items == AddedLines(old(items), id, product, info, quantity, size, color)
      ensures total == Total(items)
    {
      var k := LineKey(product, size, color);
      var i := FindByKey(items, k);
      if i > -1 {
        items := items[i := items[i].(quantity := items[i].quantity + quantity)];
        assert forall j :: 0 <= j < |items| ==> KeyOf(items[j]) == KeyOf(old(items)[j]);
        assert forall j :: 0 <= j < |items| ==> IdOf(items[j]) == IdOf(old(items)[j]);
      } else {
        var line := NewLine(id, product, info, quantity, size, color);
        ghost var s := items;
        items := items + [line];
        assert forall j :: 0 <= j < |s| ==> items[j] == s[j];
        assert UniqueKeys(items);
        assert UniqueLineIds(items);
      }
      total := SumLines(items);
    }

    /** `cart.items[itemIndex].quantity = quantity`, then the recomputed total. */
    method SetQuantity(index: nat, quantity: int)
      requires Valid() && index < |items|
      modifies this
      ensures Valid()
      ensures items == old(items)[index := old(items)[index].(quantity := quantity)]
    {
      items := items[index := items[index].(quantity := quantity)];
      assert forall j :: 0 <= j < |items| ==> KeyOf(items[j]) == KeyOf(old(items)[j]);
      assert forall j :: 0 <= j < |items| ==> IdOf(items[j]) == IdOf(old(items)[j]);
      total := SumLines(items);
    }

    /** `cart.items.splice(itemIndex, 1)`, then the recomputed total. */
    method RemoveAt(index: nat)
      requires Valid() && index < |items|
      modifies this
      ensures Valid()
      ensures items == old(items)[..index] + old(items)[index + 1..]
    {
      Seqs.RemoveAtKeepsInjective(items, index, KeyOf);
      Seqs.RemoveAtKeepsInjective(items, index, IdOf);
      items := items[..index] + items[index + 1..];
      total := SumLines(items);
    }

    /** `cart.items = []; cart.total = 0`. */
    method Clear()
      modifies this
      ensures Valid()
      ensures items == [] && total == 0
    {
      items := [];
      total := 0;
    }
  }

  /** The cart collection, one cart per user: `Cart.findOne({ user })` is a
      lookup in `carts`, `cart.save()` of a new cart an insertion. */
  class CartStore {
    var carts: map<UserId, Cart>

    ghost predicate Valid()
      reads this, carts.Values
    {
      forall u :: u in carts ==> carts[u].user == u && carts[u].Valid()
    }

    constructor()
      ensures Valid() && carts == map[]
    {
      carts := map[];
    }

    /** `getCart`: the user's cart, created empty and saved when absent. */
    method GetCart(user: UserId) returns (cart: Cart)
      requires Valid()
      modifies this
      ensures Valid()
      ensures user in old(carts) ==> cart == old(carts)[user] && carts == old(carts)
      ensures user !in old(carts) ==> fresh(cart) && carts == old(carts)[user := cart]
      ensures user !in old(carts) ==> cart.items == [] && cart.total == 0
      ensures cart.user == user && cart.Valid()
    {
      if user in carts {
        cart := carts[user];
      } else {
        cart := new Cart(user);
        carts := carts[user := cart];
      }
    }

    /** `addToCart`: 404 for an unknown product before any cart is touched;
        otherwise the line is merged or appended, in a cart created on the
        spot when the user had none, and 201. `product` is the result of
        `Product.findById`; `id` is the `_id` the database gives a new line. */
    method AddToCart(user: UserId, productId: ProductId, product: Option<ProductInfo>,
                     quantity: int, size: string, color: string, id: LineId)
      returns (status: Status)
      requires Valid()
      requires user in carts ==> forall i :: 0 <= i < |carts[user].items| ==> carts[user].items[i].lineId != id
      modifies this, if user in carts then {carts[user]} else {}
      ensures Valid()
      ensures product.None? ==> status == NotFound && carts == old(carts)
      ensures product.None? && user in carts ==> unchanged(carts[user])
      ensures product.Some? ==> status == Created && user in carts
      ensures product.Some? && user in old(carts) ==> carts == old(carts)
      ensures product.Some? && user !in old(carts) ==>
                fresh(carts[user]) && carts == old(carts)[user := carts[user]]
      ensures product.Some? ==>
                carts[user].items
                  == AddedLines(if user in old(carts) then old(carts[user].items) else [],
                                id, productId, product.value, quantity, size, color)
      ensures product.Some? ==> carts[user].total == Total(carts[user].items)
    {
      if product.None? {
        return NotFound;
      }
      var cart: Cart;
      if user in carts {
        cart := carts[user];
      } else {
        cart := new Cart(user);
      }
      cart.AddLine(id, productId, product.value, quantity, size, color);
      carts := carts[user := cart];
      forall u | u in carts ensures carts[u].user == u && carts[u].Valid() {
        if u != user {
          assert carts[u] == old(carts)[u] && carts[u] != cart;
        }
      }
      status := Created;
    }

    /** `updateCartItem`: 400 for a quantity below 1 before anything is
        read; 404 for a missing cart or line id; otherwise exactly that
        line's quantity is set and the total recomputed. */
    method UpdateCartItem(user: UserId, itemId: LineId, quantity: int) returns (status: Status)
      requires Valid()
      modifies if user in carts then {carts[user]} else {}
      ensures Valid()
      ensures quantity < 1 ==> status == BadRequest
      ensures quantity >= 1 && user !in carts ==> status == NotFound
      ensures quantity >= 1 && user in carts ==>
                var old_items := old(carts[user].items);
                var i := IdIndex(old_items, itemId);
                if i == -1 then status == NotFound
                else status == Ok && carts[user].items == old_items[i := old_items[i].(quantity := quantity)]
      ensures status != Ok && user in carts ==> unchanged(carts[user])
    {
      if quantity < 1 {
        return BadRequest;
      }
      if user !in carts {
        return NotFound;
      }
      var cart := carts[user];
      var i := FindById(cart.items, itemId);
      if i == -1 {
        return NotFound;
      }
      cart.SetQuantity(i, quantity);
      forall u | u in carts ensures carts[u].user == u && carts[u].Valid() {
        if u != user {
          assert carts[u] != cart;
        }
      }
      status := Ok;
    }

    /** `removeCartItem`: 404 for a missing cart or line id; otherwise
        exactly the line at the found index is spliced out and the total
        recomputed. */
    method RemoveCartItem(user: UserId, itemId: LineId) returns (status: Status)
      requires Valid()
      modifies if user in carts then {carts[user]} else {}
      ensures Valid()
      ensures user !in carts ==> status == NotFound
      ensures user in carts ==>
                var old_items := old(carts[user].items);
                var i := IdIndex(old_items, itemId);
                if i == -1 then status == NotFound
                else status == Ok && carts[user].items == old_items[..i] + old_items[i + 1..]
      ensures status != Ok && user in carts ==> unchanged(carts[user])
    {
      if user !in carts {
        return NotFound;
      }
      var cart := carts[user];
      var i := FindById(cart.items, itemId);
      if i == -1 {
        return NotFound;
      }
      cart.RemoveAt(i);
      forall u | u in carts ensures carts[u].user == u && carts[u].Valid() {
        if u != user {
          assert carts[u] != cart;
        }
      }
      status := Ok;
    }

    /** `clearCart`: 404 when the user has no cart; otherwise the cart is
        emptied and its total set to 0. */
    method ClearCart(user: UserId) returns (status: Status)
      requires Valid()
      modifies if user in carts then {carts[user]} else {}
      ensures Valid()
      ensures user !in carts ==> status == NotFound
      ensures user in carts ==> status == Ok && carts[user].items == [] && carts[user].total == 0
    {
      if user !in carts {
        return NotFound;
      }
      var cart := carts[user];
      cart.Clear();
      forall u | u in carts ensures carts[u].user == u && carts[u].Valid() {
        if u != user {
          assert carts[u] != cart;
        }
      }
      status := Ok;
    }
  }

  // ---------------------------------------------------------------------
  // Lemmas about the lines

  /** The recomputed total after an add equals the old total plus the
      added quantity at the price of the line it lands on: the server's
      full recompute and an incremental patch agree. */
  lemma AddedLinesTotal(items: seq<Line>, id: LineId, product: ProductId, info: ProductInfo,
                        quantity: int, size: string, color: string)
    ensures var i := KeyIndex(items, LineKey(product, size, color));
            var price := if i >= 0 then items[i].price else info.price;
            Total(AddedLines(items, id, product, info, quantity, size, color))
              == Total(items) + price * quantity
  {
    var i := KeyIndex(items, LineKey(product, size, color));
    if i >= 0 {
      var l := items[i];
      Seqs.SumOfUpdate(items, i, l.(quantity := l.quantity + quantity), LineTotal);
      assert l.price * (l.quantity + quantity) == l.price * l.quantity + l.price * quantity;
    } else {
      Seqs.SumOfSnoc(items, NewLine(id, product, info, quantity, size, color), LineTotal);
    }
  }

  /** Adding the same product, size and colour twice gives one line whose
      quantity is the sum of both, exactly as one add of the sum would. */
  lemma AddTwiceMerges(items: seq<Line>, id1: LineId, id2: LineId, product: ProductId, info: ProductInfo,
                       q1: int, q2: int, size: string, color: string)
    ensures AddedLines(AddedLines(items, id1, product, info, q1, size, color), id2, product, info, q2, size, color)
              == AddedLines(items, id1, product, info, q1 + q2, size, color)
  {
    var k := LineKey(product, size, color);
    var once := AddedLines(items, id1, product, info, q1, size, color);
    var i := KeyIndex(items, k);
    if i >= 0 {
      assert forall j :: 0 <= j < |once| ==> KeyOf(once[j]) == KeyOf(items[j]);
      assert KeyIndex(once, k) == i;
    } else {
      assert forall j :: 0 <= j < |items| ==> once[j] == items[j];
      assert KeyOf(once[|items|]) == k;
      assert KeyIndex(once, k) == |items|;
      assert once[|items| := once[|items|].(quantity := once[|items|].quantity + q2)]
               == items + [NewLine(id1, product, info, q1 + q2, size, color)];
    }
  }

  /** Two adds that differ in size or colour give two separate lines. */
  lemma DistinctVariantsStaySeparate(items: seq<Line>, id1: LineId, id2: LineId, product: ProductId,
                                     info: ProductInfo, q1: int, q2: int,
                                     size1: string, color1: string, size2: string, color2: string)
    requires KeyIndex(items, LineKey(product, size1, color1)) == -1
    requires KeyIndex(items, LineKey(product, size2, color2)) == -1
    requires size1 != size2 || color1 != color2
    ensures var twice := AddedLines(AddedLines(items, id1, product, info, q1, size1, color1),
                                    id2, product, info, q2, size2, color2);
            twice == items + [NewLine(id1, product, info, q1, size1, color1),
                              NewLine(id2, product, info, q2, size2, color2)]
  {
    var once := AddedLines(items, id1, product, info, q1, size1, color1);
    assert KeyIndex(once, LineKey(product, size2, color2)) == -1;
  }
}
