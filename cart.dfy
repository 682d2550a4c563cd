/** The client-side cart (src/context/CartContext.jsx): a list of lines keyed by
    product id, updated optimistically, with one request emitted per mutation
    while a user is signed in, and the two derived folds `cartCount` and
    `cartTotal`. */
module CartMirror {
  import opened Wrappers
  import opened Schema
  import opened Api

  /** `item.id`: a line carries its product's columns, so its id is the product id. */
  function Id(item: CartItem): (r: int) {
    item.product.id
  }

  /** `items.find(item => item.id === id)`, as the quantity of the first line with that id. */
  function QuantityOf(items: seq<CartItem>, id: int): (r: Option<int>) {
    if items == [] then None
    else if Id(items[0]) == id then Some(items[0].quantity)
    else QuantityOf(items[1..], id)
  }

  /** Some line has that id. */
  predicate Has(items: seq<CartItem>, id: int) {
    items != [] && (Id(items[0]) == id || Has(items[1..], id))
  }

  /** No two lines share a product id. */
  predicate DistinctIds(items: seq<CartItem>) {
    items == [] || (!Has(items[1..], Id(items[0])) && DistinctIds(items[1..]))
  }

  /** `Math.max(1, q)` */
  function AtLeastOne(q: int): (r: int) {
    if q < 1 then 1 else q
  }

  // ---- the state transformers handed to setCartItems ----

  /** `prev.map(item => item.id === id ? { ...item, quantity: item.quantity + 1 } : item)` */
  function Incremented(items: seq<CartItem>, id: int): (r: seq<CartItem>) {
    if items == [] then []
    else
      var head := if Id(items[0]) == id then items[0].(quantity := items[0].quantity + 1) else items[0];
      [head] + Incremented(items[1..], id)
  }

  /** `addToCart`'s update: bump the line already there, or append the product with quantity 1. */
  function AddItem(items: seq<CartItem>, product: Product): (r: seq<CartItem>)
    ensures |r| == |items| + (if Has(items, product.id) then 0 else 1)
    ensures Has(r, product.id)
    ensures forall id :: Has(r, id) <==> Has(items, id) || id == product.id
  {
    if Has(items, product.id) then
      IncrementedShape(items, product.id);
      assert forall id :: Has(Incremented(items, product.id), id) == Has(items, id) by {
        forall id ensures Has(Incremented(items, product.id), id) == Has(items, id) {
          IncrementedQuantity(items, product.id, id);
        }
      }
      Incremented(items, product.id)
    else
      assert forall id :: Has(items + [CartItem(product, 1)], id) == (Has(items, id) || id == product.id) by {
        forall id ensures Has(items + [CartItem(product, 1)], id) == (Has(items, id) || id == product.id) {
          AppendQuantity(items, CartItem(product, 1), id);
        }
      }
      items + [CartItem(product, 1)]
  }

  /** `prev.filter(item => item.id !== id)` */
  function WithoutId(items: seq<CartItem>, id: int): (r: seq<CartItem>)
    ensures |r| <= |items|
    ensures !Has(r, id)
    ensures |r| == |items| <==> !Has(items, id)
  {
    if items == [] then []
    else if Id(items[0]) == id then WithoutId(items[1..], id)
    else [items[0]] + WithoutId(items[1..], id)
  }

  /** `updateQuantity`'s update: every line with the id gets `Math.max(1, quantity + delta)`. */
  function Clamped(items: seq<CartItem>, id: int, delta: int): (r: seq<CartItem>)
    ensures |r| == |items|
  {
    if items == [] then []
    else
      var head := if Id(items[0]) == id then items[0].(quantity := AtLeastOne(items[0].quantity + delta)) else items[0];
      [head] + Clamped(items[1..], id, delta)
  }

  /** The PUTs the map callback of `updateQuantity` fires: one per line with the id, carrying its new quantity. */
  function ClampRequests(items: seq<CartItem>, id: int, delta: int): (r: seq<Request>)
    ensures |r| <= |items|
    ensures |r| == 0 <==> !Has(items, id)
    ensures forall i :: 0 <= i < |r| ==> r[i].PutCart? && r[i].productId == id && r[i].quantity >= 1
  {
    if items == [] then []
    else
      var head := if Id(items[0]) == id then [PutCart(id, AtLeastOne(items[0].quantity + delta))] else [];
      head + ClampRequests(items[1..], id, delta)
  }

  /** What a finished `GET /api/cart` leaves in the list: an array of lines replaces it, a JSON error
      object empties it, and a failed fetch or a non-JSON reply (`sendStatus`) makes `res.json()`
      reject, so the catch leaves the list as it was. */
  function Loaded(current: seq<CartItem>, fetched: Option<Body>): (r: seq<CartItem>)
    ensures fetched.None? || fetched == Some(Text) ==> r == current
    ensures fetched.Some? && fetched.value.CartLines? ==> r == fetched.value.items
    ensures fetched.Some? && fetched.value != Text && !fetched.value.CartLines? ==> r == []
  {
    match fetched
    case None => current
    case Some(Text) => current
    case Some(CartLines(lines)) => lines
    case Some(_) => []
  }

  // ---- the derived folds ----

  /** `reduce((acc, item) => acc + item.quantity, acc)`, left to right as JavaScript runs it. */
  function ReduceQuantities(acc: int, items: seq<CartItem>): (r: int)
    decreases |items|
  {
    if items == [] then acc else ReduceQuantities(acc + items[0].quantity, items[1..])
  }

  /** `reduce((acc, item) => acc + (item.price * item.quantity), acc)` */
  function ReducePrices(acc: int, items: seq<CartItem>): (r: int)
    decreases |items|
  {
    if items == [] then acc else ReducePrices(acc + items[0].product.price * items[0].quantity, items[1..])
  }

  /** The sum of the quantities. */
  function SumQuantities(items: seq<CartItem>): (r: int) {
    if items == [] then 0 else items[0].quantity + SumQuantities(items[1..])
  }

  /** The sum of price times quantity over the lines. */
  function SumPrices(items: seq<CartItem>): (r: int) {
    if items == [] then 0 else items[0].product.price * items[0].quantity + SumPrices(items[1..])
  }

  /** The provider's state: the list, whether the drawer is open, whether a user is signed in, and the
      requests sent so far, in order. */
  class CartContext {
    var cartItems: seq<CartItem>
    var isCartOpen: bool
    var signedIn: bool
    var sent: seq<Request>

    /** `useState([])`, `useState(false)`, and no user yet. */
    constructor ()
      ensures cartItems == [] && !isCartOpen && !signedIn && sent == []
    {
      cartItems, isCartOpen, signedIn, sent := [], false, false, [];
    }

    /** The effect on `currentUser`: signing out empties the list at once; signing in loads the
        caller's lines from `GET /api/cart`, whose outcome is `fetched`. */
    method UserChanged(user: bool, fetched: Option<Body>)
      modifies this
      ensures signedIn == user && isCartOpen == old(isCartOpen) && sent == old(sent)
      ensures cartItems == if user then Loaded(old(cartItems), fetched) else []
    {
      signedIn := user;
      if user {
        cartItems := Loaded(cartItems, fetched);
      } else {
        cartItems := [];
      }
    }

    /** `addToCart(product)`: the optimistic update, the drawer opened, and a POST with quantity 1
        while signed in. */
    method AddToCart(product: Product)
      modifies this
      ensures cartItems == AddItem(old(cartItems), product)
      ensures isCartOpen && signedIn == old(signedIn)
      ensures sent == old(sent) + (if signedIn then [PostCart(product.id, 1)] else [])
    {
      cartItems := AddItem(cartItems, product);
      isCartOpen := true;
      if signedIn {
        sent := sent + [PostCart(product.id, 1)];
      }
    }

    /** `removeFromCart(id)`: the lines with the id go, and a DELETE is sent while signed in, whether
        or not such a line was there. */
    method RemoveFromCart(id: int)
      modifies this
      ensures cartItems == WithoutId(old(cartItems), id)
      ensures isCartOpen == old(isCartOpen) && signedIn == old(signedIn)
      ensures sent == old(sent) + (if signedIn then [DeleteCart(id)] else [])
    {
      cartItems := WithoutId(cartItems, id);
      if signedIn {
        sent := sent + [DeleteCart(id)];
      }
    }

    /** `updateQuantity(id, delta)`: the clamped new quantity, and one PUT per matching line while signed in. */
    method UpdateQuantity(id: int, delta: int)
      modifies this
      ensures cartItems == Clamped(old(cartItems), id, delta)
      ensures isCartOpen == old(isCartOpen) && signedIn == old(signedIn)
      ensures sent == old(sent) + (if signedIn then ClampRequests(old(cartItems), id, delta) else [])
    {
      if signedIn {
        sent := sent + ClampRequests(cartItems, id, delta);
      }
      cartItems := Clamped(cartItems, id, delta);
    }

    /** `cartCount` */
    function CartCount(): (r: int)
      reads this
      ensures r == SumQuantities(cartItems)
    {
      ReduceIsSum(0, cartItems);
      ReduceQuantities(0, cartItems)
    }

    /** `cartTotal` */
    function CartTotal(): (r: int)
      reads this
      ensures r == SumPrices(cartItems)
    {
      ReduceIsSum(0, cartItems);
      ReducePrices(0, cartItems)
    }
  }

  // ---- lemmas ----

  lemma {:induction false} HasIff(items: seq<CartItem>, id: int)
    ensures Has(items, id) <==> QuantityOf(items, id).Some?
    ensures Has(items, id) <==> exists i :: 0 <= i < |items| && Id(items[i]) == id
  {
    if items != [] {
      HasIff(items[1..], id);
      if Has(items[1..], id) {
        var i :| 0 <= i < |items[1..]| && Id(items[1..][i]) == id;
        assert Id(items[i + 1]) == id;
      }
      if exists i :: 0 <= i < |items| && Id(items[i]) == id {
        var i :| 0 <= i < |items| && Id(items[i]) == id;
        if i > 0 {
          assert Id(items[1..][i - 1]) == id;
        }
      }
    }
  }

  /** Distinct ids, as the recursion states it, are ids that differ at every pair of positions. */
  lemma {:induction false} DistinctIdsIff(items: seq<CartItem>)
    ensures DistinctIds(items) <==> forall i, j :: 0 <= i < j < |items| ==> Id(items[i]) != Id(items[j])
  {
    if items != [] {
      DistinctIdsIff(items[1..]);
      HasIff(items[1..], Id(items[0]));
      if DistinctIds(items) {
        forall i, j | 0 <= i < j < |items| ensures Id(items[i]) != Id(items[j]) {
          assert items[j] == items[1..][j - 1];
          if i > 0 {
            assert items[i] == items[1..][i - 1];
          }
        }
      }
      if forall i, j :: 0 <= i < j < |items| ==> Id(items[i]) != Id(items[j]) {
        forall i, j | 0 <= i < j < |items[1..]| ensures Id(items[1..][i]) != Id(items[1..][j]) {
          assert items[1..][i] == items[i + 1] && items[1..][j] == items[j + 1];
        }
        forall j | 0 <= j < |items[1..]| ensures Id(items[1..][j]) != Id(items[0]) {
          assert items[1..][j] == items[j + 1];
        }
      }
    }
  }

  lemma {:induction false} IncrementedShape(items: seq<CartItem>, id: int)
    ensures |Incremented(items, id)| == |items|
    ensures forall i :: 0 <= i < |items| ==>
      Incremented(items, id)[i] == if Id(items[i]) == id then items[i].(quantity := items[i].quantity + 1) else items[i]
  {
    if items != [] {
      IncrementedShape(items[1..], id);
      var r := Incremented(items, id);
      forall i | 1 <= i < |items| ensures r[i] == Incremented(items[1..], id)[i - 1] && items[i] == items[1..][i - 1] { }
    }
  }

  lemma {:induction false} IncrementedQuantity(items: seq<CartItem>, id: int, other: int)
    ensures QuantityOf(Incremented(items, id), other) ==
      if other == id && QuantityOf(items, other).Some? then Some(QuantityOf(items, other).value + 1) else QuantityOf(items, other)
    ensures Has(Incremented(items, id), other) == Has(items, other)
  {
    if items != [] {
      IncrementedQuantity(items[1..], id, other);
    }
  }

  /** `addToCart` on a product already in the list: same length, that line's quantity up by exactly one,
      every other line as it was, in place. */
  lemma AddPresent(items: seq<CartItem>, product: Product)
    requires Has(items, product.id)
    ensures |AddItem(items, product)| == |items|
    ensures forall i :: 0 <= i < |items| ==>
      AddItem(items, product)[i] ==
        if Id(items[i]) == product.id then items[i].(quantity := items[i].quantity + 1) else items[i]
  {
    IncrementedShape(items, product.id);
  }

  /** `addToCart` on a product not in the list: one line appended at the end, with quantity 1. */
  lemma AddAbsent(items: seq<CartItem>, product: Product)
    requires !Has(items, product.id)
    ensures |AddItem(items, product)| == |items| + 1
    ensures AddItem(items, product)[..|items|] == items
    ensures AddItem(items, product)[|items|] == CartItem(product, 1)
  {
  }

  /** Through the quantity view: adding raises the product's quantity by one (starting from nothing
      means one) and leaves every other product's quantity alone. */
  lemma {:induction false} AddQuantity(items: seq<CartItem>, product: Product, id: int)
    ensures QuantityOf(AddItem(items, product), id) ==
      if id != product.id then QuantityOf(items, id)
      else if QuantityOf(items, id).Some? then Some(QuantityOf(items, id).value + 1)
      else Some(1)
  {
    HasIff(items, product.id);
    if Has(items, product.id) {
      IncrementedQuantity(items, product.id, id);
    } else {
      AppendQuantity(items, CartItem(product, 1), id);
    }
  }

  lemma {:induction false} AppendQuantity(items: seq<CartItem>, x: CartItem, id: int)
    ensures QuantityOf(items + [x], id) == if QuantityOf(items, id).Some? then QuantityOf(items, id) else if Id(x) == id then Some(x.quantity) else None
    ensures Has(items + [x], id) == (Has(items, id) || Id(x) == id)
  {
    if items == [] {
      assert items + [x] == [x];
    } else {
      assert (items + [x])[1..] == items[1..] + [x];
      AppendQuantity(items[1..], x, id);
    }
  }

  /** addToCart keeps product ids distinct. */
  lemma {:induction false} AddKeepsDistinct(items: seq<CartItem>, product: Product)
    requires DistinctIds(items)
    ensures DistinctIds(AddItem(items, product))
  {
    if Has(items, product.id) {
      IncrementedKeepsDistinct(items, product.id);
    } else {
      AppendKeepsDistinct(items, CartItem(product, 1));
    }
  }

  lemma {:induction false} IncrementedKeepsDistinct(items: seq<CartItem>, id: int)
    requires DistinctIds(items)
    ensures DistinctIds(Incremented(items, id))
  {
    if items != [] {
      IncrementedKeepsDistinct(items[1..], id);
      IncrementedQuantity(items[1..], id, Id(items[0]));
    }
  }

  lemma {:induction false} AppendKeepsDistinct(items: seq<CartItem>, x: CartItem)
    requires DistinctIds(items) && !Has(items, Id(x))
    ensures DistinctIds(items + [x])
  {
    if items == [] {
      assert items + [x] == [x];
    } else {
      assert (items + [x])[1..] == items[1..] + [x];
      AppendQuantity(items[1..], x, Id(items[0]));
      AppendKeepsDistinct(items[1..], x);
    }
  }

  /** removeFromCart: no line with the id is left, every other id keeps its quantity. */
  lemma {:induction false} RemoveQuantity(items: seq<CartItem>, id: int, other: int)
    ensures QuantityOf(WithoutId(items, id), other) == if other == id then None else QuantityOf(items, other)
    ensures Has(WithoutId(items, id), other) == (other != id && Has(items, other))
  {
    if items != [] {
      RemoveQuantity(items[1..], id, other);
    }
  }

  /** The filter keeps the order of what it keeps: it distributes over concatenation, and it is the
      identity on a list without the id. */
  lemma {:induction false} RemoveKeepsOrder(a: seq<CartItem>, b: seq<CartItem>, id: int)
    ensures WithoutId(a + b, id) == WithoutId(a, id) + WithoutId(b, id)
    ensures !Has(a, id) ==> WithoutId(a, id) == a
  {
    if a == [] {
      assert a + b == b;
    } else {
      assert (a + b)[1..] == a[1..] + b;
      RemoveKeepsOrder(a[1..], b, id);
    }
  }

  lemma {:induction false} RemoveKeepsDistinct(items: seq<CartItem>, id: int)
    requires DistinctIds(items)
    ensures DistinctIds(WithoutId(items, id))
  {
    if items != [] {
      RemoveKeepsDistinct(items[1..], id);
      RemoveQuantity(items[1..], id, Id(items[0]));
    }
  }

  /** updateQuantity: the id's quantity becomes `max(1, q + delta)`, so never below one; other ids are
      untouched and an absent id changes nothing. */
  lemma {:induction false} ClampQuantity(items: seq<CartItem>, id: int, delta: int, other: int)
    ensures QuantityOf(Clamped(items, id, delta), other) ==
      if other == id && QuantityOf(items, id).Some? then Some(AtLeastOne(QuantityOf(items, id).value + delta))
      else QuantityOf(items, other)
    ensures Has(Clamped(items, id, delta), other) == Has(items, other)
    ensures !Has(items, id) ==> Clamped(items, id, delta) == items
  {
    if items != [] {
      ClampQuantity(items[1..], id, delta, other);
    }
  }

  /** updateQuantity maps the list in place: same length, each line with the id takes its clamped
      quantity and keeps its product, every other line is returned as it was. */
  lemma {:induction false} ClampShape(items: seq<CartItem>, id: int, delta: int)
    ensures |Clamped(items, id, delta)| == |items|
    ensures forall i :: 0 <= i < |items| ==>
      Clamped(items, id, delta)[i] ==
        if Id(items[i]) == id then items[i].(quantity := AtLeastOne(items[i].quantity + delta)) else items[i]
  {
    if items != [] {
      ClampShape(items[1..], id, delta);
      var r := Clamped(items, id, delta);
      forall i | 1 <= i < |items| ensures r[i] == Clamped(items[1..], id, delta)[i - 1] && items[i] == items[1..][i - 1] { }
    }
  }

  /** Whatever the delta, the new quantity is at least one and no line drops below one. */
  lemma {:induction false} ClampFloor(items: seq<CartItem>, id: int, delta: int)
    ensures |Clamped(items, id, delta)| == |items|
    ensures forall i :: 0 <= i < |items| && Id(items[i]) == id ==> Clamped(items, id, delta)[i].quantity >= 1
  {
    if items != [] {
      ClampFloor(items[1..], id, delta);
      var r := Clamped(items, id, delta);
      forall i | 1 <= i < |items| ensures r[i] == Clamped(items[1..], id, delta)[i - 1] && items[i] == items[1..][i - 1] { }
    }
  }

  lemma {:induction false} ClampKeepsDistinct(items: seq<CartItem>, id: int, delta: int)
    requires DistinctIds(items)
    ensures DistinctIds(Clamped(items, id, delta))
  {
    if items != [] {
      ClampKeepsDistinct(items[1..], id, delta);
      ClampQuantity(items[1..], id, delta, Id(items[0]));
    }
  }

  /** With distinct ids updateQuantity fires exactly one PUT, with the clamped quantity, when the id is
      present, and none when it is absent. */
  lemma {:induction false} ClampRequestsOne(items: seq<CartItem>, id: int, delta: int)
    requires DistinctIds(items)
    ensures ClampRequests(items, id, delta) ==
      if QuantityOf(items, id).Some? then [PutCart(id, AtLeastOne(QuantityOf(items, id).value + delta))] else []
  {
    if items != [] {
      ClampRequestsOne(items[1..], id, delta);
      HasIff(items[1..], id);
    }
  }

  /** The count of a concatenation is the sum of the counts (so the left-to-right reduce and this
      recursion agree), and likewise for the total. */
  lemma {:induction false} SumsAppend(a: seq<CartItem>, b: seq<CartItem>)
    ensures SumQuantities(a + b) == SumQuantities(a) + SumQuantities(b)
    ensures SumPrices(a + b) == SumPrices(a) + SumPrices(b)
  {
    if a == [] {
      assert a + b == b;
    } else {
      assert (a + b)[1..] == a[1..] + b;
      SumsAppend(a[1..], b);
    }
  }

  /** With distinct ids, updateQuantity moves cartCount from the line's old quantity to its clamped one,
      and leaves it alone for an absent id. */
  lemma {:induction false} ClampSums(items: seq<CartItem>, id: int, delta: int)
    requires DistinctIds(items)
    ensures SumQuantities(Clamped(items, id, delta)) ==
      SumQuantities(items) +
        (if QuantityOf(items, id).Some? then AtLeastOne(QuantityOf(items, id).value + delta) - QuantityOf(items, id).value else 0)
  {
    if items != [] {
      if Id(items[0]) == id {
        HasIff(items[1..], id);
        ClampQuantity(items[1..], id, delta, id);
      } else {
        ClampSums(items[1..], id, delta);
      }
    }
  }

  /** The left-to-right reduce from `acc` is `acc` plus the sum, for both folds. */
  lemma {:induction false} ReduceIsSum(acc: int, items: seq<CartItem>)
    ensures ReduceQuantities(acc, items) == acc + SumQuantities(items)
    ensures ReducePrices(acc, items) == acc + SumPrices(items)
    decreases |items|
  {
    if items != [] {
      ReduceIsSum(acc + items[0].quantity, items[1..]);
      ReduceIsSum(acc + items[0].product.price * items[0].quantity, items[1..]);
    }
  }

  /** The price of the first line for the id: what one more unit of it adds to the total. */
  function PriceOf(items: seq<CartItem>, id: int, fallback: int): (r: int) {
    if items == [] then fallback
    else if Id(items[0]) == id then items[0].product.price
    else PriceOf(items[1..], id, fallback)
  }

  lemma {:induction false} IncrementedSums(items: seq<CartItem>, id: int)
    requires DistinctIds(items) && Has(items, id)
    ensures SumQuantities(Incremented(items, id)) == SumQuantities(items) + 1
    ensures SumPrices(Incremented(items, id)) == SumPrices(items) + PriceOf(items, id, 0)
  {
    if Id(items[0]) == id {
      IncrementedUntouched(items[1..], id);
    } else {
      IncrementedSums(items[1..], id);
    }
  }

  lemma {:induction false} IncrementedUntouched(items: seq<CartItem>, id: int)
    requires !Has(items, id)
    ensures Incremented(items, id) == items
  {
    if items != [] {
      IncrementedUntouched(items[1..], id);
    }
  }

  /** Every addToCart raises cartCount by exactly one, and cartTotal by the price of the line bumped:
      the stored line's price when the product is already there, the product's price otherwise. */
  lemma AddSums(items: seq<CartItem>, product: Product)
    requires DistinctIds(items)
    ensures SumQuantities(AddItem(items, product)) == SumQuantities(items) + 1
    ensures SumPrices(AddItem(items, product)) == SumPrices(items) + PriceOf(items, product.id, product.price)
  {
    if Has(items, product.id) {
      IncrementedSums(items, product.id);
      PriceOfPresent(items, product.id, 0, product.price);
    } else {
      SumsAppend(items, [CartItem(product, 1)]);
      PriceOfAbsent(items, product.id, product.price);
    }
  }

  lemma {:induction false} PriceOfPresent(items: seq<CartItem>, id: int, f: int, g: int)
    requires Has(items, id)
    ensures PriceOf(items, id, f) == PriceOf(items, id, g)
  {
    if Id(items[0]) != id {
      PriceOfPresent(items[1..], id, f, g);
    }
  }

  lemma {:induction false} PriceOfAbsent(items: seq<CartItem>, id: int, f: int)
    requires !Has(items, id)
    ensures PriceOf(items, id, f) == f
  {
    if items != [] {
      PriceOfAbsent(items[1..], id, f);
    }
  }

  /** removeFromCart lowers cartCount by the quantity of the line removed. */
  lemma {:induction false} RemoveSums(items: seq<CartItem>, id: int)
    requires DistinctIds(items)
    ensures SumQuantities(WithoutId(items, id)) ==
      SumQuantities(items) - (if QuantityOf(items, id).Some? then QuantityOf(items, id).value else 0)
  {
    if items != [] {
      RemoveSums(items[1..], id);
      if Id(items[0]) == id {
        HasIff(items[1..], id);
      }
    }
  }
}
