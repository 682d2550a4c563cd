/** How the client mirrors track the server: the quantity each product has in the client's cart list
    against the caller's slice of the cart table, and the listed products against the caller's
    wishlist pairs, before and after every client operation once its requests reach the server. */
module Sync {
  import opened Wrappers
  import opened Schema
  import opened Api
  import opened Auth
  import opened Server
  import C = CartMirror
  import W = WishlistMirror

  /** The server's quantity of user `u`'s line for product `id`, if there is one. */
  function ServerQuantity(m: map<Key, int>, u: int, id: int): (r: Option<int>) {
    if (u, id) in m then Some(m[(u, id)]) else None
  }

  /** The client list shows exactly the caller's server lines: same products, same quantities. */
  ghost predicate CartSynced(items: seq<CartItem>, m: map<Key, int>, u: int) {
    forall id :: C.QuantityOf(items, id) == ServerQuantity(m, u, id)
  }

  /** The client list holds exactly the products of the caller's wishlist pairs. */
  ghost predicate WishSynced(items: seq<Product>, s: set<Key>, u: int) {
    forall id :: W.Listed(items, id) <==> (u, id) in s
  }

  /** What one request, accepted for user `u`, does to the cart table's view. */
  function CartEffect(m: map<Key, int>, u: int, r: Request): (res: map<Key, int>) {
    match r
    case PostCart(p, q) => MergeQuantity(m, (u, p), q)
    case PutCart(p, q) => OverwriteQuantity(m, (u, p), q)
    case DeleteCart(p) => RemoveLine(m, (u, p))
    case _ => m
  }

  /** What one request, accepted for user `u`, does to the wishlist table's view. */
  function WishEffect(s: set<Key>, u: int, r: Request): (res: set<Key>) {
    match r
    case PostWishlist(p) => s + {(u, p)}
    case DeleteWishlist(p) => s - {(u, p)}
    case _ => s
  }

  /** The requests applied in the order they were sent. */
  function ApplyCart(m: map<Key, int>, u: int, reqs: seq<Request>): (r: map<Key, int>)
    decreases |reqs|
  {
    if reqs == [] then m else CartEffect(ApplyCart(m, u, reqs[..|reqs| - 1]), u, reqs[|reqs| - 1])
  }

  function ApplyWish(s: set<Key>, u: int, reqs: seq<Request>): (r: set<Key>)
    decreases |reqs|
  {
    if reqs == [] then s else WishEffect(ApplyWish(s, u, reqs[..|reqs| - 1]), u, reqs[|reqs| - 1])
  }

  lemma ApplyCartOne(m: map<Key, int>, u: int, r: Request)
    ensures ApplyCart(m, u, [r]) == CartEffect(m, u, r)
  {
    assert [r][..0] == [];
  }

  lemma ApplyWishOne(s: set<Key>, u: int, r: Request)
    ensures ApplyWish(s, u, [r]) == WishEffect(s, u, r)
  {
    assert [r][..0] == [];
  }

  // ---- each client operation keeps the mirror in step once its requests are applied ----

  /** addToCart: the optimistic bump and the POST of quantity 1 agree. */
  lemma AddToCartSynced(items: seq<CartItem>, m: map<Key, int>, u: int, product: Product)
    requires CartSynced(items, m, u)
    ensures CartSynced(C.AddItem(items, product), ApplyCart(m, u, [PostCart(product.id, 1)]), u)
  {
    ApplyCartOne(m, u, PostCart(product.id, 1));
    forall id ensures C.QuantityOf(C.AddItem(items, product), id) == ServerQuantity(MergeQuantity(m, (u, product.id), 1), u, id) {
      C.AddQuantity(items, product, id);
    }
  }

  /** removeFromCart: the filter and the DELETE agree. */
  lemma RemoveFromCartSynced(items: seq<CartItem>, m: map<Key, int>, u: int, id: int)
    requires CartSynced(items, m, u)
    ensures CartSynced(C.WithoutId(items, id), ApplyCart(m, u, [DeleteCart(id)]), u)
  {
    ApplyCartOne(m, u, DeleteCart(id));
    forall other ensures C.QuantityOf(C.WithoutId(items, id), other) == ServerQuantity(RemoveLine(m, (u, id)), u, other) {
      C.RemoveQuantity(items, id, other);
    }
  }

  /** updateQuantity: with distinct ids, the clamped quantity and the single PUT agree; an absent id
      sends nothing and changes nothing. */
  lemma UpdateQuantitySynced(items: seq<CartItem>, m: map<Key, int>, u: int, id: int, delta: int)
    requires C.DistinctIds(items) && CartSynced(items, m, u)
    ensures CartSynced(C.Clamped(items, id, delta), ApplyCart(m, u, C.ClampRequests(items, id, delta)), u)
  {
    C.ClampRequestsOne(items, id, delta);
    var q := C.QuantityOf(items, id);
    if q.Some? {
      ApplyCartOne(m, u, PutCart(id, C.AtLeastOne(q.value + delta)));
      assert (u, id) in m by { assert C.QuantityOf(items, id) == ServerQuantity(m, u, id); }
    }
    forall other ensures C.QuantityOf(C.Clamped(items, id, delta), other) == ServerQuantity(ApplyCart(m, u, C.ClampRequests(items, id, delta)), u, other) {
      C.ClampQuantity(items, id, delta, other);
      assert C.QuantityOf(items, other) == ServerQuantity(m, u, other);
    }
  }

  /** Without distinct ids updateQuantity can send two PUTs whose last one wins on the server while the
      client shows the first line: a concrete list on which the mirror and the table part ways. */
  lemma DuplicateLinesDiverge(p: Product, u: int)
    ensures var items := [CartItem(p, 1), CartItem(p, 5)];
      var m := map[(u, p.id) := 1];
      CartSynced(items, m, u) &&
      !CartSynced(C.Clamped(items, p.id, 1), ApplyCart(m, u, C.ClampRequests(items, p.id, 1)), u)
  {
    var items := [CartItem(p, 1), CartItem(p, 5)];
    var m := map[(u, p.id) := 1];
    assert items[1..] == [CartItem(p, 5)] && items[1..][1..] == [];
    forall id ensures C.QuantityOf(items, id) == ServerQuantity(m, u, id) {
      if id != p.id {
        assert C.QuantityOf(items[1..], id) == C.QuantityOf(items[1..][1..], id);
      }
    }
    var reqs := C.ClampRequests(items, p.id, 1);
    assert C.ClampRequests(items[1..], p.id, 1) == [PutCart(p.id, 6)] + C.ClampRequests(items[1..][1..], p.id, 1);
    assert reqs == [PutCart(p.id, 2), PutCart(p.id, 6)];
    assert reqs[..1] == [PutCart(p.id, 2)];
    ApplyCartOne(m, u, PutCart(p.id, 2));
    assert ApplyCart(m, u, reqs)[(u, p.id)] == 6;
    assert C.QuantityOf(C.Clamped(items, p.id, 1), p.id) == Some(2);
  }

  /** The optimistic update is never rolled back: if the POST is lost, the mirror no longer matches
      the table. */
  lemma LostAddDiverges(items: seq<CartItem>, m: map<Key, int>, u: int, product: Product)
    requires CartSynced(items, m, u)
    ensures !CartSynced(C.AddItem(items, product), m, u)
  {
    C.AddQuantity(items, product, product.id);
    assert C.QuantityOf(items, product.id) == ServerQuantity(m, u, product.id);
  }

  /** addToWishlist: a product already listed is already a pair (so skipping the POST loses nothing);
      otherwise the append and the POST agree. */
  lemma AddToWishlistSynced(items: seq<Product>, s: set<Key>, u: int, product: Product)
    requires W.DistinctProducts(items) && WishSynced(items, s, u)
    ensures W.Listed(items, product.id) ==> (u, product.id) in s
    ensures !W.Listed(items, product.id) ==>
      W.DistinctProducts(items + [product]) && WishSynced(items + [product], ApplyWish(s, u, [PostWishlist(product.id)]), u)
  {
    assert W.Listed(items, product.id) <==> (u, product.id) in s;
    if !W.Listed(items, product.id) {
      ApplyWishOne(s, u, PostWishlist(product.id));
      W.AddKeepsDistinct(items, product);
    }
  }

  /** removeFromWishlist: the filter and the DELETE agree. */
  lemma RemoveFromWishlistSynced(items: seq<Product>, s: set<Key>, u: int, id: int)
    requires WishSynced(items, s, u)
    ensures WishSynced(W.Unlisted(items, id), ApplyWish(s, u, [DeleteWishlist(id)]), u)
  {
    ApplyWishOne(s, u, DeleteWishlist(id));
    forall other ensures W.Listed(W.Unlisted(items, id), other) <==> (u, other) in s - {(u, id)} {
      W.UnlistedListed(items, id, other);
      assert W.Listed(items, other) <==> (u, other) in s;
    }
  }

  // ---- loading from the server starts the mirror in step ----

  /** For any tables, the lines GET /api/cart returns show the caller's quantity for every product that
      still exists, and nothing for a product that does not: the inner join drops a row whose product
      was deleted (the schema has no foreign key, so such rows remain). */
  lemma {:induction false} CartLinesQuantity(rows: seq<CartRow>, products: seq<Product>, u: int, id: int)
    ensures C.QuantityOf(CartLinesFor(rows, products, u), id) ==
      if ProductById(products, id).Some? then ServerQuantity(CartMap(rows), u, id) else None
  {
    if rows != [] {
      CartLinesQuantity(rows[1..], products, u, id);
    }
  }

  /** Hence the loaded lines are in step with the table when every product the caller has a row for
      still exists. */
  lemma LoadedCartSynced(rows: seq<CartRow>, products: seq<Product>, u: int, id: int)
    requires forall r :: r in rows && r.userId == u ==> ProductById(products, r.productId).Some?
    ensures C.QuantityOf(CartLinesFor(rows, products, u), id) == ServerQuantity(CartMap(rows), u, id)
  {
    CartLinesQuantity(rows, products, u, id);
    CartMapFind(rows, (u, id));
  }

  /** With rows unique per (user, product), the loaded lines have distinct product ids. */
  lemma {:induction false} LoadedCartDistinct(rows: seq<CartRow>, products: seq<Product>, u: int)
    requires CartKeysUnique(rows)
    ensures C.DistinctIds(CartLinesFor(rows, products, u))
  {
    if rows != [] {
      LoadedCartDistinct(rows[1..], products, u);
      var p := ProductById(products, rows[0].productId);
      if rows[0].userId == u && p.Some? {
        LoadedCartHas(rows[1..], products, u, rows[0].productId);
      }
    }
  }

  lemma {:induction false} LoadedCartHas(rows: seq<CartRow>, products: seq<Product>, u: int, id: int)
    ensures C.Has(CartLinesFor(rows, products, u), id) ==> (u, id) in CartMap(rows)
  {
    if rows != [] {
      LoadedCartHas(rows[1..], products, u, id);
    }
  }

  /** For any tables, GET /api/wishlist lists a product exactly when it still exists and the caller
      holds its pair. */
  lemma {:induction false} WishLinesListed(rows: seq<WishRow>, products: seq<Product>, u: int, id: int)
    ensures W.Listed(WishLinesFor(rows, products, u), id) <==> ProductById(products, id).Some? && (u, id) in WishSet(rows)
  {
    if rows != [] {
      WishLinesListed(rows[1..], products, u, id);
    }
  }

  /** Hence the loaded products are in step with the table under the same proviso as the cart. */
  lemma LoadedWishSynced(rows: seq<WishRow>, products: seq<Product>, u: int, id: int)
    requires forall r :: r in rows && r.userId == u ==> ProductById(products, r.productId).Some?
    ensures W.Listed(WishLinesFor(rows, products, u), id) <==> (u, id) in WishSet(rows)
  {
    WishLinesListed(rows, products, u, id);
    if (u, id) in WishSet(rows) {
      var r := WishRowOf(rows, (u, id));
      assert ProductById(products, r.productId).Some?;
    }
  }

  /** A pair of the set view comes from some row. */
  lemma {:induction false} WishRowOf(rows: seq<WishRow>, k: Key) returns (r: WishRow)
    requires k in WishSet(rows)
    ensures r in rows && WishKey(r) == k
  {
    if WishKey(rows[0]) == k {
      r := rows[0];
    } else {
      r := WishRowOf(rows[1..], k);
    }
  }

  lemma {:induction false} LoadedWishDistinct(rows: seq<WishRow>, products: seq<Product>, u: int)
    requires WishKeysUnique(rows)
    ensures W.DistinctProducts(WishLinesFor(rows, products, u))
  {
    if rows != [] {
      LoadedWishDistinct(rows[1..], products, u);
      var p := ProductById(products, rows[0].productId);
      if rows[0].userId == u && p.Some? {
        LoadedWishHas(rows[1..], products, u, rows[0].productId);
      }
    }
  }

  lemma {:induction false} LoadedWishHas(rows: seq<WishRow>, products: seq<Product>, u: int, id: int)
    ensures W.Listed(WishLinesFor(rows, products, u), id) ==> (u, id) in WishSet(rows)
  {
    if rows != [] {
      LoadedWishHas(rows[1..], products, u, id);
    }
  }

  // ---- the two sides run together ----

  /** The header the client sends: `Bearer ` and the stored token. */
  function Header(token: string): (r: Option<string>) {
    Some("Bearer " + token)
  }

  /** A token the client holds is accepted and names its claims. */
  lemma HeaderPasses(token: string, tokens: map<string, Claims>)
    requires token in tokens && token != "" && ' ' !in token
    ensures VerifyToken(Header(token), tokens) == Pass(tokens[token])
  {
    BearerHeaderRoundTrip(token);
  }

  /** Hand each request the client sent to its handler, in order. */
  method Deliver(store: Store, token: string, tokens: map<string, Claims>, reqs: seq<Request>)
    requires store.Valid() && token in tokens && token != "" && ' ' !in token
    modifies store
    ensures store.Valid()
    ensures CartMap(store.cart) == ApplyCart(old(CartMap(store.cart)), tokens[token].id, reqs)
    ensures WishSet(store.wishlist) == ApplyWish(old(WishSet(store.wishlist)), tokens[token].id, reqs)
  {
    HeaderPasses(token, tokens);
    var u := tokens[token].id;
    var i := 0;
    while i < |reqs|
      invariant 0 <= i <= |reqs| && store.Valid()
      invariant CartMap(store.cart) == ApplyCart(old(CartMap(store.cart)), u, reqs[..i])
      invariant WishSet(store.wishlist) == ApplyWish(old(WishSet(store.wishlist)), u, reqs[..i])
    {
      assert reqs[..i + 1][..i] == reqs[..i];
      var resp;
      match reqs[i] {
        case PostCart(p, q) => resp := store.PostCart(Header(token), tokens, p, q);
        case PutCart(p, q) => resp := store.PutCart(Header(token), tokens, p, q);
        case DeleteCart(p) => resp := store.DeleteCart(Header(token), tokens, p);
        case PostWishlist(p) => resp := store.PostWishlist(Header(token), tokens, p);
        case DeleteWishlist(p) => resp := store.DeleteWishlist(Header(token), tokens, p);
      }
      i := i + 1;
    }
    assert reqs[..i] == reqs;
  }

  /** The client's claim-holder and the store start in step and, after addToCart and the delivery of
      what it sent, are still in step. */
  method AddToCartRoundTrip(client: C.CartContext, store: Store, token: string, tokens: map<string, Claims>, product: Product)
    requires store.Valid() && client.signedIn && token in tokens && token != "" && ' ' !in token
    requires CartSynced(client.cartItems, CartMap(store.cart), tokens[token].id)
    modifies client, store
    ensures store.Valid() && CartSynced(client.cartItems, CartMap(store.cart), tokens[token].id)
  {
    ghost var items := client.cartItems;
    var before := |client.sent|;
    client.AddToCart(product);
    assert client.sent[before..] == [PostCart(product.id, 1)];
    Deliver(store, token, tokens, client.sent[before..]);
    AddToCartSynced(items, old(CartMap(store.cart)), tokens[token].id, product);
  }

  method RemoveFromCartRoundTrip(client: C.CartContext, store: Store, token: string, tokens: map<string, Claims>, id: int)
    requires store.Valid() && client.signedIn && token in tokens && token != "" && ' ' !in token
    requires CartSynced(client.cartItems, CartMap(store.cart), tokens[token].id)
    modifies client, store
    ensures store.Valid() && CartSynced(client.cartItems, CartMap(store.cart), tokens[token].id)
  {
    ghost var items := client.cartItems;
    var before := |client.sent|;
    client.RemoveFromCart(id);
    assert client.sent[before..] == [DeleteCart(id)];
    Deliver(store, token, tokens, client.sent[before..]);
    RemoveFromCartSynced(items, old(CartMap(store.cart)), tokens[token].id, id);
  }

  method UpdateQuantityRoundTrip(client: C.CartContext, store: Store, token: string, tokens: map<string, Claims>, id: int, delta: int)
    requires store.Valid() && client.signedIn && token in tokens && token != "" && ' ' !in token
    requires C.DistinctIds(client.cartItems)
    requires CartSynced(client.cartItems, CartMap(store.cart), tokens[token].id)
    modifies client, store
    ensures store.Valid() && C.DistinctIds(client.cartItems)
    ensures CartSynced(client.cartItems, CartMap(store.cart), tokens[token].id)
  {
    ghost var items := client.cartItems;
    var before := |client.sent|;
    client.UpdateQuantity(id, delta);
    assert client.sent[before..] == C.ClampRequests(items, id, delta);
    Deliver(store, token, tokens, client.sent[before..]);
    UpdateQuantitySynced(items, old(CartMap(store.cart)), tokens[token].id, id, delta);
    C.ClampKeepsDistinct(items, id, delta);
  }

  method AddToWishlistRoundTrip(client: W.WishlistContext, store: Store, token: string, tokens: map<string, Claims>, product: Product)
    requires store.Valid() && client.signedIn && token in tokens && token != "" && ' ' !in token
    requires W.DistinctProducts(client.wishlistItems)
    requires WishSynced(client.wishlistItems, WishSet(store.wishlist), tokens[token].id)
    modifies client, store
    ensures store.Valid() && W.DistinctProducts(client.wishlistItems)
    ensures WishSynced(client.wishlistItems, WishSet(store.wishlist), tokens[token].id)
  {
    ghost var items := client.wishlistItems;
    var before := |client.sent|;
    AddToWishlistSynced(items, WishSet(store.wishlist), tokens[token].id, product);
    client.AddToWishlist(product);
    if W.Listed(items, product.id) {
      assert client.sent[before..] == [];
    } else {
      assert client.sent[before..] == [PostWishlist(product.id)];
    }
    Deliver(store, token, tokens, client.sent[before..]);
  }

  method RemoveFromWishlistRoundTrip(client: W.WishlistContext, store: Store, token: string, tokens: map<string, Claims>, id: int)
    requires store.Valid() && client.signedIn && token in tokens && token != "" && ' ' !in token
    requires W.DistinctProducts(client.wishlistItems)
    requires WishSynced(client.wishlistItems, WishSet(store.wishlist), tokens[token].id)
    modifies client, store
    ensures store.Valid() && W.DistinctProducts(client.wishlistItems)
    ensures WishSynced(client.wishlistItems, WishSet(store.wishlist), tokens[token].id)
  {
    ghost var items := client.wishlistItems;
    var before := |client.sent|;
    client.RemoveFromWishlist(id);
    assert client.sent[before..] == [DeleteWishlist(id)];
    Deliver(store, token, tokens, client.sent[before..]);
    RemoveFromWishlistSynced(items, old(WishSet(store.wishlist)), tokens[token].id, id);
    W.RemoveKeepsDistinct(items, id);
  }
}
