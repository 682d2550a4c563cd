/** The REST handlers of server.cjs over the abstract tables: registration, and
    the cart and wishlist endpoints, each a method of the store that runs the
    same statements in the same order as the handler, behind `verifyToken`. */
module Server {
  import opened Wrappers
  import opened Schema
  import opened Api
  import opened Auth

  // ---- what each list handler does to the table view ----

  /** POST /api/cart: an existing line grows by the quantity sent, a missing one starts at it. */
  function MergeQuantity(m: map<Key, int>, k: Key, q: int): (r: map<Key, int>)
    ensures r.Keys == m.Keys + {k}
    ensures r[k] == if k in m then m[k] + q else q
    ensures forall k' :: k' in m && k' != k ==> r[k'] == m[k']
  {
    m[k := if k in m then m[k] + q else q]
  }

  /** PUT /api/cart/:productId: the quantity sent replaces an existing line; nothing is created. */
  function OverwriteQuantity(m: map<Key, int>, k: Key, q: int): (r: map<Key, int>)
    ensures r.Keys == m.Keys
    ensures k in m ==> r[k] == q
    ensures forall k' :: k' in m && k' != k ==> r[k'] == m[k']
  {
    if k in m then m[k := q] else m
  }

  /** DELETE /api/cart/:productId: the line goes, if it was there. */
  function RemoveLine(m: map<Key, int>, k: Key): (r: map<Key, int>)
    ensures r.Keys == m.Keys - {k}
    ensures forall k' :: k' in r ==> r[k'] == m[k']
  {
    m - {k}
  }

  /** The lines of `GET /api/cart`: the caller's rows joined with their products, in table order;
      a row whose product no longer exists drops out of the inner join. */
  function CartLinesFor(rows: seq<CartRow>, products: seq<Product>, u: int): (lines: seq<CartItem>)
    ensures |lines| <= |rows|
    ensures forall l :: l in lines ==> l.product in products && (u, l.product.id) in CartMap(rows)
  {
    if rows == [] then []
    else
      var rest := CartLinesFor(rows[1..], products, u);
      var p := ProductById(products, rows[0].productId);
      if rows[0].userId == u && p.Some? then [CartItem(p.value, rows[0].quantity)] + rest else rest
  }

  /** The products of `GET /api/wishlist`, joined the same way. */
  function WishLinesFor(rows: seq<WishRow>, products: seq<Product>, u: int): (lines: seq<Product>)
    ensures |lines| <= |rows|
    ensures forall p :: p in lines ==> p in products && (u, p.id) in WishSet(rows)
  {
    if rows == [] then []
    else
      var rest := WishLinesFor(rows[1..], products, u);
      var p := ProductById(products, rows[0].productId);
      if rows[0].userId == u && p.Some? then [p.value] + rest else rest
  }

  /** The update branch of POST /api/cart, on the rows: adding to the row found by (user, product),
      by its id, merges the quantity, keeps the row count and the other rows, and keeps the constraints. */
  lemma MergeIntoExisting(rows: seq<CartRow>, next: int, k: Key, q: int)
    requires CartKeysUnique(rows) && CartIdsBetween(rows, 0, next)
    requires CartRowFor(rows, k).Some?
    ensures var row := CartRowFor(rows, k).value;
      var rows' := SetQuantityWhereId(rows, row.id, row.quantity + q);
      CartKeysUnique(rows') && CartIdsBetween(rows', 0, next) &&
      k in CartMap(rows) && CartMap(rows') == MergeQuantity(CartMap(rows), k, q) &&
      |rows'| == |rows| && CartRowsOtherThan(rows', k) == CartRowsOtherThan(rows, k)
  {
    var row := CartRowFor(rows, k).value;
    var nq := row.quantity + q;
    CartMapFind(rows, k);
    SetWhereIdIsSetWhereKey(rows, 0, next, k, nq);
    CartMapSetKey(rows, k, nq);
    SetKeyKeepsOthers(rows, k, nq);
    SetKeyKeepsUnique(rows, 0, next, k, nq);
  }

  /** The insert branch of POST /api/cart, on the rows. */
  lemma MergeAsNewRow(rows: seq<CartRow>, next: int, row: CartRow)
    requires CartKeysUnique(rows) && CartIdsBetween(rows, 0, next)
    requires CartRowFor(rows, CartKey(row)).None? && row.id == next
    ensures CartKeysUnique(rows + [row]) && CartIdsBetween(rows + [row], 0, next + 1)
    ensures CartKey(row) !in CartMap(rows)
    ensures CartMap(rows + [row]) == MergeQuantity(CartMap(rows), CartKey(row), row.quantity)
    ensures CartRowsOtherThan(rows + [row], CartKey(row)) == CartRowsOtherThan(rows, CartKey(row))
  {
    CartMapFind(rows, CartKey(row));
    CartMapAppend(rows, row);
    AppendCartKeepsOthers(rows, row);
    AppendCartKeepsUnique(rows, 0, next, row);
  }

  const FieldsRequired := Response(400, Error("All fields required"))
  const EmailExists := Response(400, Error("Email already exists"))
  const Ok := Response(200, Success)

  /** The store: the four tables and the next AUTOINCREMENT id of each table the handlers insert into. */
  class Store {
    var users: seq<User>
    var products: seq<Product>
    var cart: seq<CartRow>
    var wishlist: seq<WishRow>
    var nextUserId: int
    var nextCartId: int
    var nextWishId: int

    /** The schema's constraints (db.cjs): unique emails, unique ids, unique (user, product) pairs. */
    ghost predicate Valid()
      reads this
    {
      EmailsUnique(users) && UserIdsBetween(users, 0, nextUserId) && ProductIdsUnique(products) &&
      CartKeysUnique(cart) && CartIdsBetween(cart, 0, nextCartId) &&
      WishKeysUnique(wishlist) && WishIdsBetween(wishlist, 0, nextWishId)
    }

    /** Freshly created tables around a seeded catalogue. */
    constructor (catalogue: seq<Product>)
      requires ProductIdsUnique(catalogue)
      ensures Valid()
      ensures users == [] && products == catalogue && cart == [] && wishlist == []
    {
      users, products, cart, wishlist := [], catalogue, [], [];
      nextUserId, nextCartId, nextWishId := 1, 1, 1;
    }

    /** `POST /api/register`: a missing or empty field gives 400 before anything is written; the role
        follows the substring rule; an email already in the table makes the INSERT violate its UNIQUE
        constraint, reported as 400 'Email already exists'; otherwise one row is added and a session
        is returned with 201. `digest` is what bcrypt produced for the password. */
    method Register(name: Option<string>, email: Option<string>, password: Option<string>, digest: string)
      returns (resp: Response)
      requires Valid()
      modifies this
      ensures Valid()
      ensures products == old(products) && cart == old(cart) && wishlist == old(wishlist)
      ensures nextCartId == old(nextCartId) && nextWishId == old(nextWishId)
      ensures !(Present(name) && Present(email) && Present(password)) ==>
        resp == FieldsRequired && users == old(users) && nextUserId == old(nextUserId)
      ensures Present(name) && Present(email) && Present(password) && UserByEmail(old(users), email.value).Some? ==>
        resp == EmailExists && users == old(users) && nextUserId == old(nextUserId)
      ensures Present(name) && Present(email) && Present(password) && UserByEmail(old(users), email.value).None? ==>
        var u := User(old(nextUserId), name.value, email.value, digest, RoleFor(email.value));
        users == old(users) + [u] && nextUserId == old(nextUserId) + 1 &&
        resp == Response(201, Session(ClaimsOf(u), UserView(u)))
    {
      if !Present(name) || !Present(email) || !Present(password) {
        return FieldsRequired;
      }
      var role := RoleFor(email.value);
      if UserByEmail(users, email.value).Some? {
        return EmailExists;
      }
      var u := User(nextUserId, name.value, email.value, digest, role);
      AppendUser(users, 0, nextUserId, u);
      users := users + [u];
      nextUserId := nextUserId + 1;
      resp := Response(201, Session(ClaimsOf(u), UserView(u)));
    }

    /** `GET /api/cart`: the caller's lines; reads only. */
    method GetCart(header: Option<string>, tokens: map<string, Claims>) returns (resp: Response)
      ensures VerifyToken(header, tokens).Deny? ==> resp == VerifyToken(header, tokens).response
      ensures VerifyToken(header, tokens).Pass? ==>
        resp == Response(200, CartLines(CartLinesFor(cart, products, VerifyToken(header, tokens).user.id)))
    {
      var gate := VerifyToken(header, tokens);
      if gate.Deny? {
        return gate.response;
      }
      resp := Response(200, CartLines(CartLinesFor(cart, products, gate.user.id)));
    }

    /** `POST /api/cart`: read the caller's row for the product, then either add the quantity sent to it
        (by row id) or insert a row with that quantity. The quantity is taken as sent: the server never
        checks that it is at least 1. */
    method PostCart(header: Option<string>, tokens: map<string, Claims>, productId: int, quantity: int)
      returns (resp: Response)
      requires Valid()
      modifies this
      ensures Valid()
      ensures users == old(users) && products == old(products) && wishlist == old(wishlist)
      ensures nextUserId == old(nextUserId) && nextWishId == old(nextWishId)
      ensures VerifyToken(header, tokens).Deny? ==>
        resp == VerifyToken(header, tokens).response && cart == old(cart) && nextCartId == old(nextCartId)
      ensures VerifyToken(header, tokens).Pass? ==>
        var k := (VerifyToken(header, tokens).user.id, productId);
        resp == Ok &&
        CartMap(cart) == MergeQuantity(old(CartMap(cart)), k, quantity) &&
        |cart| == |old(cart)| + (if k in old(CartMap(cart)) then 0 else 1) &&
        CartRowsOtherThan(cart, k) == CartRowsOtherThan(old(cart), k)
    {
      var gate := VerifyToken(header, tokens);
      if gate.Deny? {
        return gate.response;
      }
      var k := (gate.user.id, productId);
      var row := CartRowFor(cart, k);
      if row.Some? {
        var newQuantity := row.value.quantity + quantity;
        MergeIntoExisting(cart, nextCartId, k, quantity);
        cart := SetQuantityWhereId(cart, row.value.id, newQuantity);
      } else {
        var inserted := CartRow(nextCartId, gate.user.id, productId, quantity);
        MergeAsNewRow(cart, nextCartId, inserted);
        cart := cart + [inserted];
        nextCartId := nextCartId + 1;
      }
      resp := Ok;
    }

    /** `PUT /api/cart/:productId`: overwrite the quantity of the caller's row for the product; when
        there is none, zero rows change and the answer is still success. No clamp on the quantity. */
    method PutCart(header: Option<string>, tokens: map<string, Claims>, productId: int, quantity: int)
      returns (resp: Response)
      requires Valid()
      modifies this
      ensures Valid()
      ensures users == old(users) && products == old(products) && wishlist == old(wishlist)
      ensures nextUserId == old(nextUserId) && nextCartId == old(nextCartId) && nextWishId == old(nextWishId)
      ensures VerifyToken(header, tokens).Deny? ==> resp == VerifyToken(header, tokens).response && cart == old(cart)
      ensures VerifyToken(header, tokens).Pass? ==>
        var k := (VerifyToken(header, tokens).user.id, productId);
        resp == Ok &&
        CartMap(cart) == OverwriteQuantity(old(CartMap(cart)), k, quantity) &&
        |cart| == |old(cart)| &&
        (k !in old(CartMap(cart)) ==> cart == old(cart)) &&
        CartRowsOtherThan(cart, k) == CartRowsOtherThan(old(cart), k)
    {
      var gate := VerifyToken(header, tokens);
      if gate.Deny? {
        return gate.response;
      }
      var k := (gate.user.id, productId);
      CartMapSetKey(cart, k, quantity);
      SetKeyKeepsOthers(cart, k, quantity);
      if k !in CartMap(cart) {
        SetKeyAbsent(cart, k, quantity);
      }
      SetKeyKeepsUnique(cart, 0, nextCartId, k, quantity);
      cart := SetQuantityWhereKey(cart, k, quantity);
      resp := Ok;
    }

    /** `DELETE /api/cart/:productId`: remove the caller's row for the product, if any; success either way. */
    method DeleteCart(header: Option<string>, tokens: map<string, Claims>, productId: int)
      returns (resp: Response)
      requires Valid()
      modifies this
      ensures Valid()
      ensures users == old(users) && products == old(products) && wishlist == old(wishlist)
      ensures nextUserId == old(nextUserId) && nextCartId == old(nextCartId) && nextWishId == old(nextWishId)
      ensures VerifyToken(header, tokens).Deny? ==> resp == VerifyToken(header, tokens).response && cart == old(cart)
      ensures VerifyToken(header, tokens).Pass? ==>
        var k := (VerifyToken(header, tokens).user.id, productId);
        resp == Ok &&
        CartMap(cart) == RemoveLine(old(CartMap(cart)), k) &&
        CartRowsOtherThan(cart, k) == CartRowsOtherThan(old(cart), k)
    {
      var gate := VerifyToken(header, tokens);
      if gate.Deny? {
        return gate.response;
      }
      var k := (gate.user.id, productId);
      CartMapDelete(cart, k);
      DeleteCartKeepsOthers(cart, k);
      DeleteCartKeepsUnique(cart, 0, nextCartId, k);
      cart := DeleteCartWhereKey(cart, k);
      resp := Ok;
    }

    /** `GET /api/wishlist`: the caller's products; reads only. */
    method GetWishlist(header: Option<string>, tokens: map<string, Claims>) returns (resp: Response)
      ensures VerifyToken(header, tokens).Deny? ==> resp == VerifyToken(header, tokens).response
      ensures VerifyToken(header, tokens).Pass? ==>
        resp == Response(200, WishLines(WishLinesFor(wishlist, products, VerifyToken(header, tokens).user.id)))
    {
      var gate := VerifyToken(header, tokens);
      if gate.Deny? {
        return gate.response;
      }
      resp := Response(200, WishLines(WishLinesFor(wishlist, products, gate.user.id)));
    }

    /** `POST /api/wishlist`: INSERT OR IGNORE, so a pair already present stays a single row and the
        answer is success all the same. */
    method PostWishlist(header: Option<string>, tokens: map<string, Claims>, productId: int)
      returns (resp: Response)
      requires Valid()
      modifies this
      ensures Valid()
      ensures users == old(users) && products == old(products) && cart == old(cart)
      ensures nextUserId == old(nextUserId) && nextCartId == old(nextCartId)
      ensures VerifyToken(header, tokens).Deny? ==>
        resp == VerifyToken(header, tokens).response && wishlist == old(wishlist) && nextWishId == old(nextWishId)
      ensures VerifyToken(header, tokens).Pass? ==>
        var k := (VerifyToken(header, tokens).user.id, productId);
        resp == Ok &&
        WishSet(wishlist) == old(WishSet(wishlist)) + {k} &&
        (k in old(WishSet(wishlist)) ==> wishlist == old(wishlist)) &&
        (k !in old(WishSet(wishlist)) ==> wishlist == old(wishlist) + [WishRow(old(nextWishId), k.0, k.1)])
    {
      var gate := VerifyToken(header, tokens);
      if gate.Deny? {
        return gate.response;
      }
      var k := (gate.user.id, productId);
      if k !in WishSet(wishlist) {
        var inserted := WishRow(nextWishId, gate.user.id, productId);
        WishSetAppend(wishlist, inserted);
        AppendWishKeepsUnique(wishlist, 0, nextWishId, inserted);
        wishlist := wishlist + [inserted];
        nextWishId := nextWishId + 1;
      }
      resp := Ok;
    }

    /** `DELETE /api/wishlist/:productId`: remove the caller's pair, if any; success either way. */
    method DeleteWishlist(header: Option<string>, tokens: map<string, Claims>, productId: int)
      returns (resp: Response)
      requires Valid()
      modifies this
      ensures Valid()
      ensures users == old(users) && products == old(products) && cart == old(cart)
      ensures nextUserId == old(nextUserId) && nextCartId == old(nextCartId) && nextWishId == old(nextWishId)
      ensures VerifyToken(header, tokens).Deny? ==> resp == VerifyToken(header, tokens).response && wishlist == old(wishlist)
      ensures VerifyToken(header, tokens).Pass? ==>
        var k := (VerifyToken(header, tokens).user.id, productId);
        resp == Ok &&
        WishSet(wishlist) == old(WishSet(wishlist)) - {k} &&
        WishRowsOtherThan(wishlist, k) == WishRowsOtherThan(old(wishlist), k)
    {
      var gate := VerifyToken(header, tokens);
      if gate.Deny? {
        return gate.response;
      }
      var k := (gate.user.id, productId);
      WishSetDelete(wishlist, k);
      DeleteWishKeepsOthers(wishlist, k);
      DeleteWishKeepsUnique(wishlist, 0, nextWishId, k);
      wishlist := DeleteWishWhereKey(wishlist, k);
      resp := Ok;
    }
  }

  /** A user who just registered can log in with the password whose digest was stored: the session
      is the one registration returned, with the role fixed at registration; a wrong password gets the
      common failure; every other email logs in as before. */
  lemma RegisterThenLogin(users: seq<User>, next: int, u: User, password: string, matches: (string, string) -> bool)
    requires EmailsUnique(users) && UserIdsBetween(users, 0, next)
    requires UserByEmail(users, u.email).None? && u.id == next
    ensures Login(users + [u], Some(u.email), password, matches) ==
      if matches(password, u.password) then Response(200, Session(ClaimsOf(u), UserView(u))) else InvalidCredentials
    ensures forall e :: e != u.email ==> Login(users + [u], Some(e), password, matches) == Login(users, Some(e), password, matches)
  {
    AppendUser(users, 0, next, u);
  }

  /** Adding 2 and then 3 of a product the caller has no line for leaves one new row holding 5. */
  method AddTwoThenThree(store: Store, header: Option<string>, tokens: map<string, Claims>, productId: int)
    requires store.Valid() && VerifyToken(header, tokens).Pass?
    requires (VerifyToken(header, tokens).user.id, productId) !in CartMap(store.cart)
    modifies store
    ensures store.Valid()
    ensures CartMap(store.cart) == old(CartMap(store.cart))[(VerifyToken(header, tokens).user.id, productId) := 5]
    ensures |store.cart| == |old(store.cart)| + 1
  {
    var first := store.PostCart(header, tokens, productId, 2);
    var second := store.PostCart(header, tokens, productId, 3);
  }
}
