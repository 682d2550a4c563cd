/** The relational store as abstract tables: the rows of `users`, `products`,
    `cart_items` and `wishlist_items`, the SQL statements the handlers issue,
    written as functions on the rows, and the constraints of the schema in
    db.cjs (unique emails, unique (user_id, product_id) pairs, AUTOINCREMENT
    ids) as predicates. */
module Schema {
  import opened Wrappers

  datatype User = User(id: int, name: string, email: string, password: string, role: string)
  datatype Product = Product(id: int, name: string, description: string, price: int, reviews: int, image: string)
  datatype CartRow = CartRow(id: int, userId: int, productId: int, quantity: int)
  datatype WishRow = WishRow(id: int, userId: int, productId: int)

  /** The (user_id, product_id) pair that both list tables are unique on. */
  type Key = (int, int)

  function CartKey(r: CartRow): Key { (r.userId, r.productId) }
  function WishKey(r: WishRow): Key { (r.userId, r.productId) }

  // ---- SELECT ... (first matching row) ----

  /** `db.get`: the first row, in table order, that satisfies the WHERE clause. */
  function Find<T>(rows: seq<T>, where: T -> bool): (r: Option<T>)
    ensures r.Some? ==> r.value in rows && where(r.value)
    ensures r.None? ==> forall x :: x in rows ==> !where(x)
  {
    if rows == [] then None
    else if where(rows[0]) then Some(rows[0])
    else Find(rows[1..], where)
  }

  /** `SELECT * FROM users WHERE email = ?` */
  function UserByEmail(users: seq<User>, email: string): (r: Option<User>) {
    Find(users, (u: User) => u.email == email)
  }

  /** `SELECT ... FROM users WHERE id = ?` */
  function UserById(users: seq<User>, id: int): (r: Option<User>) {
    Find(users, (u: User) => u.id == id)
  }

  /** The product row that a join on `product_id = p.id` picks up. */
  function ProductById(products: seq<Product>, id: int): (r: Option<Product>) {
    Find(products, (p: Product) => p.id == id)
  }

  /** `SELECT * FROM cart_items WHERE user_id = ? AND product_id = ?` */
  function CartRowFor(rows: seq<CartRow>, k: Key): (r: Option<CartRow>) {
    Find(rows, (x: CartRow) => CartKey(x) == k)
  }

  // ---- abstract views of the list tables ----

  /** The cart table as a map from (user, product) to quantity; the first row of a key wins, as `db.get` does. */
  function CartMap(rows: seq<CartRow>): (r: map<Key, int>) {
    if rows == [] then map[] else CartMap(rows[1..])[CartKey(rows[0]) := rows[0].quantity]
  }

  /** The wishlist table as the set of (user, product) pairs it holds. */
  function WishSet(rows: seq<WishRow>): (r: set<Key>) {
    if rows == [] then {} else {WishKey(rows[0])} + WishSet(rows[1..])
  }

  // ---- constraints of the schema ----

  /** `email TEXT UNIQUE` on users: no email occurs twice. */
  predicate EmailsUnique(users: seq<User>) {
    users == [] || (UserByEmail(users[1..], users[0].email).None? && EmailsUnique(users[1..]))
  }

  /** `UNIQUE(user_id, product_id)` on cart_items. */
  predicate CartKeysUnique(rows: seq<CartRow>) {
    rows == [] || (CartKey(rows[0]) !in CartMap(rows[1..]) && CartKeysUnique(rows[1..]))
  }

  /** `UNIQUE(user_id, product_id)` on wishlist_items. */
  predicate WishKeysUnique(rows: seq<WishRow>) {
    rows == [] || (WishKey(rows[0]) !in WishSet(rows[1..]) && WishKeysUnique(rows[1..]))
  }

  /** `id INTEGER PRIMARY KEY`: no product id occurs twice. */
  predicate ProductIdsUnique(products: seq<Product>) {
    products == [] || (ProductById(products[1..], products[0].id).None? && ProductIdsUnique(products[1..]))
  }

  /** `id INTEGER PRIMARY KEY AUTOINCREMENT`: rows are appended with ever larger ids, so along the
      table the ids rise strictly, all above `lo` and below `hi`, the next id to be handed out. */
  predicate UserIdsBetween(users: seq<User>, lo: int, hi: int) {
    if users == [] then lo < hi else lo < users[0].id && UserIdsBetween(users[1..], users[0].id, hi)
  }

  predicate CartIdsBetween(rows: seq<CartRow>, lo: int, hi: int) {
    if rows == [] then lo < hi else lo < rows[0].id && CartIdsBetween(rows[1..], rows[0].id, hi)
  }

  predicate WishIdsBetween(rows: seq<WishRow>, lo: int, hi: int) {
    if rows == [] then lo < hi else lo < rows[0].id && WishIdsBetween(rows[1..], rows[0].id, hi)
  }

  // ---- UPDATE / INSERT / DELETE ----

  /** `UPDATE cart_items SET quantity = ? WHERE id = ?` */
  function SetQuantityWhereId(rows: seq<CartRow>, id: int, q: int): (r: seq<CartRow>)
    ensures |r| == |rows|
  {
    if rows == [] then []
    else [if rows[0].id == id then rows[0].(quantity := q) else rows[0]] + SetQuantityWhereId(rows[1..], id, q)
  }

  /** `UPDATE cart_items SET quantity = ? WHERE user_id = ? AND product_id = ?` */
  function SetQuantityWhereKey(rows: seq<CartRow>, k: Key, q: int): (r: seq<CartRow>)
    ensures |r| == |rows|
  {
    if rows == [] then []
    else [if CartKey(rows[0]) == k then rows[0].(quantity := q) else rows[0]] + SetQuantityWhereKey(rows[1..], k, q)
  }

  /** `DELETE FROM cart_items WHERE user_id = ? AND product_id = ?` */
  function DeleteCartWhereKey(rows: seq<CartRow>, k: Key): (r: seq<CartRow>)
    ensures |r| <= |rows|
  {
    if rows == [] then []
    else if CartKey(rows[0]) == k then DeleteCartWhereKey(rows[1..], k)
    else [rows[0]] + DeleteCartWhereKey(rows[1..], k)
  }

  /** `DELETE FROM wishlist_items WHERE user_id = ? AND product_id = ?` */
  function DeleteWishWhereKey(rows: seq<WishRow>, k: Key): (r: seq<WishRow>)
    ensures |r| <= |rows|
  {
    if rows == [] then []
    else if WishKey(rows[0]) == k then DeleteWishWhereKey(rows[1..], k)
    else [rows[0]] + DeleteWishWhereKey(rows[1..], k)
  }

  /** The rows whose key is not `k`, in table order: what a statement keyed on `k` must leave alone. */
  function CartRowsOtherThan(rows: seq<CartRow>, k: Key): (r: seq<CartRow>) {
    if rows == [] then []
    else if CartKey(rows[0]) == k then CartRowsOtherThan(rows[1..], k)
    else [rows[0]] + CartRowsOtherThan(rows[1..], k)
  }

  function WishRowsOtherThan(rows: seq<WishRow>, k: Key): (r: seq<WishRow>) {
    if rows == [] then []
    else if WishKey(rows[0]) == k then WishRowsOtherThan(rows[1..], k)
    else [rows[0]] + WishRowsOtherThan(rows[1..], k)
  }

  /** How many rows carry the key: the constraint keeps this at most one. */
  function CartRowCount(rows: seq<CartRow>, k: Key): (r: nat) {
    if rows == [] then 0 else (if CartKey(rows[0]) == k then 1 else 0) + CartRowCount(rows[1..], k)
  }

  function WishRowCount(rows: seq<WishRow>, k: Key): (r: nat) {
    if rows == [] then 0 else (if WishKey(rows[0]) == k then 1 else 0) + WishRowCount(rows[1..], k)
  }

  // ---- users ----

  /** Under the constraint, looking a stored user up by email finds that very row. */
  lemma {:induction false} UserByEmailFinds(users: seq<User>, u: User)
    requires EmailsUnique(users) && u in users
    ensures UserByEmail(users, u.email) == Some(u)
  {
    if users[0] != u {
      assert u in users[1..];
      UserByEmailFinds(users[1..], u);
    }
  }

  /** Appending a user whose email is new: the constraint still holds and the lookup of the new
      email finds the new row, while other lookups are as before. */
  lemma {:induction false} AppendUser(users: seq<User>, lo: int, next: int, u: User)
    requires EmailsUnique(users) && UserIdsBetween(users, lo, next)
    requires UserByEmail(users, u.email).None? && u.id == next
    ensures EmailsUnique(users + [u]) && UserIdsBetween(users + [u], lo, next + 1)
    ensures forall e :: UserByEmail(users + [u], e) == if e == u.email then Some(u) else UserByEmail(users, e)
  {
    if users == [] {
      assert users + [u] == [u];
    } else {
      assert (users + [u])[1..] == users[1..] + [u];
      AppendUser(users[1..], users[0].id, next, u);
      forall e ensures UserByEmail(users + [u], e) == if e == u.email then Some(u) else UserByEmail(users, e) {
        assert UserByEmail(users + [u], e) == if users[0].email == e then Some(users[0]) else UserByEmail(users[1..] + [u], e);
        assert UserByEmail(users, e) == if users[0].email == e then Some(users[0]) else UserByEmail(users[1..], e);
      }
    }
  }

  // ---- cart rows ----

  /** The map view holds a key exactly when `SELECT ... WHERE user_id = ? AND product_id = ?` finds a row, with that row's quantity. */
  lemma {:induction false} CartMapFind(rows: seq<CartRow>, k: Key)
    ensures k in CartMap(rows) <==> CartRowFor(rows, k).Some?
    ensures k in CartMap(rows) ==> CartMap(rows)[k] == CartRowFor(rows, k).value.quantity
  {
    if rows != [] {
      CartMapFind(rows[1..], k);
    }
  }

  /** `UPDATE ... WHERE user_id = ? AND product_id = ?` overwrites the key's quantity when the key is present and changes nothing otherwise. */
  lemma {:induction false} CartMapSetKey(rows: seq<CartRow>, k: Key, q: int)
    ensures CartMap(SetQuantityWhereKey(rows, k, q)) ==
      if k in CartMap(rows) then CartMap(rows)[k := q] else CartMap(rows)
  {
    if rows != [] {
      CartMapSetKey(rows[1..], k, q);
      assert SetQuantityWhereKey(rows, k, q)[1..] == SetQuantityWhereKey(rows[1..], k, q);
    }
  }

  /** An update keyed on a pair that has no row changes no row at all. */
  lemma {:induction false} SetKeyAbsent(rows: seq<CartRow>, k: Key, q: int)
    requires k !in CartMap(rows)
    ensures SetQuantityWhereKey(rows, k, q) == rows
  {
    if rows != [] {
      SetKeyAbsent(rows[1..], k, q);
    }
  }

  lemma {:induction false} CartIdsWeaken(rows: seq<CartRow>, lo: int, lo': int, hi: int)
    requires CartIdsBetween(rows, lo, hi) && lo' <= lo
    ensures CartIdsBetween(rows, lo', hi)
  {
  }

  /** An update by id changes nothing when every id is above it. */
  lemma {:induction false} SetIdBelowAll(rows: seq<CartRow>, lo: int, hi: int, id: int, q: int)
    requires CartIdsBetween(rows, lo, hi) && id <= lo
    ensures SetQuantityWhereId(rows, id, q) == rows
  {
    if rows != [] {
      SetIdBelowAll(rows[1..], rows[0].id, hi, id, q);
    }
  }

  /** Under the schema's constraints, updating by the id of the row found for a key touches exactly the rows of that key. */
  lemma {:induction false} SetWhereIdIsSetWhereKey(rows: seq<CartRow>, lo: int, hi: int, k: Key, q: int)
    requires CartKeysUnique(rows) && CartIdsBetween(rows, lo, hi)
    requires CartRowFor(rows, k).Some?
    ensures SetQuantityWhereId(rows, CartRowFor(rows, k).value.id, q) == SetQuantityWhereKey(rows, k, q)
  {
    var r := CartRowFor(rows, k).value;
    if CartKey(rows[0]) == k {
      SetIdBelowAll(rows[1..], rows[0].id, hi, r.id, q);
      SetKeyAbsent(rows[1..], k, q);
    } else {
      SetWhereIdIsSetWhereKey(rows[1..], rows[0].id, hi, k, q);
      assert r in rows[1..];
      CartIdsAbove(rows[1..], rows[0].id, hi, r);
    }
  }

  lemma {:induction false} CartIdsAbove(rows: seq<CartRow>, lo: int, hi: int, r: CartRow)
    requires CartIdsBetween(rows, lo, hi) && r in rows
    ensures lo < r.id < hi
  {
    if rows[0] != r {
      assert r in rows[1..];
      CartIdsAbove(rows[1..], rows[0].id, hi, r);
    } else if rows[1..] != [] {
      CartIdsAbove(rows[1..], rows[0].id, hi, rows[1..][0]);
    }
  }

  /** Inserting a row for a key not yet present adds that key with the row's quantity. */
  lemma {:induction false} CartMapAppend(rows: seq<CartRow>, row: CartRow)
    requires CartKey(row) !in CartMap(rows)
    ensures CartMap(rows + [row]) == CartMap(rows)[CartKey(row) := row.quantity]
  {
    if rows == [] {
      assert rows + [row] == [row];
    } else {
      assert (rows + [row])[1..] == rows[1..] + [row];
      CartMapAppend(rows[1..], row);
    }
  }

  /** Inserting a row whose key is absent, with the next id, keeps the constraints. */
  lemma {:induction false} AppendCartKeepsUnique(rows: seq<CartRow>, lo: int, next: int, row: CartRow)
    requires CartKeysUnique(rows) && CartIdsBetween(rows, lo, next)
    requires row.id == next && CartKey(row) !in CartMap(rows)
    ensures CartKeysUnique(rows + [row]) && CartIdsBetween(rows + [row], lo, next + 1)
  {
    if rows == [] {
      assert rows + [row] == [row];
    } else {
      assert (rows + [row])[1..] == rows[1..] + [row];
      CartMapAppend(rows[1..], row);
      AppendCartKeepsUnique(rows[1..], rows[0].id, next, row);
    }
  }

  /** Overwriting quantities keeps every key and every id where it was. */
  lemma {:induction false} SetKeyKeepsUnique(rows: seq<CartRow>, lo: int, hi: int, k: Key, q: int)
    requires CartKeysUnique(rows) && CartIdsBetween(rows, lo, hi)
    ensures CartKeysUnique(SetQuantityWhereKey(rows, k, q)) && CartIdsBetween(SetQuantityWhereKey(rows, k, q), lo, hi)
  {
    if rows != [] {
      SetKeyKeepsUnique(rows[1..], rows[0].id, hi, k, q);
      CartMapSetKey(rows[1..], k, q);
      assert SetQuantityWhereKey(rows, k, q)[1..] == SetQuantityWhereKey(rows[1..], k, q);
    }
  }

  /** `DELETE ... WHERE user_id = ? AND product_id = ?` removes the key from the view and nothing else. */
  lemma {:induction false} CartMapDelete(rows: seq<CartRow>, k: Key)
    ensures CartMap(DeleteCartWhereKey(rows, k)) == CartMap(rows) - {k}
  {
    if rows != [] {
      CartMapDelete(rows[1..], k);
    }
  }

  /** Deleting keeps the constraints. */
  lemma {:induction false} DeleteCartKeepsUnique(rows: seq<CartRow>, lo: int, hi: int, k: Key)
    requires CartKeysUnique(rows) && CartIdsBetween(rows, lo, hi)
    ensures CartKeysUnique(DeleteCartWhereKey(rows, k)) && CartIdsBetween(DeleteCartWhereKey(rows, k), lo, hi)
  {
    if rows != [] {
      DeleteCartKeepsUnique(rows[1..], rows[0].id, hi, k);
      CartMapDelete(rows[1..], k);
      if CartKey(rows[0]) == k {
        CartIdsWeaken(DeleteCartWhereKey(rows[1..], k), rows[0].id, lo, hi);
      }
    }
  }

  /** A statement keyed on `k` that only overwrites quantities leaves every row of another key as it was, in order. */
  lemma {:induction false} SetKeyKeepsOthers(rows: seq<CartRow>, k: Key, q: int)
    ensures CartRowsOtherThan(SetQuantityWhereKey(rows, k, q), k) == CartRowsOtherThan(rows, k)
  {
    if rows != [] {
      SetKeyKeepsOthers(rows[1..], k, q);
      assert SetQuantityWhereKey(rows, k, q)[1..] == SetQuantityWhereKey(rows[1..], k, q);
    }
  }

  lemma {:induction false} DeleteCartKeepsOthers(rows: seq<CartRow>, k: Key)
    ensures CartRowsOtherThan(DeleteCartWhereKey(rows, k), k) == CartRowsOtherThan(rows, k)
  {
    if rows != [] {
      DeleteCartKeepsOthers(rows[1..], k);
    }
  }

  lemma {:induction false} AppendCartKeepsOthers(rows: seq<CartRow>, row: CartRow)
    ensures CartRowsOtherThan(rows + [row], CartKey(row)) == CartRowsOtherThan(rows, CartKey(row))
  {
    if rows == [] {
      assert rows + [row] == [row];
    } else {
      assert (rows + [row])[1..] == rows[1..] + [row];
      AppendCartKeepsOthers(rows[1..], row);
    }
  }

  /** Under the constraint a key has at most one row, and it has one exactly when the view holds the key. */
  lemma {:induction false} CartRowCountUnique(rows: seq<CartRow>, k: Key)
    requires CartKeysUnique(rows)
    ensures CartRowCount(rows, k) == if k in CartMap(rows) then 1 else 0
  {
    if rows != [] {
      CartRowCountUnique(rows[1..], k);
    }
  }

  // ---- wishlist rows ----

  lemma {:induction false} WishSetAppend(rows: seq<WishRow>, row: WishRow)
    ensures WishSet(rows + [row]) == WishSet(rows) + {WishKey(row)}
  {
    if rows == [] {
      assert rows + [row] == [row];
    } else {
      assert (rows + [row])[1..] == rows[1..] + [row];
      WishSetAppend(rows[1..], row);
    }
  }

  lemma {:induction false} WishSetDelete(rows: seq<WishRow>, k: Key)
    ensures WishSet(DeleteWishWhereKey(rows, k)) == WishSet(rows) - {k}
  {
    if rows != [] {
      WishSetDelete(rows[1..], k);
    }
  }

  lemma {:induction false} WishIdsWeaken(rows: seq<WishRow>, lo: int, lo': int, hi: int)
    requires WishIdsBetween(rows, lo, hi) && lo' <= lo
    ensures WishIdsBetween(rows, lo', hi)
  {
  }

  lemma {:induction false} AppendWishKeepsUnique(rows: seq<WishRow>, lo: int, next: int, row: WishRow)
    requires WishKeysUnique(rows) && WishIdsBetween(rows, lo, next)
    requires row.id == next && WishKey(row) !in WishSet(rows)
    ensures WishKeysUnique(rows + [row]) && WishIdsBetween(rows + [row], lo, next + 1)
  {
    if rows == [] {
      assert rows + [row] == [row];
    } else {
      assert (rows + [row])[1..] == rows[1..] + [row];
      WishSetAppend(rows[1..], row);
      AppendWishKeepsUnique(rows[1..], rows[0].id, next, row);
    }
  }

  lemma {:induction false} DeleteWishKeepsUnique(rows: seq<WishRow>, lo: int, hi: int, k: Key)
    requires WishKeysUnique(rows) && WishIdsBetween(rows, lo, hi)
    ensures WishKeysUnique(DeleteWishWhereKey(rows, k)) && WishIdsBetween(DeleteWishWhereKey(rows, k), lo, hi)
  {
    if rows != [] {
      DeleteWishKeepsUnique(rows[1..], rows[0].id, hi, k);
      WishSetDelete(rows[1..], k);
      if WishKey(rows[0]) == k {
        WishIdsWeaken(DeleteWishWhereKey(rows[1..], k), rows[0].id, lo, hi);
      }
    }
  }

  lemma {:induction false} DeleteWishKeepsOthers(rows: seq<WishRow>, k: Key)
    ensures WishRowsOtherThan(DeleteWishWhereKey(rows, k), k) == WishRowsOtherThan(rows, k)
  {
    if rows != [] {
      DeleteWishKeepsOthers(rows[1..], k);
    }
  }

  lemma {:induction false} AppendWishKeepsOthers(rows: seq<WishRow>, row: WishRow)
    ensures WishRowsOtherThan(rows + [row], WishKey(row)) == WishRowsOtherThan(rows, WishKey(row))
  {
    if rows == [] {
      assert rows + [row] == [row];
    } else {
      assert (rows + [row])[1..] == rows[1..] + [row];
      AppendWishKeepsOthers(rows[1..], row);
    }
  }

  lemma {:induction false} WishRowCountUnique(rows: seq<WishRow>, k: Key)
    requires WishKeysUnique(rows)
    ensures WishRowCount(rows, k) == if k in WishSet(rows) then 1 else 0
  {
    if rows != [] {
      WishRowCountUnique(rows[1..], k);
    }
  }
}
