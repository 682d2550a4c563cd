# Shopnest storefront core in Dafny

This project models the storefront's account, cart and wishlist rules and proves properties about them. It has three parts, plus a layer that links the two sides:

- **The server** (`server.cjs`):
  - The `verifyToken` and `verifyAdmin` middleware.
  - The registration role rule and the register and login errors.
  - The cart and wishlist endpoints, over the three tables whose uniqueness constraints `db.cjs` declares.
- **The client cart mirror** (`src/context/CartContext.jsx`):
  - The optimistic updates of `addToCart`, `removeFromCart` and `updateQuantity`.
  - The outgoing requests those updates emit.
  - The reset on sign-out.
  - The `cartCount` and `cartTotal` folds.
- **The client wishlist mirror** (`src/context/WishlistContext.jsx`):
  - Add-if-absent, gated on being signed in.
  - Remove by filter.
  - `isInWishlist`.
  - The reset on sign-out.
- **The link between client and server.** A client list is *in step* with the tables when it shows, for every product, exactly the caller's server quantity (the wishlist compares listed products instead). The link says:
  - Each client operation, followed by the delivery of the requests it sent to the server's handlers in order, keeps the two in step. For `updateQuantity` this needs the client's product ids to be distinct. Every client operation and every load keeps them distinct, and a concrete list with a repeated id shows the mirror leaving step without it.
  - A lost `addToCart` POST makes them diverge (`Sync.LostAddDiverges`).
  - For any tables, a loaded list shows the caller's quantity for every product that still exists, and nothing for a deleted one. The schema has no foreign key, so rows for a deleted product remain. A freshly loaded list is therefore in step exactly when no row of the caller points at a deleted product.

Modules:

| file | module | contents |
|---|---|---|
| `wrappers.dfy` | `Wrappers` | `Option` |
| `schema.dfy` | `Schema` | Rows of the four tables. `SELECT`/`UPDATE`/`DELETE` statements as functions. The views `CartMap` (user, product to quantity) and `WishSet` (user, product pairs). The schema's uniqueness and id constraints, and the lemmas that each statement keeps them. |
| `api.dfy` | `Api` | Claims, response bodies, responses, and the requests the clients send. |
| `auth.dfy` | `Auth` | The header split, `verifyToken`, `verifyAdmin`, the role rule, login, and `/api/me`. |
| `server.dfy` | `Server` | `class Store` holding the tables. It has one method per cart and wishlist handler and one for registration. |
| `cart.dfy` | `CartMirror` | `class CartContext`, and the state transformers it hands to `setCartItems`, with their lemmas. |
| `wishlist.dfy` | `WishlistMirror` | `class WishlistContext`, with the same kind of lemmas. |
| `sync.dfy` | `Sync` | The in-step relations, the replay of requests on the table views, the linking lemmas, and methods that run one client operation and deliver its requests to a `Store`. |

JWT and bcrypt are abstracted:

- JWT is a map `tokens` from the tokens that currently verify to their claims.
- The bcrypt digest is a parameter `digest`.
- `bcrypt.compare` is a parameter `matches`.

Two behaviours of the code worth noting:

- The server accepts any quantity. POST adds it as sent and PUT stores it as sent, so a quantity of 0 or less can reach the table. Only the client clamps at 1.
- `GET /api/me` answers with the role stored in the users row, not the role in the token.

## Model

| member | source | states |
|---|---|---|
| Schema.Find | server.cjs:231 | `db.get`, the one first-match search behind the four lookups below. The row found is in the table and satisfies the WHERE clause. No row means no row satisfies it. |
| Schema.UserByEmail | server.cjs:89 | `Find` on `email = ?`. Its partners are `UserByEmailFinds` and `AppendUser`. |
| Schema.UserById | server.cjs:46 | `Find` on `id = ?`, the lookup that `verifyAdmin` and `/api/me` perform. |
| Schema.ProductById | server.cjs:217 | `Find` on the product id, the product side of the cart and wishlist joins. |
| Schema.CartRowFor | server.cjs:231 | `Find` on the caller's (user, product) key. Its partner is `CartMapFind`. |
| Schema.CartMap | db.cjs:59-66 | The cart table seen as (user, product) to quantity, where the first row of a key wins as in `db.get`. Its partners `CartMapFind`, `CartMapSetKey`, `CartMapAppend` and `CartMapDelete` tie it to each statement. |
| Schema.WishSet | db.cjs:52-58 | The wishlist table seen as its set of (user, product) pairs. Its partners are `WishSetAppend` and `WishSetDelete`. |
| Schema.SetQuantityWhereId | server.cjs:235 | `UPDATE cart_items SET quantity WHERE id`: the row count is kept. Its partner is `SetWhereIdIsSetWhereKey`. |
| Schema.SetQuantityWhereKey | server.cjs:252-254 | The `UPDATE` by (user, product): the row count is kept. Its partners are `CartMapSetKey`, `SetKeyAbsent` and `SetKeyKeepsOthers`. |
| Schema.DeleteCartWhereKey | server.cjs:265-267 | The cart `DELETE`: no rows are added. Its partners are `CartMapDelete` and `DeleteCartKeepsOthers`. |
| Schema.DeleteWishWhereKey | server.cjs:200-202 | The wishlist `DELETE`: no rows are added. Its partners are `WishSetDelete` and `DeleteWishKeepsOthers`. |
| Schema.UserByEmailFinds | db.cjs:39 | With unique emails, looking up a stored user's email finds exactly that user. |
| Schema.AppendUser | db.cjs:36-43 | Appending a user with a new email and the next id keeps emails unique and ids increasing. Afterwards the lookup finds the new user by its email, and every other email finds what it found before. |
| Schema.CartMapFind | server.cjs:231-233 | The quantity view holds a key exactly when the `SELECT` finds a row, and holds that row's quantity. |
| Schema.CartMapSetKey | server.cjs:252-254 | After `UPDATE ... WHERE user_id AND product_id`, the view holds the new quantity at that key if the key was there, and is unchanged otherwise. |
| Schema.SetKeyAbsent | server.cjs:252-254 | That `UPDATE` on a key with no row leaves the table as it was. |
| Schema.SetWhereIdIsSetWhereKey | server.cjs:233-235 | With unique keys and ids, updating by the found row's id is the same statement as updating by the (user, product) key. |
| Schema.CartMapAppend | server.cjs:237-239 | Inserting a row for a key not yet present adds exactly that key with the row's quantity. |
| Schema.AppendCartKeepsUnique | db.cjs:65 | That insert, with the next id, keeps (user, product) unique and ids increasing. |
| Schema.SetKeyKeepsUnique | db.cjs:65 | An `UPDATE` of a quantity keeps the constraints. |
| Schema.CartMapDelete | server.cjs:265-267 | `DELETE` removes exactly that key from the view. |
| Schema.DeleteCartKeepsUnique | db.cjs:65 | `DELETE` keeps the constraints. |
| Schema.SetKeyKeepsOthers | server.cjs:252-254 | The `UPDATE` leaves every row with another key exactly as it was, in order. |
| Schema.DeleteCartKeepsOthers | server.cjs:265-267 | The `DELETE` leaves every row with another key exactly as it was, in order. |
| Schema.AppendCartKeepsOthers | server.cjs:237-239 | The insert leaves every row with another key exactly as it was. |
| Schema.CartRowCountUnique | db.cjs:65 | With unique keys, a (user, product) pair has exactly one row if it is in the view and none otherwise. |
| Schema.AppendWishKeepsOthers | server.cjs:187-189 | The insert leaves every row with another pair exactly as it was. |
| Schema.WishSetAppend | server.cjs:187-189 | Inserting a wishlist row adds exactly its pair to the set view. |
| Schema.WishSetDelete | server.cjs:200-202 | `DELETE` removes exactly that pair. |
| Schema.AppendWishKeepsUnique | db.cjs:57 | Inserting a new pair with the next id keeps the pairs unique. |
| Schema.DeleteWishKeepsUnique | db.cjs:57 | `DELETE` keeps the constraints. |
| Schema.DeleteWishKeepsOthers | server.cjs:200-202 | `DELETE` leaves every other pair's rows as they were. |
| Schema.WishRowCountUnique | db.cjs:57 | With unique pairs, a pair has exactly one row if it is in the set and none otherwise. |
| Auth.Fields | server.cjs:33 | `split(' ')` always yields at least one field. |
| Auth.JoinFields | server.cjs:33 | The fields joined with single spaces give back the header, so the split loses nothing. |
| Auth.FieldsHaveNoSpace | server.cjs:33 | No field contains a space. |
| Auth.BearerToken | server.cjs:32-34 | A token is found exactly when the header is present and its second field exists and is non-empty. |
| Auth.BearerHeaderRoundTrip | server.cjs:33 | The header `Bearer ` + t gives back t, for any t without spaces. An empty t gives no token. |
| Auth.VerifyToken | server.cjs:31-41 | No token means 401. A token that does not verify means 403. Otherwise it passes with exactly that token's claims. The three cases are stated as if-and-only-ifs. |
| Auth.VerifyAdmin | server.cjs:43-53 | The outcome of `verifyToken` is kept when it denies. Otherwise the stored row decides: a missing row or a stored role other than `admin` gives 403 `Admin access required`. A pass implies a stored admin row with the token's id. |
| Auth.Includes | server.cjs:63 | `String.prototype.includes`, scanning from the left. Its partner `IncludesIff` ties it to an occurrence at some position. |
| Auth.IncludesIff | server.cjs:63 | `includes` holds exactly when the substring occurs at some position. |
| Auth.RoleFor | server.cjs:63 | The role is `admin` or `user`, and it is `admin` exactly when the email contains `admin`. |
| Auth.Login | server.cjs:85-99 | The result is 200 or the single `Invalid credentials` 400. It is 200 exactly when the email's row exists and the password matches its digest. A session is built from the stored row. |
| Auth.LoginFailuresIdentical | server.cjs:89-93 | An unknown email and a wrong password get one and the same response. |
| Auth.AdminIgnoresClaimedRole | server.cjs:43-47 | Changing the role inside the token never changes whether `verifyAdmin` passes: only the stored row counts. |
| Auth.Me | server.cjs:156-160 | The gate's denial is passed on. A missing row gives 404, and otherwise the response is the row's public columns. |
| Server.CartLinesFor | server.cjs:212-220 | The cart GET returns at most one line per row. Each line's product exists and the caller has a row for it. Quantities, and which rows the join keeps, are stated for all inputs by `Sync.CartLinesQuantity`. |
| Server.WishLinesFor | server.cjs:169-177 | The same for the wishlist GET. Which pairs are returned is stated for all inputs by `Sync.WishLinesListed`. |
| Server.MergeQuantity | server.cjs:231-240 | What POST does to the view: the key is added if missing. Its quantity becomes the old one plus the one sent, or the one sent for a new key. Every other key is unchanged. |
| Server.OverwriteQuantity | server.cjs:252-254 | What PUT does to the view: the same keys. A present key takes the quantity sent. Every other key is unchanged. |
| Server.RemoveLine | server.cjs:265-267 | What DELETE does to the view: exactly that key goes. Every other key is unchanged. |
| Server.MergeIntoExisting | server.cjs:231-235 | When a row exists, updating it by id merges the quantity in the view and keeps the constraints, the row count and the other rows. |
| Server.MergeAsNewRow | server.cjs:236-239 | When no row exists, the insert merges the quantity (it starts at the one sent) and keeps the constraints and the other rows. |
| Server.Store.constructor | db.cjs:34-66 | The tables start empty around a catalogue with unique ids, and the constraints hold. |
| Server.Store.Register | server.cjs:58-81 | A missing or empty field gives 400 `All fields required` with nothing written. A taken email gives 400 `Email already exists` with nothing written. Otherwise one row is appended with the substring role and the next id, and the response is 201 with that user's session. The constraints are kept and the other tables are untouched. |
| Server.Store.GetCart | server.cjs:212-220 | The gate's denial, or 200 with the caller's joined lines. |
| Server.Store.PostCart | server.cjs:227-241 | The quantity view becomes `MergeQuantity` of the old view: the old quantity plus the one sent, or the one sent for a new line. The row count grows by one exactly when the line is new. Rows of other keys and the other tables are unchanged. The constraints are kept. The quantity is not checked. A denial changes nothing. |
| Server.Store.PutCart | server.cjs:248-255 | The view becomes `OverwriteQuantity` of the old view: a present line takes the quantity sent and an absent one creates nothing. The table is unchanged when the line is absent. The row count and the rows of other keys are kept. The response is success either way. |
| Server.Store.DeleteCart | server.cjs:262-268 | The view loses exactly the caller's line if it was there. The other rows are unchanged. The response is success either way. |
| Server.Store.GetWishlist | server.cjs:169-177 | The gate's denial, or 200 with the caller's joined products. |
| Server.Store.PostWishlist | server.cjs:184-190 | The set gains the pair. A duplicate leaves the table exactly as it was (one row stays one row). A new pair appends one row. The response is success either way. |
| Server.Store.DeleteWishlist | server.cjs:197-203 | The set loses exactly the caller's pair. The other rows are unchanged. The response is success either way. |
| Server.RegisterThenLogin | server.cjs:67-73 | After a registration appends a user, logging in with a password matching the stored digest returns exactly that user's session, role included. A wrong password gets the common failure. Every other email logs in as before. |
| Server.AddTwoThenThree | server.cjs:231-240 | Adding 2 and then 3 of a product with no line leaves one new row holding 5. |
| CartMirror.CartContext.constructor | src/context/CartContext.jsx:9-11 | An empty list, the drawer closed, nobody signed in, and nothing sent. |
| CartMirror.CartContext.UserChanged | src/context/CartContext.jsx:14-25 | Signing out empties the list. Signing in loads it: an array replaces the list, an error object empties it, and a failed fetch or a non-JSON reply leaves it as it was. |
| CartMirror.CartContext.AddToCart | src/context/CartContext.jsx:27-50 | The list becomes `AddItem` of the old list and the drawer opens. Exactly one POST with quantity 1 is sent when signed in, and none otherwise. |
| CartMirror.CartContext.CartCount | src/context/CartContext.jsx:85 | The left-to-right `reduce` from 0 equals the sum of the quantities. |
| CartMirror.CartContext.CartTotal | src/context/CartContext.jsx:86 | The left-to-right `reduce` from 0 equals the sum of price times quantity. |
| CartMirror.AddItem | src/context/CartContext.jsx:29-37 | The updater of `addToCart`. The length grows by one exactly when the product was absent. The product is present afterwards, and the set of ids present grows by exactly that id. |
| CartMirror.WithoutId | src/context/CartContext.jsx:53 | The filter of `removeFromCart`. No line with the id remains. The list never grows, and keeps its length exactly when the id was absent. |
| CartMirror.Clamped | src/context/CartContext.jsx:64-82 | The map of `updateQuantity`: the length is kept. Its positional partner is `ClampShape`. |
| CartMirror.ClampRequests | src/context/CartContext.jsx:68-77 | The PUTs fired inside the map: at most one per line and none exactly when the id is absent. Each carries the id and a quantity of at least 1. |
| CartMirror.Loaded | src/context/CartContext.jsx:15-21 | A failed fetch or a non-JSON reply keeps the list. A JSON array of lines replaces the list with exactly those lines. Any other JSON body empties it. |
| CartMirror.CartContext.RemoveFromCart | src/context/CartContext.jsx:52-61 | The list is filtered. Exactly one DELETE by id is sent when signed in, and none otherwise. |
| CartMirror.CartContext.UpdateQuantity | src/context/CartContext.jsx:63-83 | The list is clamped. One PUT with the clamped quantity is sent per matching line when signed in, and none otherwise. |
| CartMirror.HasIff | src/context/CartContext.jsx:30 | `find` succeeds exactly when some line has the id, which is exactly when the quantity view has it. |
| CartMirror.DistinctIdsIff | src/context/CartContext.jsx:29-37 | Distinct ids, as the recursion states it, means the ids differ at every pair of positions. |
| CartMirror.AddPresent | src/context/CartContext.jsx:31-35 | For a product already present, the length is kept, the matching line's quantity goes up by exactly 1, and every other line stays as it was in its place. |
| CartMirror.AddAbsent | src/context/CartContext.jsx:36 | For an absent product, the old list is kept as a prefix and one line with quantity 1 is added at the end. |
| CartMirror.AddQuantity | src/context/CartContext.jsx:29-37 | The product's quantity goes up by one, or becomes 1 if it was absent. Every other product's quantity is unchanged. |
| CartMirror.AddKeepsDistinct | src/context/CartContext.jsx:29-37 | `addToCart` keeps product ids pairwise distinct. |
| CartMirror.RemoveQuantity | src/context/CartContext.jsx:53 | After removal no line has the id, and every other id keeps its quantity. |
| CartMirror.RemoveKeepsOrder | src/context/CartContext.jsx:53 | The filter distributes over concatenation, so it keeps the order of what remains. It is the identity when the id is absent. |
| CartMirror.RemoveKeepsDistinct | src/context/CartContext.jsx:53 | `removeFromCart` keeps ids distinct. |
| CartMirror.ClampQuantity | src/context/CartContext.jsx:64-66 | The id's quantity becomes `max(1, q + delta)`. Other ids are unchanged. An absent id leaves the list as it was. |
| CartMirror.ClampShape | src/context/CartContext.jsx:64-82 | Position by position, each line with the id takes `max(1, q + delta)` and keeps its product. Every other line is returned as it was. |
| CartMirror.ClampFloor | src/context/CartContext.jsx:66 | The length is kept, and every updated line has quantity at least 1. |
| CartMirror.ClampKeepsDistinct | src/context/CartContext.jsx:64-82 | `updateQuantity` keeps ids distinct. |
| CartMirror.ClampRequestsOne | src/context/CartContext.jsx:68-77 | With distinct ids exactly one PUT, carrying the clamped quantity, is sent when the id is present, and none when it is absent. |
| CartMirror.SumsAppend | src/context/CartContext.jsx:85-86 | Both sums add up over concatenation. |
| CartMirror.ReduceIsSum | src/context/CartContext.jsx:85-86 | The left-to-right `reduce` from any start equals the start plus the sum, for the count and for the total. |
| CartMirror.AddSums | src/context/CartContext.jsx:85-86 | With distinct ids, `addToCart` raises `cartCount` by exactly 1. It raises `cartTotal` by the price of the line bumped: the stored line's price, or the new product's price. |
| CartMirror.RemoveSums | src/context/CartContext.jsx:85 | With distinct ids, removal lowers `cartCount` by the removed line's quantity. |
| CartMirror.ClampSums | src/context/CartContext.jsx:64-85 | With distinct ids, `updateQuantity` replaces the line's old quantity in `cartCount` by its clamped one. An absent id leaves the count alone. |
| WishlistMirror.Listed | src/context/WishlistContext.jsx:30 | `some(item => item.id === id)`. Its partner `ListedIff` ties it to an existential. |
| WishlistMirror.Unlisted | src/context/WishlistContext.jsx:53 | The filter: the id is not listed afterwards. The list never grows, and keeps its length exactly when the id was not listed. |
| WishlistMirror.Loaded | src/context/WishlistContext.jsx:14-20 | A failed fetch or a non-JSON reply keeps the list. A JSON array of products replaces the list with exactly those products. Any other JSON body empties it. |
| WishlistMirror.ListedIff | src/context/WishlistContext.jsx:63 | The `some` query holds exactly when some item has the id. |
| WishlistMirror.WishlistContext.constructor | src/context/WishlistContext.jsx:9-11 | An empty list, the drawer closed, nobody signed in, and nothing sent. |
| WishlistMirror.WishlistContext.UserChanged | src/context/WishlistContext.jsx:13-24 | Signing out empties the list. Signing in loads it, with the same outcomes as the cart. |
| WishlistMirror.WishlistContext.AddToWishlist | src/context/WishlistContext.jsx:26-48 | Signed out, or the product already listed: nothing changes and nothing is sent. Otherwise the product is appended, one POST with its id is sent, and the drawer opens. Afterwards, when signed in, the product is listed. |
| WishlistMirror.WishlistContext.RemoveFromWishlist | src/context/WishlistContext.jsx:50-61 | Signed out: nothing changes. Signed in: the list is filtered, one DELETE is sent, and the id is no longer listed. |
| WishlistMirror.WishlistContext.IsInWishlist | src/context/WishlistContext.jsx:63 | True exactly when some item has the id. |
| WishlistMirror.AppendListed | src/context/WishlistContext.jsx:33 | After the append, an id is listed exactly when it was before or it is the product's id. |
| WishlistMirror.AddKeepsDistinct | src/context/WishlistContext.jsx:30-33 | The append happens only for an absent product. It keeps products distinct and lists exactly one more id. |
| WishlistMirror.UnlistedListed | src/context/WishlistContext.jsx:53 | After the filter, an id is listed exactly when it is another id that was listed. |
| WishlistMirror.RemoveKeepsDistinct | src/context/WishlistContext.jsx:53 | The filter keeps products distinct. |
| WishlistMirror.RemoveKeepsOrder | src/context/WishlistContext.jsx:53 | The filter distributes over concatenation, keeping order. It is the identity when the id is not listed. |
| Sync.AddToCartSynced | src/context/CartContext.jsx:29-48 | A client in step with the table stays in step after `addToCart` once its POST is applied (server.cjs:231-240). |
| Sync.RemoveFromCartSynced | src/context/CartContext.jsx:53-60 | The same for `removeFromCart` and its DELETE (server.cjs:265-267). |
| Sync.UpdateQuantitySynced | src/context/CartContext.jsx:64-82 | With distinct ids, the same for `updateQuantity` and its PUT (server.cjs:252-254). |
| Sync.DuplicateLinesDiverge | src/context/CartContext.jsx:64-77 | A concrete list with two lines for one product is in step with the table, yet leaves it after `updateQuantity`. So the distinctness above is needed. |
| Sync.LostAddDiverges | src/context/CartContext.jsx:48 | With no rollback, if the POST is lost the client is no longer in step. |
| Sync.AddToWishlistSynced | src/context/WishlistContext.jsx:30-45 | A listed product is already a server pair, so skipping the POST loses nothing. Otherwise the append and the POST keep the mirror in step and distinct (server.cjs:187). |
| Sync.RemoveFromWishlistSynced | src/context/WishlistContext.jsx:53-60 | The filter and the DELETE keep the mirror in step (server.cjs:200). |
| Sync.CartLinesQuantity | server.cjs:214-219 | For any tables, the loaded lines show the caller's quantity for each product that exists, and nothing for one that does not. |
| Sync.LoadedCartSynced | server.cjs:214-219 | Hence the loaded cart lines show exactly the table's quantities when every product the caller has a row for exists. |
| Sync.LoadedCartDistinct | server.cjs:214-219 | With unique (user, product) rows, the loaded lines have distinct ids. |
| Sync.WishLinesListed | server.cjs:171-176 | For any tables, a product is loaded exactly when it exists and the caller holds its pair. |
| Sync.LoadedWishSynced | server.cjs:171-176 | Hence the loaded wishlist lists exactly the caller's pairs, under the same proviso. |
| Sync.LoadedWishDistinct | server.cjs:171-176 | With unique pairs, the loaded products are distinct. |
| Sync.HeaderPasses | src/context/CartContext.jsx:45 | The header the client builds from a stored token passes `verifyToken` with that token's claims (server.cjs:33-38). |
| Sync.Deliver | server.cjs:184-272 | Handing the sent requests to the handlers in order leaves the views equal to replaying them, and keeps the constraints. |
| Sync.AddToCartRoundTrip | src/context/CartContext.jsx:27-50 | Client `addToCart`, then `Store.PostCart`: in step before, in step after. |
| Sync.RemoveFromCartRoundTrip | src/context/CartContext.jsx:52-61 | Client `removeFromCart`, then `Store.DeleteCart`: stays in step. |
| Sync.UpdateQuantityRoundTrip | src/context/CartContext.jsx:63-83 | Client `updateQuantity`, then `Store.PutCart`: stays in step and distinct. |
| Sync.AddToWishlistRoundTrip | src/context/WishlistContext.jsx:26-48 | Client `addToWishlist`, then `Store.PostWishlist`: stays in step and distinct. |
| Sync.RemoveFromWishlistRoundTrip | src/context/WishlistContext.jsx:50-61 | Client `removeFromWishlist`, then `Store.DeleteWishlist`: stays in step and distinct. |

## Left out

- The `db.cjs` adapter, sqlite and libsql I/O, and the start-up migration. The tables are sequences of rows, and only their uniqueness and primary-key constraints are kept.
- The 500 paths of every handler. Every database call is taken to succeed.
- bcrypt and JWT:
  - Hashing is the `digest` parameter and comparison is the `matches` parameter.
  - Token verification, including the 24-hour expiry, is the `tokens` map.
  - Signing a token is represented by the claims it would carry.
- Login with a missing password: bcrypt rejects it and the handler answers 500. The model takes the password as a string.
- The JSON bodies are typed: ids and quantities are integers and fields are strings. JavaScript's coercion of other types is not modelled. An absent or empty register field is `None` or `""`.
- The `cart_item_id`, `wishlist_id` and `id: lastID` fields of the responses are not modelled, and neither are the created timestamps.
- The order rows come back from a join. The model returns them in table order, which SQL does not promise.
- Two concurrent POST /api/cart requests racing between the read and the write. Requests are applied one at a time.
- Product CRUD, `/api/products`, routing, CORS and the health endpoint. Their only rule is the admin gate, which `verifyAdmin` states.
- Asynchrony in the client contexts. A fetch's outcome is given as a parameter and applied when the effect runs. Requests are a log of what was sent.
- `alert`, `console.error` and `localStorage` in the client contexts.
- React's rendering, including double invocation of updaters under StrictMode. The model calls each updater once.
- `addToWishlist` reads `wishlistItems` from the closure rather than from the updater's `prev`. Each call is modelled on the state current at that moment.
- Fractional prices and floating-point rounding in `cartTotal` are not modelled. The `products` column is declared INTEGER, but the admin form submits prices in steps of 0.01, and SQLite stores those as REAL, so `cartTotal` is a floating-point sum in the program. Prices here are integers. The paise conversion used at payment is not part of this model.
- Quantities and ids are JavaScript numbers, which are exact only below 2^53. The model's `int` is unbounded.
- `Sync.LoadedCartSynced` and `Sync.LoadedWishSynced` hold only when no row of the caller points at a deleted product. `Sync.CartLinesQuantity` and `Sync.WishLinesListed` state what happens for all tables.
- The client-side `isAdmin`, `AdminRoute` and the other views are not part of this model.
