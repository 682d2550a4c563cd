/** The messages that cross between the browser and the REST API: the JWT claims,
    the outgoing requests the client mirrors emit, and the responses the
    handlers send. */
module Api {
  import opened Schema

  /** The payload a token is signed over (`jwt.sign({ id, email, role }, ...)`). */
  datatype Claims = Claims(id: int, email: string, role: string)

  /** The user record handed back to the client; it never carries the password. */
  datatype PublicUser = PublicUser(id: int, name: string, email: string, role: string)

  /** One cart line: the product's columns (`p.*`) and the quantity. */
  datatype CartItem = CartItem(product: Product, quantity: int)

  datatype Body =
    | Text                                        // `res.sendStatus(code)`: a plain-text status line, not JSON
    | Error(message: string)                      // `{ error }`
    | Success                                     // `{ success: true }`
    | Session(claims: Claims, user: PublicUser)   // `{ token, user }`; the token stands for the claims it signs
    | Profile(user: PublicUser)
    | CartLines(items: seq<CartItem>)
    | WishLines(products: seq<Product>)

  datatype Response = Response(status: int, body: Body)

  /** The mutating requests the client contexts send (method, path and JSON body). */
  datatype Request =
    | PostCart(productId: int, quantity: int)     // POST /api/cart { productId, quantity }
    | PutCart(productId: int, quantity: int)      // PUT /api/cart/:productId { quantity }
    | DeleteCart(productId: int)                  // DELETE /api/cart/:productId
    | PostWishlist(productId: int)                // POST /api/wishlist { productId }
    | DeleteWishlist(productId: int)              // DELETE /api/wishlist/:productId

  function UserView(u: User): (r: PublicUser) {
    PublicUser(u.id, u.name, u.email, u.role)
  }

  function ClaimsOf(u: User): (r: Claims) {
    Claims(u.id, u.email, u.role)
  }
}
