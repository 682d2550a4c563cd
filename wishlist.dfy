/** The client-side wishlist (src/context/WishlistContext.jsx): a list of products, changed only while
    a user is signed in, with one request emitted per effective mutation. */
module WishlistMirror {
  import opened Wrappers
  import opened Schema
  import opened Api

  /** `items.some(item => item.id === id)` */
  predicate Listed(items: seq<Product>, id: int) {
    items != [] && (items[0].id == id || Listed(items[1..], id))
  }

  /** No product appears twice. */
  predicate DistinctProducts(items: seq<Product>) {
    items == [] || (!Listed(items[1..], items[0].id) && DistinctProducts(items[1..]))
  }

  /** `prev.filter(item => item.id !== id)` */
  function Unlisted(items: seq<Product>, id: int): (r: seq<Product>)
    ensures |r| <= |items|
    ensures !Listed(r, id)
    ensures |r| == |items| <==> !Listed(items, id)
  {
    if items == [] then []
    else if items[0].id == id then Unlisted(items[1..], id)
    else [items[0]] + Unlisted(items[1..], id)
  }

  /** What a finished `GET /api/wishlist` leaves in the list: an array replaces it, a JSON object that
      is not an array empties it, and a failed fetch or a non-JSON reply leaves it as it was. */
  function Loaded(current: seq<Product>, fetched: Option<Body>): (r: seq<Product>)
    ensures fetched.None? || fetched == Some(Text) ==> r == current
    ensures fetched.Some? && fetched.value.WishLines? ==> r == fetched.value.products
    ensures fetched.Some? && fetched.value != Text && !fetched.value.WishLines? ==> r == []
  {
    match fetched
    case None => current
    case Some(Text) => current
    case Some(WishLines(products)) => products
    case Some(_) => []
  }

  lemma {:induction false} ListedIff(items: seq<Product>, id: int)
    ensures Listed(items, id) <==> exists i :: 0 <= i < |items| && items[i].id == id
  {
    if items != [] {
      ListedIff(items[1..], id);
      if Listed(items[1..], id) {
        var i :| 0 <= i < |items[1..]| && items[1..][i].id == id;
        assert items[i + 1].id == id;
      }
      if exists i :: 0 <= i < |items| && items[i].id == id {
        var i :| 0 <= i < |items| && items[i].id == id;
        if i > 0 {
          assert items[1..][i - 1].id == id;
        }
      }
    }
  }

  class WishlistContext {
    var wishlistItems: seq<Product>
    var isWishlistOpen: bool
    var signedIn: bool
    var sent: seq<Request>

    constructor ()
      ensures wishlistItems == [] && !isWishlistOpen && !signedIn && sent == []
    {
      wishlistItems, isWishlistOpen, signedIn, sent := [], false, false, [];
    }

    /** The effect on `currentUser`: signing out empties the list; signing in loads it. */
    method UserChanged(user: bool, fetched: Option<Body>)
      modifies this
      ensures signedIn == user && isWishlistOpen == old(isWishlistOpen) && sent == old(sent)
      ensures wishlistItems == if user then Loaded(old(wishlistItems), fetched) else []
    {
      signedIn := user;
      if user {
        wishlistItems := Loaded(wishlistItems, fetched);
      } else {
        wishlistItems := [];
      }
    }

    /** `addToWishlist(product)`: nothing when signed out (the sign-in prompt is left out) or when the
        product is already listed; otherwise appended, POSTed, and the drawer opened. */
    method AddToWishlist(product: Product)
      modifies this
      ensures signedIn == old(signedIn)
      ensures !old(signedIn) || Listed(old(wishlistItems), product.id) ==>
        wishlistItems == old(wishlistItems) && sent == old(sent) && isWishlistOpen == old(isWishlistOpen)
      ensures old(signedIn) && !Listed(old(wishlistItems), product.id) ==>
        wishlistItems == old(wishlistItems) + [product] && sent == old(sent) + [PostWishlist(product.id)] && isWishlistOpen
      ensures signedIn ==> IsInWishlist(product.id)
    {
      if !signedIn {
        return;
      }
      if Listed(wishlistItems, product.id) {
        return;
      }
      AppendListed(wishlistItems, product, product.id);
      wishlistItems := wishlistItems + [product];
      sent := sent + [PostWishlist(product.id)];
      isWishlistOpen := true;
    }

    /** `removeFromWishlist(id)`: nothing when signed out; otherwise filtered and a DELETE sent. */
    method RemoveFromWishlist(id: int)
      modifies this
      ensures signedIn == old(signedIn) && isWishlistOpen == old(isWishlistOpen)
      ensures !old(signedIn) ==> wishlistItems == old(wishlistItems) && sent == old(sent)
      ensures old(signedIn) ==> wishlistItems == Unlisted(old(wishlistItems), id) && sent == old(sent) + [DeleteWishlist(id)]
      ensures signedIn ==> !IsInWishlist(id)
    {
      if !signedIn {
        return;
      }
      UnlistedListed(wishlistItems, id, id);
      wishlistItems := Unlisted(wishlistItems, id);
      sent := sent + [DeleteWishlist(id)];
    }

    /** `isInWishlist(id)`: some listed product has the id. */
    function IsInWishlist(id: int): (r: bool)
      reads this
      ensures r <==> exists i :: 0 <= i < |wishlistItems| && wishlistItems[i].id == id
    {
      ListedIff(wishlistItems, id);
      Listed(wishlistItems, id)
    }
  }

  lemma {:induction false} AppendListed(items: seq<Product>, p: Product, id: int)
    ensures Listed(items + [p], id) == (Listed(items, id) || p.id == id)
  {
    if items == [] {
      assert items + [p] == [p];
    } else {
      assert (items + [p])[1..] == items[1..] + [p];
      AppendListed(items[1..], p, id);
    }
  }

  /** The append addToWishlist performs (only when the product is absent) keeps products distinct and
      lists exactly one more id. */
  lemma {:induction false} AddKeepsDistinct(items: seq<Product>, p: Product)
    requires DistinctProducts(items) && !Listed(items, p.id)
    ensures DistinctProducts(items + [p])
    ensures forall id :: Listed(items + [p], id) <==> Listed(items, id) || id == p.id
  {
    forall id ensures Listed(items + [p], id) <==> Listed(items, id) || id == p.id {
      AppendListed(items, p, id);
    }
    if items != [] {
      assert (items + [p])[1..] == items[1..] + [p];
      AppendListed(items[1..], p, items[0].id);
      AddKeepsDistinct(items[1..], p);
    }
  }

  /** removeFromWishlist unlists the id and only it. */
  lemma {:induction false} UnlistedListed(items: seq<Product>, id: int, other: int)
    ensures Listed(Unlisted(items, id), other) == (other != id && Listed(items, other))
  {
    if items != [] {
      UnlistedListed(items[1..], id, other);
    }
  }

  lemma {:induction false} RemoveKeepsDistinct(items: seq<Product>, id: int)
    requires DistinctProducts(items)
    ensures DistinctProducts(Unlisted(items, id))
  {
    if items != [] {
      RemoveKeepsDistinct(items[1..], id);
      UnlistedListed(items[1..], id, items[0].id);
    }
  }

  /** The filter keeps the order of what it keeps, and is the identity when the id is not listed. */
  lemma {:induction false} RemoveKeepsOrder(a: seq<Product>, b: seq<Product>, id: int)
    ensures Unlisted(a + b, id) == Unlisted(a, id) + Unlisted(b, id)
    ensures !Listed(a, id) ==> Unlisted(a, id) == a
  {
    if a == [] {
      assert a + b == b;
    } else {
      assert (a + b)[1..] == a[1..] + b;
      RemoveKeepsOrder(a[1..], b, id);
    }
  }
}
