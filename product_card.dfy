/** The product card's two handlers: "add to cart", which turns the
    product's first variant into a cart line and adds one unit of it, and
    the favourite toggle, which makes at most one of the two favourite
    mutations. */
module ProductCard {
  import opened Common
  import opened Catalog
  import opened CartStore

  /** The record `handleAddToCart` passes to `addItem`, or `None` when the
      first variant or its id, or the product's id, is missing or 0. */
  function CartLineFor(product: Product): (r: Option<NewItem>)
    ensures r.Some? <==>
      |product.variants| > 0 && TruthyId(product.variants[0].id) && TruthyId(product.id)
    ensures r.Some? ==>
      && r.value.variantId == product.variants[0].id.value
      && r.value.productId == product.id.value
      && r.value.productName == product.name
      && r.value.variantSize == product.variants[0].size
      && r.value.price == product.variants[0].price
      && r.value.storeId.None?
  {
    match FirstVariant(product)
    case None => None
    case Some(v) =>
      if !TruthyId(v.id) || !TruthyId(product.id) then None
      else Some(NewItem(v.id.value, product.id.value, product.name, v.size, v.price,
                        OrElse(v.imageUrl, product.image), None))
  }

  /** The line shows the variant's picture, and the product's when the
      variant has none. */
  lemma CartLineImage(product: Product)
    requires CartLineFor(product).Some?
    ensures product.variants[0].imageUrl != "" ==>
      CartLineFor(product).value.imageUrl == product.variants[0].imageUrl
    ensures product.variants[0].imageUrl == "" ==>
      CartLineFor(product).value.imageUrl == product.image
  {
  }

  /** `handleAddToCart`, applied to the cart's items (`addItem` with its
      default quantity 1). */
  function HandleAddToCart(items: seq<CartItem>, product: Product): seq<CartItem> {
    match CartLineFor(product)
    case None => items
    case Some(line) => WithAdded(items, line)
  }

  /** Without a usable variant or product id the cart is left as it is. */
  lemma AddToCartNoop(items: seq<CartItem>, product: Product)
    requires |product.variants| == 0 || !TruthyId(product.variants[0].id) || !TruthyId(product.id)
    ensures HandleAddToCart(items, product) == items
  {
  }

  /** Otherwise the cart holds the variant with one unit more than before,
      the item count grows by one, the subtotal by the price of that line
      (the price first seen for the variant), and every other line is
      unchanged. */
  lemma AddToCartEffect(items: seq<CartItem>, product: Product)
    requires UniqueIds(items)
    requires |product.variants| > 0 && TruthyId(product.variants[0].id) && TruthyId(product.id)
    ensures var id := product.variants[0].id.value;
      var after := HandleAddToCart(items, product);
      && Find(after, id).Some?
      && Find(after, id).value.quantity == (if HasVariant(items, id) then Find(items, id).value.quantity else 0) + 1
      && SelectItemCount(after) == SelectItemCount(items) + 1
      && SelectSubtotal(after) == SelectSubtotal(items) + Find(after, id).value.price
      && forall other | other != id :: Find(after, other) == Find(items, other)
  {
    var line := CartLineFor(product).value;
    var id := line.variantId;
    var after := WithAdded(items, line);
    forall other | other != id
      ensures Find(after, other) == Find(items, other)
    {
      FindAfterAdd(items, line, 1, other);
    }
    FindAfterAdd(items, line, 1, id);
    if HasVariant(items, id) {
      var k :| 0 <= k < |items| && items[k].variantId == id;
      AddExistingTotals(items, line, 1, k);
      FindUnique(items, k);
    } else {
      AddNewTotals(items, line, 1);
    }
  }

  /** The mutation `handleFavorite` makes. */
  datatype FavoriteMutation =
    | NoMutation
    | AddFavorite(productId: int)
    | RemoveFavorite(productId: int)

  /** `handleFavorite`: nothing for a visitor who is not signed in or for a
      product without id; otherwise removal of a favourite and addition of
      anything else. */
  function FavoriteMutationFor(isAuthenticated: bool, isFavorited: bool, productId: Option<int>): (m: FavoriteMutation)
    ensures m.NoMutation? <==> !isAuthenticated || !TruthyId(productId)
    ensures m.RemoveFavorite? <==> isAuthenticated && TruthyId(productId) && isFavorited
    ensures m.AddFavorite? <==> isAuthenticated && TruthyId(productId) && !isFavorited
    ensures !m.NoMutation? ==> m.productId == productId.value
  {
    if !isAuthenticated then NoMutation
    else if !TruthyId(productId) then NoMutation
    else if isFavorited then RemoveFavorite(productId.value)
    else AddFavorite(productId.value)
  }

  /** The set of favourite product ids after the mutation succeeds. */
  function Apply(favorites: set<int>, m: FavoriteMutation): set<int> {
    match m
    case NoMutation => favorites
    case AddFavorite(id) => favorites + {id}
    case RemoveFavorite(id) => favorites - {id}
  }

  /** For a signed-in visitor and a product with an id, the handler flips
      that product's membership and no other; otherwise nothing changes. */
  lemma FavoriteToggles(favorites: set<int>, isAuthenticated: bool, productId: Option<int>)
    ensures var after := Apply(favorites, FavoriteMutationFor(isAuthenticated, productId.Some? && productId.value in favorites, productId));
      && (isAuthenticated && TruthyId(productId) ==>
            (productId.value in after <==> productId.value !in favorites)
            && forall x | x != productId.value :: x in after <==> x in favorites)
      && (!isAuthenticated || !TruthyId(productId) ==> after == favorites)
  {
  }
}
