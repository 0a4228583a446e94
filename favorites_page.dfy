/** The favourites page: the heading that counts the saved products, and
    for each product whether it is in stock, the price shown and whether
    its add button is enabled. Its add-to-cart handler is the same
    expression as the product card's, `ProductCard.HandleAddToCart`. */
module FavoritesPage {
  import opened Common
  import opened Catalog
  import opened ProductCard

  /** `(variant?.stock ?? 0) > 0` for the first variant. */
  function InStock(product: Product): (r: bool)
    ensures r <==> |product.variants| > 0 && product.variants[0].stock > 0
  {
    var stock := match FirstVariant(product) case None => 0 case Some(v) => v.stock;
    stock > 0
  }

  /** `variant?.price ?? 0` for the first variant. */
  function DisplayedPrice(product: Product): (r: int)
    ensures |product.variants| > 0 ==> r == product.variants[0].price
    ensures |product.variants| == 0 ==> r == 0
  {
    match FirstVariant(product)
    case None => 0
    case Some(v) => v.price
  }

  /** `disabled={!inStock}`. */
  predicate AddDisabled(product: Product) {
    !InStock(product)
  }

  /** An enabled button has a first variant, so clicking it adds a line
      exactly when that variant and the product have ids. */
  lemma EnabledButtonAdds(product: Product)
    requires !AddDisabled(product)
    ensures |product.variants| > 0
    ensures CartLineFor(product).Some? <==> TruthyId(product.variants[0].id) && TruthyId(product.id)
  {
  }

  /** The line under the title. */
  datatype Heading =
    | NoFavoritesYet
    | SavedCount(count: nat, suffix: string)  // "{count} producto{suffix} guardado{suffix}"

  function HeadingFor(favorites: seq<Product>): (h: Heading)
    ensures h.NoFavoritesYet? <==> |favorites| == 0
    ensures h.SavedCount? ==> h.count == |favorites| && (h.suffix == "s" <==> |favorites| > 1)
  {
    if |favorites| > 0 then SavedCount(|favorites|, PluralSuffix(|favorites|)) else NoFavoritesYet
  }

  /** The text of the heading. */
  function HeadingText(h: Heading, countText: string): string {
    match h
    case NoFavoritesYet => "Aún no tienes productos favoritos"
    case SavedCount(_, s) => countText + " producto" + s + " guardado" + s
  }

  /** A single favourite is written in the singular, more in the plural. */
  lemma HeadingPlural(favorites: seq<Product>, countText: string)
    requires |favorites| > 0
    ensures |favorites| == 1 ==> HeadingText(HeadingFor(favorites), countText) == countText + " producto guardado"
    ensures |favorites| > 1 ==> HeadingText(HeadingFor(favorites), countText) == countText + " productos guardados"
  {
  }
}
