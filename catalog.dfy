/** The catalogue records the product card and the favourites page read:
    a product with optional id and its list of variants, and the
    "first variant" both views take its price, stock and image from. */
module Catalog {
  import opened Common

  /** A sellable size of a product; `id` is absent before it is saved. */
  datatype ProductVariant = ProductVariant(
    id: Option<int>,
    size: string,
    price: int,
    stock: int,
    imageUrl: string,
    productId: int)

  datatype Product = Product(
    id: Option<int>,
    name: string,
    slug: string,
    image: string,
    variants: seq<ProductVariant>,
    storeId: int)

  /** `product.variants[0]`, which is `undefined` for an empty list. */
  function FirstVariant(product: Product): (r: Option<ProductVariant>)
    ensures r.Some? <==> |product.variants| > 0
    ensures r.Some? ==> r.value == product.variants[0]
  {
    if |product.variants| > 0 then Some(product.variants[0]) else None
  }

  /** A numeric id used as a condition: `undefined` and `0` are falsy. */
  predicate TruthyId(id: Option<int>) {
    id.Some? && id.value != 0
  }

  /** `a || b` on strings: the empty string is falsy. */
  function OrElse(a: string, b: string): (r: string)
    ensures a != "" ==> r == a
    ensures a == "" ==> r == b
  {
    if a != "" then a else b
  }
}
