/** The product record, with the fields the cart and catalog routes read. */
module Catalog {
  import opened Common

  /** A product. Prices are whole cents. `image` is a single-image field the
      add-to-cart route falls back on; the product schema itself declares
      only the `images` list. The schema's `sizes` and `colors` lists are
      matched by the listing filter in the database and read by no modelled
      operation, so they are not fields here. */
  datatype Product = Product(
    name: string,
    description: Option<string>,
    price: int,
    discountPrice: Option<int>,
    sku: string,
    category: string,
    brand: Option<string>,
    gender: Option<string>,
    images: seq<string>,
    image: Option<string>)
}
