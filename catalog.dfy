/** The product record the storefront components receive from the product API. */
module Catalog {
  import opened Common

  datatype Picture = Picture(id: string, url: string, secureUrl: string)

  datatype Attribute = Attribute(id: string, name: string, valueName: string)

  /**
   * A product as the client sees it. `pictures` and `attributes` may be
   * missing from the JSON, so both are optional.
   */
  datatype Product = Product(
    id: string,
    title: string,
    price: real,
    currencyId: string,
    thumbnail: string,
    condition: string,
    availableQuantity: int,
    sellerNickname: string,
    permalink: string,
    pictures: Option<seq<Picture>>,
    attributes: Option<seq<Attribute>>)
}
