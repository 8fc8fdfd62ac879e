/** The read-only product catalog the cart handlers consult: the `products`
    collection, looked up by product id. The cart never changes it. */
module Catalog {

  type ProductId = string

  /** A catalog entry as the cart sees it. `quantity` is the units in stock;
      `price` is exact, in the smallest currency unit. */
  datatype Product = Product(
    name: string,
    brand: string,
    category: string,
    price: nat,
    quantity: nat,
    image: string)

  type Catalog = map<ProductId, Product>
}
