/** The line item shared by the design page, the checkout page and the order handler. */
module Shop {
  import opened Wrappers

  /** One cart line: product key, display strings, quantity, whole-krone unit price,
      product image and the optional public URL of uploaded artwork. */
  datatype CartItem = CartItem(
    id: string,
    name: string,
    size: string,
    color: string,
    quantity: int,
    price: int,
    image: string,
    artwork: Option<string>)
}
