/** The product card: its stock badge and the image it shows. */
module ProductCard {

  /** `product.stock <= 0`. */
  predicate OutOfStock(stock: int) { stock <= 0 }

  /** `product.stock > 0 && product.stock < 5`. */
  predicate LowStock(stock: int) { 0 < stock < 5 }

  datatype Badge = SoldOut | FewLeft | Plenty

  /** The badge the card shows for a stock level. */
  function BadgeFor(stock: int): (b: Badge)
    ensures b == SoldOut <==> OutOfStock(stock)
    ensures b == FewLeft <==> LowStock(stock)
    ensures b == Plenty <==> stock >= 5
  {
    if OutOfStock(stock) then SoldOut else if LowStock(stock) then FewLeft else Plenty
  }

  /** No stock level is both out of stock and low, and every level is one
      of the three. */
  lemma BadgesExclusive(stock: int)
    ensures !(OutOfStock(stock) && LowStock(stock))
    ensures OutOfStock(stock) || LowStock(stock) || stock >= 5
  {
  }

  const FallbackImage: string := "https://res.cloudinary.com/demo/image/upload/v1/samples/shoe.jpg"

  /** The first image, or the stock photo when there is none, it is empty,
      or it failed to load. */
  function ImageSrc(images: seq<string>, imageError: bool): (src: string)
    ensures !imageError && |images| > 0 && images[0] != "" ==> src == images[0]
    ensures imageError || |images| == 0 || images[0] == "" ==> src == FallbackImage
    ensures src != ""
  {
    if imageError || |images| == 0 || images[0] == "" then FallbackImage else images[0]
  }
}
