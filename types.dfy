// The storefront's records (types.ts), plus the Order, Review and BlogPost
// records that the components use but types.ts does not declare; those are
// reconstructed from the fields the components read.
module Types {

  datatype Option<+T> = None | Some(value: T)

  /** A catalogue entry. `price` is the localised display string, e.g. "۴۵۰,۰۰۰ تومان". */
  datatype Product = Product(
    id: int,
    name: string,
    description: string,
    price: string,
    image: string,
    gallery: Option<seq<string>>,
    category: string)

  /** A cart line: every field of the product (the `...product` spread) plus a quantity. */
  datatype CartItem = CartItem(product: Product, quantity: int)
  {
    function id(): int { product.id }
  }

  /** A saved delivery address; lat/lng come from the map and are never computed on. */
  datatype Address = Address(
    id: string,
    title: string,
    city: string,
    province: string,
    fullAddress: string,
    postalCode: string,
    lat: real,
    lng: real)

  /** A signed-in customer with an ordered address book. */
  datatype User = User(
    id: string,
    firstName: string,
    lastName: string,
    nationalId: string,
    phone: string,
    addresses: seq<Address>)

  datatype ShippingMethod = Jet | Post | Pickup
  {
    /** The enum's string value. */
    function Code(): string
    {
      match this
      case Jet => "jet"
      case Post => "post"
      case Pickup => "pickup"
    }
  }

  /** Decodes a stored enum value; exactly the three codes decode. */
  function ShippingFromCode(code: string): (m: Option<ShippingMethod>)
    ensures m.Some? <==> code == "jet" || code == "post" || code == "pickup"
    ensures m.Some? ==> m.value.Code() == code
  {
    if code == "jet" then Some(Jet)
    else if code == "post" then Some(Post)
    else if code == "pickup" then Some(Pickup)
    else None
  }

  /** The three codes are distinct, so encoding then decoding is the identity. */
  lemma ShippingRoundTrip(m: ShippingMethod)
    ensures ShippingFromCode(m.Code()) == Some(m)
    ensures forall n: ShippingMethod :: n.Code() == m.Code() ==> n == m
  {
  }

  datatype PaymentMethod = Zarinpal | Saman | Mellat
  {
    /** The enum's string value. */
    function Code(): string
    {
      match this
      case Zarinpal => "zarinpal"
      case Saman => "saman"
      case Mellat => "mellat"
    }
  }

  /** Decodes a stored enum value; exactly the three codes decode. */
  function PaymentFromCode(code: string): (m: Option<PaymentMethod>)
    ensures m.Some? <==> code == "zarinpal" || code == "saman" || code == "mellat"
    ensures m.Some? ==> m.value.Code() == code
  {
    if code == "zarinpal" then Some(Zarinpal)
    else if code == "saman" then Some(Saman)
    else if code == "mellat" then Some(Mellat)
    else None
  }

  /** The three codes are distinct, so encoding then decoding is the identity. */
  lemma PaymentRoundTrip(m: PaymentMethod)
    ensures PaymentFromCode(m.Code()) == Some(m)
    ensures forall n: PaymentMethod :: n.Code() == m.Code() ==> n == m
  {
  }

  /** A product review (Profile's review list and editor). */
  datatype Review = Review(
    id: string,
    userId: string,
    productId: int,
    rating: int,
    comment: string,
    date: string,
    userName: string)

  /** A placed order. `status` is kept as the string Profile switches on. */
  datatype Order = Order(
    id: string,
    userId: string,
    items: seq<CartItem>,
    totalPrice: int,
    date: string,
    status: string,
    trackingCode: Option<string>,
    shippingMethod: ShippingMethod,
    address: Address)

  /** A magazine article. */
  datatype BlogPost = BlogPost(
    id: int,
    title: string,
    excerpt: string,
    content: string,
    image: string,
    author: string,
    authorRole: string,
    date: string,
    readTime: string,
    category: string,
    relatedProductIds: Option<seq<int>>)
}
