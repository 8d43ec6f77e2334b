// The quick-view overlay (components/ProductDetailModal.tsx): an image
// gallery with thumbnails, the prices, a favourite button and the same
// add/stepper switch as the card, whose minus button turns into a bin when
// one unit is left. The overlay is mounted afresh for each product, so the
// gallery index starts at 0 every time.
module ProductDetailModal {
  import opened Types
  import opened App
  import ProductCard

  /** `product.gallery && product.gallery.length > 0 ? product.gallery : [product.image]`. */
  function Images(product: Product): (images: seq<string>)
    ensures |images| >= 1
    ensures product.gallery.Some? && product.gallery.value != [] ==> images == product.gallery.value
    ensures product.gallery.None? || product.gallery.value == [] ==> images == [product.image]
  {
    match product.gallery
    case Some(gallery) => if |gallery| > 0 then gallery else [product.image]
    case None => [product.image]
  }

  /** The thumbnail strip is rendered only for a real gallery of two or more pictures. */
  predicate ShowsThumbnails(product: Product)
  {
    |Images(product)| > 1
  }

  /** A product without a gallery shows its catalogue image alone, with no strip. */
  lemma NoGalleryNoStrip(product: Product)
    requires product.gallery.None? || |product.gallery.value| <= 1
    ensures !ShowsThumbnails(product)
    ensures product.gallery.None? ==> Images(product) == [product.image]
  {
  }

  /** The buttons of the overlay; the share button has no handler. */
  datatype DetailTarget = CloseButton | HeartButton | ShareButton | AddButton | PlusButton | MinusButton

  /** What one click on the overlay asks the storefront to do. */
  datatype DetailEffect =
    | CloseEffect
    | ToggleFavoriteEffect(id: int)
    | CartEffect(request: CartRequest)
    | NoEffect

  /** The buttons shown for a given `cartQuantity` (`cartQuantity === 0 ? add : stepper`). */
  function DetailTargets(cartQuantity: int): (targets: seq<DetailTarget>)
    ensures CloseButton in targets && HeartButton in targets && ShareButton in targets
    ensures AddButton in targets <==> cartQuantity == 0
    ensures PlusButton in targets <==> cartQuantity != 0
    ensures MinusButton in targets <==> cartQuantity != 0
  {
    if cartQuantity == 0 then [CloseButton, HeartButton, ShareButton, AddButton]
    else [CloseButton, HeartButton, ShareButton, PlusButton, MinusButton]
  }

  /**
   * The effect of a click: close, toggle this product's favourite, add this
   * product, or a step of one for its id. The minus button sends -1 even when
   * it shows the bin; removing the line is left to `updateQuantity`.
   */
  function DetailClick(product: Product, target: DetailTarget): (effect: DetailEffect)
    ensures effect.CloseEffect? <==> target == CloseButton
    ensures effect.NoEffect? <==> target == ShareButton
    ensures effect.ToggleFavoriteEffect? <==> target == HeartButton
    ensures effect.ToggleFavoriteEffect? ==> effect.id == product.id
    ensures effect.CartEffect? ==> !effect.request.RemoveRequest?
    ensures effect.CartEffect? && effect.request.AddRequest? <==> target == AddButton
    ensures effect.CartEffect? && effect.request.AddRequest? ==> effect.request.product == product
    ensures effect.CartEffect? && effect.request.UpdateRequest? ==>
      effect.request.id == product.id && (effect.request.delta == 1 <==> target == PlusButton) &&
      (effect.request.delta == -1 <==> target == MinusButton)
  {
    match target
    case CloseButton => CloseEffect
    case HeartButton => ToggleFavoriteEffect(product.id)
    case ShareButton => NoEffect
    case AddButton => CartEffect(AddRequest(product))
    case PlusButton => CartEffect(UpdateRequest(product.id, 1))
    case MinusButton => CartEffect(UpdateRequest(product.id, -1))
  }

  /** The overlay's cart controls are the card's: the same switch on `cartQuantity`, the same requests. */
  lemma ControlsMatchCard(product: Product, cartQuantity: int)
    ensures (AddButton in DetailTargets(cartQuantity)) == (ProductCard.AddButton in ProductCard.Targets(cartQuantity))
    ensures (PlusButton in DetailTargets(cartQuantity)) == (ProductCard.PlusButton in ProductCard.Targets(cartQuantity))
    ensures (MinusButton in DetailTargets(cartQuantity)) == (ProductCard.MinusButton in ProductCard.Targets(cartQuantity))
    ensures DetailClick(product, AddButton).request == ProductCard.Click(product, ProductCard.AddButton).request
    ensures DetailClick(product, PlusButton).request == ProductCard.Click(product, ProductCard.PlusButton).request
    ensures DetailClick(product, MinusButton).request == ProductCard.Click(product, ProductCard.MinusButton).request
  {
  }

  /** Fed from a valid cart, "add" on the overlay of a product not in the cart brings up the stepper at 1. */
  lemma DetailAddShowsStepper(cart: seq<CartItem>, product: Product)
    requires CartValid(cart) && product.id !in Ids(cart)
    ensures AddButton in DetailTargets(CartQuantity(cart, product.id))
    ensures CartQuantity(AddedToCart(cart, product), product.id) == 1
    ensures PlusButton in DetailTargets(CartQuantity(AddedToCart(cart, product), product.id))
  {
    AddShowsOneMore(cart, product);
  }

  /** On a product already in a valid cart, plus and minus move the shown quantity by one, down to zero. */
  lemma DetailStepperMoves(cart: seq<CartItem>, k: nat)
    requires CartValid(cart) && k < |cart|
    ensures PlusButton in DetailTargets(CartQuantity(cart, cart[k].id()))
    ensures CartQuantity(QuantityUpdated(cart, cart[k].id(), DetailClick(cart[k].product, PlusButton).request.delta), cart[k].id()) ==
      cart[k].quantity + 1
    ensures CartQuantity(QuantityUpdated(cart, cart[k].id(), DetailClick(cart[k].product, MinusButton).request.delta), cart[k].id()) ==
      cart[k].quantity - 1
  {
    FindFirst(cart, k);
    UpdateShows(cart, k, 1);
    UpdateShows(cart, k, -1);
  }

  /** What the minus button shows: the bin when one unit is left, otherwise a minus sign. */
  predicate MinusShowsBin(cartQuantity: int)
  {
    cartQuantity == 1
  }

  /** Fed from a valid cart, the bin appears exactly when pressing the button removes the line. */
  lemma BinMeansRemove(cart: seq<CartItem>, k: nat)
    requires CartValid(cart) && k < |cart|
    ensures MinusShowsBin(CartQuantity(cart, cart[k].id())) <==> cart[k].id() !in Ids(QuantityUpdated(cart, cart[k].id(), -1))
  {
    var id := cart[k].id();
    FindFirst(cart, k);
    UpdateShows(cart, k, -1);
    UpdateKeepsValid(cart, id, -1);
  }

  class DetailView {
    const product: Product
    const images: seq<string>
    var activeImageIndex: int

    predicate Valid()
      reads this
    {
      images == Images(product) && 0 <= activeImageIndex < |images|
    }

    /** `useState(0)`: the first picture. */
    constructor (product: Product)
      ensures Valid()
      ensures this.product == product && activeImageIndex == 0
    {
      this.product := product;
      images := Images(product);
      activeImageIndex := 0;
    }

    /** The picture in the large frame, `images[activeImageIndex]`. */
    function ActiveImage(): string
      requires Valid()
      reads this
    {
      images[activeImageIndex]
    }

    /** A thumbnail click; the strip exists only when there are two or more pictures. */
    method SelectThumbnail(idx: int)
      requires Valid() && ShowsThumbnails(product) && 0 <= idx < |images|
      modifies this
      ensures Valid()
      ensures activeImageIndex == idx && ActiveImage() == images[idx]
    {
      activeImageIndex := idx;
    }
  }
}
