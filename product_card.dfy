// A catalogue tile (components/ProductCard.tsx). Besides its prices, the card
// shows either an "add to cart" button (quantity 0) or a minus/plus stepper,
// plus a favourite heart; every button stops the click from reaching the
// card body, which opens the quick view.
module ProductCard {
  import opened Types
  import opened App

  /** The places on a card that react to a click. */
  datatype CardTarget = HeartButton | AddButton | MinusButton | PlusButton | CardBody

  /** What one click on a card asks the storefront to do. */
  datatype CardEffect =
    | ToggleFavoriteEffect(id: int)
    | CartEffect(request: CartRequest)
    | QuickViewEffect(product: Product)

  /** The clickable parts shown for a given `cartQuantity` (`cartQuantity === 0 ? add : stepper`). */
  function Targets(cartQuantity: int): (targets: seq<CardTarget>)
    ensures HeartButton in targets && CardBody in targets
    ensures AddButton in targets <==> cartQuantity == 0
    ensures MinusButton in targets <==> cartQuantity != 0
    ensures PlusButton in targets <==> cartQuantity != 0
  {
    if cartQuantity == 0 then [HeartButton, AddButton, CardBody]
    else [HeartButton, MinusButton, PlusButton, CardBody]
  }

  /**
   * The single effect of a click. Buttons call `stopPropagation`, so only a
   * click on the body opens the quick view; the stepper sends steps of one.
   */
  function Click(product: Product, target: CardTarget): (effect: CardEffect)
    ensures effect.QuickViewEffect? <==> target == CardBody
    ensures effect.QuickViewEffect? ==> effect.product == product
    ensures effect.ToggleFavoriteEffect? <==> target == HeartButton
    ensures effect.ToggleFavoriteEffect? ==> effect.id == product.id
    ensures effect.CartEffect? ==> !effect.request.RemoveRequest?
    ensures effect.CartEffect? && effect.request.AddRequest? ==> target == AddButton && effect.request.product == product
    ensures effect.CartEffect? && effect.request.UpdateRequest? ==>
      effect.request.id == product.id && (effect.request.delta == 1 <==> target == PlusButton) &&
      (effect.request.delta == -1 <==> target == MinusButton)
  {
    match target
    case HeartButton => ToggleFavoriteEffect(product.id)
    case AddButton => CartEffect(AddRequest(product))
    case MinusButton => CartEffect(UpdateRequest(product.id, -1))
    case PlusButton => CartEffect(UpdateRequest(product.id, 1))
    case CardBody => QuickViewEffect(product)
  }

  /** Fed from a valid cart, a card offers "add" exactly when its product is not in the cart. */
  lemma AddOfferedIffAbsent(cart: seq<CartItem>, product: Product)
    requires CartValid(cart)
    ensures AddButton in Targets(CartQuantity(cart, product.id)) <==> product.id !in Ids(cart)
  {
  }

  /** After "add" on a card, the card shows the stepper at quantity 1. */
  lemma AddShowsStepper(cart: seq<CartItem>, product: Product)
    requires CartValid(cart) && product.id !in Ids(cart)
    ensures CartQuantity(AddedToCart(cart, product), product.id) == 1
    ensures MinusButton in Targets(CartQuantity(AddedToCart(cart, product), product.id))
  {
    AddShowsOneMore(cart, product);
  }

  /** Minus on a card showing 1 takes the product out of the cart and brings "add" back. */
  lemma MinusAtOneShowsAdd(cart: seq<CartItem>, k: nat)
    requires CartValid(cart) && k < |cart| && cart[k].quantity == 1
    ensures cart[k].id() !in Ids(QuantityUpdated(cart, cart[k].id(), -1))
    ensures AddButton in Targets(CartQuantity(QuantityUpdated(cart, cart[k].id(), -1), cart[k].id()))
  {
    UpdateShows(cart, k, -1);
    UpdateKeepsValid(cart, cart[k].id(), -1);
  }
}
