// The cart page (components/Cart.tsx): its own copy of the price parser, the
// subtotal it folds over the lines, the summary card and the per-line
// buttons, which send quantity and removal requests up to the storefront.
module Cart {
  import opened Types
  import opened Prices
  import opened App

  /** `parsePersianPrice`: the shared three stages behind a guard for the empty string. */
  method ParsePersianPrice(priceStr: string) returns (n: nat)
    ensures n == PriceValue(priceStr)
  {
    if priceStr == [] {
      return 0;
    }
    var cleanStr := ReplacePersianDigits(priceStr);
    var numericOnly := KeepAsciiDigits(cleanStr);
    n := ParseIntOrZero(numericOnly);
    PipelineMeaning(priceStr);
  }

  /** The guard changes nothing: without it the empty string also parses to 0. */
  lemma EmptyGuardRedundant()
    ensures ParseIntOrZero(KeepAsciiDigits(ToEnglishDigits(""))) == 0 == PriceValue("")
  {
    PipelineMeaning("");
  }

  /** A line's contribution to the subtotal: its parsed unit price times its quantity. */
  function LineTotal(line: CartItem): int
  {
    PriceValue(line.product.price) * line.quantity
  }

  /** `items.reduce((acc, item) => acc + parsePersianPrice(item.price) * item.quantity, 0)`. */
  function Subtotal(items: seq<CartItem>): (total: int)
    ensures QuantitiesPositive(items) ==> total >= 0
  {
    SubtotalNonNegative(items);
    SumLines(items, LineTotal)
  }

  /** Changing a line's quantity by d changes its total by d unit prices. */
  lemma LineTotalStep(line: CartItem, d: int)
    ensures LineTotal(line.(quantity := line.quantity + d)) == LineTotal(line) + PriceValue(line.product.price) * d
  {
    Distribute(PriceValue(line.product.price), line.quantity, d);
  }

  lemma Distribute(p: int, q: int, d: int)
    ensures p * (q + d) == p * q + p * d
  {
  }

  lemma {:induction false} SubtotalNonNegative(items: seq<CartItem>)
    ensures QuantitiesPositive(items) ==> SumLines(items, LineTotal) >= 0
  {
    if items != [] {
      SubtotalNonNegative(items[..|items| - 1]);
    }
  }

  /**
   * Adding a product to a valid cart raises the subtotal by one unit price: the
   * price stored in the existing line when there is one, else the product's.
   */
  lemma AddRaisesSubtotal(cart: seq<CartItem>, product: Product)
    requires CartValid(cart)
    ensures Subtotal(AddedToCart(cart, product)) == Subtotal(cart) +
      match Find(cart, product.id)
      case Some(line) => PriceValue(line.product.price)
      case None => PriceValue(product.price)
  {
    if product.id in Ids(cart) {
      var k :| 0 <= k < |cart| && Ids(cart)[k] == product.id;
      FindFirst(cart, k);
      AddBumpRaises(cart, product, k);
    } else {
      AddNewRaises(cart, product);
    }
  }

  lemma AddBumpRaises(cart: seq<CartItem>, product: Product, k: nat)
    requires IdsUnique(cart) && k < |cart| && cart[k].id() == product.id
    ensures Subtotal(AddedToCart(cart, product)) == Subtotal(cart) + PriceValue(cart[k].product.price)
  {
    AddExistingBumpsLine(cart, product, k);
    BumpRaisesSum(cart, k);
  }

  /** Raising line k by one adds one unit price to the sum of line totals. */
  lemma BumpRaisesSum(cart: seq<CartItem>, k: nat)
    requires k < |cart|
    ensures SumLines(cart[k := cart[k].(quantity := cart[k].quantity + 1)], LineTotal) ==
      SumLines(cart, LineTotal) + PriceValue(cart[k].product.price)
  {
    SumReplace(cart, k, cart[k].(quantity := cart[k].quantity + 1), LineTotal);
    LineTotalStep(cart[k], 1);
  }

  lemma AddNewRaises(cart: seq<CartItem>, product: Product)
    requires product.id !in Ids(cart)
    ensures Find(cart, product.id) == None
    ensures Subtotal(AddedToCart(cart, product)) == Subtotal(cart) + PriceValue(product.price)
  {
    AddNewAppends(cart, product);
    SumConcat(cart, [CartItem(product, 1)], LineTotal);
    SumSingle(CartItem(product, 1), LineTotal);
  }

  /**
   * A quantity step on line k of a valid cart moves the subtotal by delta unit
   * prices, or takes the whole line off when the quantity would drop below one.
   */
  lemma UpdateMovesSubtotal(cart: seq<CartItem>, k: nat, delta: int)
    requires CartValid(cart) && k < |cart|
    ensures Subtotal(QuantityUpdated(cart, cart[k].id(), delta)) ==
      Subtotal(cart) + PriceValue(cart[k].product.price) * (if cart[k].quantity + delta >= 1 then delta else -cart[k].quantity)
  {
    if cart[k].quantity + delta >= 1 {
      UpdateInPlace(cart, k, delta);
      StepMovesSum(cart, k, delta);
    } else {
      UpdateDropsLine(cart, k, delta);
      DropLowersSum(cart, k);
    }
  }

  /** Stepping line k by delta moves the sum of line totals by delta unit prices. */
  lemma StepMovesSum(cart: seq<CartItem>, k: nat, delta: int)
    requires k < |cart|
    ensures SumLines(cart[k := cart[k].(quantity := cart[k].quantity + delta)], LineTotal) ==
      SumLines(cart, LineTotal) + PriceValue(cart[k].product.price) * delta
  {
    SumReplace(cart, k, cart[k].(quantity := cart[k].quantity + delta), LineTotal);
    LineTotalStep(cart[k], delta);
  }

  /** Dropping line k takes its quantity's worth of unit prices off the sum of line totals. */
  lemma DropLowersSum(cart: seq<CartItem>, k: nat)
    requires k < |cart|
    ensures SumLines(cart[..k] + cart[k + 1..], LineTotal) ==
      SumLines(cart, LineTotal) + PriceValue(cart[k].product.price) * -cart[k].quantity
  {
    SumDrop(cart, k, LineTotal);
    Negate(PriceValue(cart[k].product.price), cart[k].quantity);
  }

  lemma Negate(p: int, q: int)
    ensures p * -q == -(p * q)
  {
  }

  /** Raising a line's quantity never lowers the subtotal. */
  lemma GrowingLineRaisesSubtotal(cart: seq<CartItem>, k: nat, delta: nat)
    requires CartValid(cart) && k < |cart|
    ensures Subtotal(QuantityUpdated(cart, cart[k].id(), delta)) >= Subtotal(cart)
  {
    var before := Subtotal(cart);
    var p := PriceValue(cart[k].product.price);
    assert cart[k].quantity >= 1;
    UpdateMovesSubtotal(cart, k, delta);
    assert Subtotal(QuantityUpdated(cart, cart[k].id(), delta)) == before + p * delta;
    NonNegativeProduct(p, delta);
  }

  lemma NonNegativeProduct(a: nat, b: nat)
    ensures a * b >= 0
  {
  }

  /** Removing line k of a valid cart takes exactly its line total off the subtotal. */
  lemma RemoveLowersSubtotal(cart: seq<CartItem>, k: nat)
    requires CartValid(cart) && k < |cart|
    ensures Subtotal(RemovedFromCart(cart, cart[k].id())) == Subtotal(cart) - LineTotal(cart[k])
  {
    RemoveAt(cart, k);
    SumDrop(cart, k, LineTotal);
  }

  /** What the page renders: the empty state, or the lines with the summary card. */
  datatype CartPage =
    | EmptyCart
    | Filled(lines: seq<CartItem>, itemCount: int, subtotal: int, shippingFree: bool, payable: int)

  /**
   * The page for a cart. An empty cart shows the empty state; otherwise the
   * summary card shows the unit count, the subtotal, free shipping and a
   * payable amount equal to the subtotal.
   */
  function Page(items: seq<CartItem>): (page: CartPage)
    ensures page.EmptyCart? <==> items == []
    ensures page.Filled? ==> page.lines == items && page.shippingFree
    ensures page.Filled? ==> page.itemCount == CartCount(items) && page.payable == page.subtotal == Subtotal(items)
    ensures page.Filled? && QuantitiesPositive(items) ==> page.itemCount >= |items| && page.payable >= 0
  {
    if items == [] then EmptyCart
    else
      var subtotal := Subtotal(items);
      Filled(items, CartCount(items), subtotal, true, subtotal)
  }

  /** The three buttons of a line, left to right: minus, plus and the bin. */
  function LineButtons(line: CartItem): (requests: seq<CartRequest>)
    ensures |requests| == 3
    ensures requests[0] == UpdateRequest(line.id(), -1) && requests[1] == UpdateRequest(line.id(), 1)
    ensures requests[2] == RemoveRequest(line.id())
  {
    [UpdateRequest(line.id(), -1), UpdateRequest(line.id(), 1), RemoveRequest(line.id())]
  }

  /** On a line with quantity 1, the minus button does what the bin does. */
  lemma MinusAtOneRemoves(cart: seq<CartItem>, k: nat)
    requires CartValid(cart) && k < |cart| && cart[k].quantity == 1
    ensures QuantityUpdated(cart, cart[k].id(), -1) == RemovedFromCart(cart, cart[k].id())
  {
    UpdateAt(cart, k, -1);
    RemoveAt(cart, k);
  }

  /** Plus then minus on a line of a valid cart gives back the same cart. */
  lemma PlusThenMinus(cart: seq<CartItem>, k: nat)
    requires CartValid(cart) && k < |cart|
    ensures QuantityUpdated(QuantityUpdated(cart, cart[k].id(), 1), cart[k].id(), -1) == cart
  {
    var id := cart[k].id();
    var line := cart[k];
    var bumped := cart[k := line.(quantity := line.quantity + 1)];
    UpdateInPlace(cart, k, 1);
    UnbumpRestores(cart, k, bumped);
  }

  lemma UnbumpRestores(cart: seq<CartItem>, k: nat, bumped: seq<CartItem>)
    requires CartValid(cart) && k < |cart|
    requires bumped == cart[k := cart[k].(quantity := cart[k].quantity + 1)]
    requires CartValid(bumped)
    ensures QuantityUpdated(bumped, cart[k].id(), -1) == cart
  {
    var line := cart[k];
    var up := line.(quantity := line.quantity + 1);
    assert bumped[k] == up;
    assert up.(quantity := up.quantity + -1) == line;
    UpdateInPlace(bumped, k, -1);
    assert bumped[k := line] == cart;
  }

  /** Adding a product that is not in a valid cart and pressing minus once gives back the same cart. */
  lemma AddThenMinus(cart: seq<CartItem>, product: Product)
    requires CartValid(cart) && product.id !in Ids(cart)
    ensures QuantityUpdated(AddedToCart(cart, product), product.id, -1) == cart
  {
    AddNewAppends(cart, product);
    AddKeepsValid(cart, product);
    var added := AddedToCart(cart, product);
    assert added[|cart|].id() == product.id;
    MinusAtOneRemoves(added, |cart|);
    RemoveAt(added, |cart|);
    assert added[..|cart|] + added[|cart| + 1..] == cart;
  }
}
