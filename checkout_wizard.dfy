// The three-step checkout (components/CheckoutWizard.tsx): address, shipping
// method, payment gateway. The wizard keeps its own step and selections; the
// cart lines and the user are handed in by the storefront. Its subtotal uses
// a fourth copy of the price parser, this one filtering with `\D`.
module CheckoutWizard {
  import opened Types
  import opened Prices
  import opened App
  import Cart

  /** The inline `parsePersianPrice`: the ten passes, then `replace(/\D/g, '')` and `parseInt(_, 10) || 0`. */
  method ParsePersianPrice(str: string) returns (n: nat)
    ensures n == PriceValue(str)
  {
    var res := ReplacePersianDigits(str);
    n := ParseIntOrZero(RemoveNonDigits(res));
    RegexClassesAgree(res);
    PipelineMeaning(str);
  }

  /** One line as the wizard's reduce prices it. */
  function LineTotal(item: CartItem): int
  {
    ParseIntOrZero(RemoveNonDigits(ToEnglishDigits(item.product.price))) * item.quantity
  }

  /** The wizard's subtotal, folded over the lines as its `reduce` does. */
  function Subtotal(items: seq<CartItem>): int
  {
    SumLines(items, LineTotal)
  }

  /** The wizard and the cart page agree on every cart's subtotal, whichever regex their parser uses. */
  lemma {:induction false} SubtotalAgrees(items: seq<CartItem>)
    ensures Subtotal(items) == Cart.Subtotal(items)
  {
    if items != [] {
      var last := items[|items| - 1];
      SubtotalAgrees(items[..|items| - 1]);
      RegexClassesAgree(ToEnglishDigits(last.product.price));
      PipelineMeaning(last.product.price);
      assert LineTotal(last) == Cart.LineTotal(last);
    }
  }

  /** `shippingPrice`: 70000 for the pharmacy's own courier, 45000 by post, nothing for pickup. */
  function ShippingPrice(m: ShippingMethod): (price: nat)
    ensures price == 0 <==> m == Pickup
    ensures price <= 70000
  {
    match m
    case Jet => 70000
    case Post => 45000
    case Pickup => 0
  }

  /** Digits followed by a suffix that spells three zeros are worth those digits times a thousand. */
  lemma ThousandsSuffix(digits: string, suffix: string)
    requires DigitsOf(suffix) == [0, 0, 0]
    ensures PriceValue(digits + suffix) == PriceValue(digits) * 1000
  {
    PriceValueAppend(digits, suffix);
    var one: seq<nat> := [0];
    assert one[..0] == [] && ValueOf(one) == 0;
    var two := one + [0];
    assert two[..1] == one && ValueOf(two) == 0;
    var three := two + [0];
    assert three[..2] == two && ValueOf(three) == 0;
    assert three == [0, 0, 0];
    assert Pow10(3) == 1000;
  }

  /** The shared tail of both advertised prices spells the digits 0, 0, 0. */
  lemma ThousandTomanDigits()
    ensures DigitsOf(",۰۰۰ تومان") == [0, 0, 0]
  {
    TomanSplit();
    TomanHasNoDigits();
    ZerosDigits();
    DigitsOfAppend([',', '۰', '۰', '۰'], " تومان");
  }

  lemma TomanSplit()
    ensures ",۰۰۰ تومان" == [',', '۰', '۰', '۰'] + " تومان"
  {
  }

  lemma ZerosDigits()
    ensures DigitsOf([',', '۰', '۰', '۰']) == [0, 0, 0]
  {
    DigitsOfAppend([','], ['۰', '۰', '۰']);
    assert [',', '۰', '۰', '۰'] == [','] + ['۰', '۰', '۰'];
  }

  lemma TwoDigits(a: char, b: char)
    requires IsDigit(a) && IsDigit(b)
    ensures PriceValue([a, b]) == DigitValue(a) * 10 + DigitValue(b)
  {
    assert [a, b][1..] == [b] && [b][1..] == [];
    assert DigitsOf([b]) == [DigitValue(b)];
    assert DigitsOf([a, b]) == [DigitValue(a)] + [DigitValue(b)];
    var ds: seq<nat> := [DigitValue(a), DigitValue(b)];
    assert ds[..1] == [DigitValue(a)] && ds[..1][..0] == [];
    assert ValueOf(ds[..1]) == DigitValue(a);
  }

  /** The price printed on the courier option is the one `shippingPrice` charges. */
  lemma AdvertisedJetPrice()
    ensures PriceValue("۷۰,۰۰۰ تومان") == ShippingPrice(Jet)
  {
    JetPriceSplit();
    ThousandTomanDigits();
    TwoDigits('۷', '۰');
    ThousandsSuffix("۷۰", ",۰۰۰ تومان");
  }

  lemma JetPriceSplit()
    ensures "۷۰,۰۰۰ تومان" == ['۷', '۰'] + ",۰۰۰ تومان"
  {
  }

  /** The price printed on the post option is the one `shippingPrice` charges. */
  lemma AdvertisedPostPrice()
    ensures PriceValue("۴۵,۰۰۰ تومان") == ShippingPrice(Post)
  {
    PostPriceSplit();
    ThousandTomanDigits();
    TwoDigits('۴', '۵');
    ThousandsSuffix("۴۵", ",۰۰۰ تومان");
  }

  lemma PostPriceSplit()
    ensures "۴۵,۰۰۰ تومان" == ['۴', '۵'] + ",۰۰۰ تومان"
  {
  }

  /** `total = subtotal + shippingPrice`: never below the subtotal, and equal to it exactly for pickup. */
  function OrderTotal(items: seq<CartItem>, m: ShippingMethod): (total: int)
    ensures total >= Subtotal(items)
    ensures total == Subtotal(items) <==> m == Pickup
  {
    Subtotal(items) + ShippingPrice(m)
  }

  /** Only with pickup does the wizard charge what the cart page's summary called payable. */
  lemma PickupMatchesCartPage(items: seq<CartItem>, m: ShippingMethod)
    requires items != []
    ensures OrderTotal(items, m) == Cart.Page(items).payable <==> m == Pickup
  {
    SubtotalAgrees(items);
  }

  /** The shipping name in the step 3 summary, as written: `shipping === JET ? 'جت' : 'پست'`. */
  function ShippingLabelAsWritten(m: ShippingMethod): string
  {
    if m == Jet then "جت" else "پست"
  }

  /** As written, a pickup order's summary names the post, next to a shipping cost of 0. */
  lemma PickupShownAsPost()
    ensures ShippingLabelAsWritten(Pickup) == ShippingLabelAsWritten(Post) == "پست"
    ensures ShippingPrice(Pickup) == 0 && ShippingPrice(Post) != 0
  {
  }

  /** The summary name meant for each method: the short form of the option the customer picked. */
  function ShippingLabel(m: ShippingMethod): (name: string)
    ensures m != Pickup ==> name == ShippingLabelAsWritten(m)
  {
    match m
    case Jet => "جت"
    case Post => "پست"
    case Pickup => "مراجعه حضوری"
  }

  /** The corrected summary names tell the three methods apart. */
  lemma ShippingLabelsDistinct(m: ShippingMethod, n: ShippingMethod)
    ensures ShippingLabel(m) == ShippingLabel(n) <==> m == n
  {
  }

  /** What `onComplete` receives. */
  datatype CheckoutData = CheckoutData(selectedAddress: string, shipping: ShippingMethod, payment: PaymentMethod, total: int)

  class Wizard {
    const items: seq<CartItem>
    var user: User
    var step: int
    var selectedAddress: string
    var shipping: ShippingMethod
    var payment: PaymentMethod

    /** The step is 1..3, a selection is one of the user's addresses, and no step past the first without one. */
    predicate Valid()
      reads this
    {
      && 1 <= step <= 3
      && (selectedAddress == "" || selectedAddress in AddressIds(user.addresses))
      && (step >= 2 ==> selectedAddress != "")
    }

    /** Step 1, the first address preselected (`user.addresses[0]?.id || ''`), courier and ZarinPal. */
    constructor (items: seq<CartItem>, user: User)
      ensures Valid()
      ensures this.items == items && this.user == user && step == 1
      ensures selectedAddress == if user.addresses == [] then "" else user.addresses[0].id
      ensures shipping == Jet && payment == Zarinpal
    {
      this.items := items;
      this.user := user;
      step := 1;
      selectedAddress := if user.addresses == [] then "" else user.addresses[0].id;
      shipping := Jet;
      payment := Zarinpal;
      assert user.addresses != [] ==> AddressIds(user.addresses)[0] == user.addresses[0].id;
    }

    function Total(): int
      reads this
    {
      OrderTotal(items, shipping)
    }

    /** `disabled={step === 1 && !selectedAddress}`. */
    predicate NextDisabled()
      reads this
    {
      step == 1 && selectedAddress == ""
    }

    /** Clicking an address card; the cards are shown on step 1 only. */
    method SelectAddress(k: nat)
      requires Valid() && step == 1 && k < |user.addresses|
      modifies this
      ensures Valid()
      ensures user == old(user) && step == old(step) && shipping == old(shipping) && payment == old(payment)
      ensures selectedAddress == user.addresses[k].id
    {
      selectedAddress := user.addresses[k].id;
      assert AddressIds(user.addresses)[k] == selectedAddress;
    }

    /** Clicking a shipping option; shown on step 2 only. */
    method SelectShipping(m: ShippingMethod)
      requires Valid() && step == 2
      modifies this
      ensures Valid()
      ensures shipping == m
      ensures user == old(user) && step == old(step) && selectedAddress == old(selectedAddress) && payment == old(payment)
    {
      shipping := m;
    }

    /** Clicking a payment gateway; shown on step 3 only. */
    method SelectPayment(m: PaymentMethod)
      requires Valid() && step == 3
      modifies this
      ensures Valid()
      ensures payment == m
      ensures user == old(user) && step == old(step) && selectedAddress == old(selectedAddress) && shipping == old(shipping)
    {
      payment := m;
    }

    /**
     * The storefront passes the new user after the address form saves; the
     * selection survives, since saving never drops an id.
     */
    method AddressAdded(addr: Address)
      requires Valid()
      modifies this
      ensures Valid()
      ensures Some(user) == AddressSaved(Some(old(user)), addr)
      ensures step == old(step) && selectedAddress == old(selectedAddress)
      ensures shipping == old(shipping) && payment == old(payment)
    {
      SaveKeepsIds(user, addr);
      user := AddressSaved(Some(user), addr).value;
    }

    /**
     * The forward button: nothing while disabled, the next step before the
     * last, and on the last the order for `onComplete`, whose address is always
     * one of the user's.
     */
    method Next() returns (order: Option<CheckoutData>)
      requires Valid()
      modifies this
      ensures Valid()
      ensures old(NextDisabled()) ==> step == old(step) && order == None
      ensures !old(NextDisabled()) && old(step) < 3 ==> step == old(step) + 1 && order == None
      ensures !old(NextDisabled()) && old(step) == 3 ==>
        step == 3 && order == Some(CheckoutData(selectedAddress, shipping, payment, Total()))
      ensures order.Some? ==> order.value.selectedAddress in AddressIds(user.addresses)
      ensures user == old(user) && selectedAddress == old(selectedAddress)
      ensures shipping == old(shipping) && payment == old(payment)
    {
      if NextDisabled() {
        return None;
      }
      if step < 3 {
        step := step + 1;
        return None;
      }
      order := Some(CheckoutData(selectedAddress, shipping, payment, Total()));
    }

    /** The back button: the previous step, or on step 1 "cancel purchase", which hands control back to the cart page. */
    method Back() returns (cancelled: bool)
      requires Valid()
      modifies this
      ensures Valid()
      ensures cancelled <==> old(step) == 1
      ensures step == if old(step) > 1 then old(step) - 1 else old(step)
      ensures user == old(user) && selectedAddress == old(selectedAddress)
      ensures shipping == old(shipping) && payment == old(payment)
    {
      if step > 1 {
        step := step - 1;
        return false;
      }
      return true;
    }
  }
}
