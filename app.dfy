// The storefront's shared client state (App.tsx): the cart, the favourites
// list and the signed-in user with their address book, and the product filter.
// Each state updater in the source is a pure expression over the previous
// value (find / map / filter / spread); those are the functions below, named
// after the state they produce. The `Storefront` class holds the state cells
// and its methods replace a cell with the updater's result.
module App {
  import opened Types
  import opened Strings

  /** The catch-all category chip. */
  const AllProducts: string := "همه محصولات"

  // ---------------------------------------------------------------------------
  // Cart lines and their invariants

  /** The product ids of the cart's lines, in order. */
  function Ids(cart: seq<CartItem>): (ids: seq<int>)
    ensures |ids| == |cart|
    ensures forall i :: 0 <= i < |cart| ==> ids[i] == cart[i].id()
  {
    if cart == [] then [] else [cart[0].id()] + Ids(cart[1..])
  }

  predicate IdsUnique(cart: seq<CartItem>)
  {
    forall i, j :: 0 <= i < j < |cart| ==> cart[i].id() != cart[j].id()
  }

  predicate QuantitiesPositive(cart: seq<CartItem>)
  {
    forall i :: 0 <= i < |cart| ==> cart[i].quantity >= 1
  }

  /** What the cart updaters keep: each product id at most once, every quantity at least 1. */
  predicate CartValid(cart: seq<CartItem>)
  {
    IdsUnique(cart) && QuantitiesPositive(cart)
  }

  /** `cart.find(item => item.id === id)`. */
  function Find(cart: seq<CartItem>, id: int): (r: Option<CartItem>)
    ensures r.Some? <==> id in Ids(cart)
    ensures r.Some? ==> r.value in cart && r.value.id() == id
  {
    if cart == [] then None
    else if cart[0].id() == id then Some(cart[0])
    else Find(cart[1..], id)
  }

  /** The line `find` returns is the first one with the id; in a valid cart, the only one. */
  lemma {:induction false} FindFirst(cart: seq<CartItem>, k: nat)
    requires k < |cart|
    requires forall j :: 0 <= j < k ==> cart[j].id() != cart[k].id()
    ensures Find(cart, cart[k].id()) == Some(cart[k])
  {
    if k > 0 {
      FindFirst(cart[1..], k - 1);
    }
  }

  // ---------------------------------------------------------------------------
  // addToCart

  /** `prev.map(item => item.id === id ? {...item, quantity: item.quantity + 1} : item)`. */
  function Incremented(cart: seq<CartItem>, id: int): (r: seq<CartItem>)
    ensures |r| == |cart|
    ensures Ids(r) == Ids(cart)
  {
    seq(|cart|, i requires 0 <= i < |cart| =>
      if cart[i].id() == id then cart[i].(quantity := cart[i].quantity + 1) else cart[i])
  }

  /** The cart after `addToCart(product)`. */
  function AddedToCart(cart: seq<CartItem>, product: Product): (r: seq<CartItem>)
    ensures |r| == if product.id in Ids(cart) then |cart| else |cart| + 1
    ensures product.id in Ids(r)
    ensures forall i :: 0 <= i < |cart| && cart[i].id() != product.id ==> r[i] == cart[i]
  {
    if Find(cart, product.id).Some? then Incremented(cart, product.id)
    else
      var r := cart + [CartItem(product, 1)];
      assert Ids(r)[|cart|] == product.id;
      r
  }

  /** Adding a product already in a valid cart raises that line by exactly one and touches nothing else. */
  lemma AddExistingBumpsLine(cart: seq<CartItem>, product: Product, k: nat)
    requires IdsUnique(cart)
    requires k < |cart| && cart[k].id() == product.id
    ensures AddedToCart(cart, product) == cart[k := cart[k].(quantity := cart[k].quantity + 1)]
  {
    assert product.id in Ids(cart);
  }

  /** Adding a new product appends `{...product, quantity: 1}` after the existing lines. */
  lemma AddNewAppends(cart: seq<CartItem>, product: Product)
    requires product.id !in Ids(cart)
    ensures AddedToCart(cart, product) == cart + [CartItem(product, 1)]
    ensures AddedToCart(cart, product)[..|cart|] == cart
  {
  }

  lemma AddKeepsValid(cart: seq<CartItem>, product: Product)
    requires CartValid(cart)
    ensures CartValid(AddedToCart(cart, product))
  {
    if product.id in Ids(cart) {
      var k :| 0 <= k < |cart| && Ids(cart)[k] == product.id;
      AddExistingBumpsLine(cart, product, k);
      BumpKeepsValid(cart, k);
    } else {
      AddNewAppends(cart, product);
      var r := cart + [CartItem(product, 1)];
      forall i, j | 0 <= i < j < |r|
        ensures r[i].id() != r[j].id()
      {
        if j == |cart| {
          assert r[i].id() == Ids(cart)[i];
        }
      }
    }
  }

  lemma BumpKeepsValid(cart: seq<CartItem>, k: nat)
    requires CartValid(cart) && k < |cart|
    ensures CartValid(cart[k := cart[k].(quantity := cart[k].quantity + 1)])
  {
    var r := cart[k := cart[k].(quantity := cart[k].quantity + 1)];
    assert forall i :: 0 <= i < |r| ==> r[i].id() == cart[i].id();
  }

  // ---------------------------------------------------------------------------
  // removeFromCart

  /** The cart after `removeFromCart(id)`: `prev.filter(item => item.id !== id)`. */
  function RemovedFromCart(cart: seq<CartItem>, id: int): (r: seq<CartItem>)
    ensures id !in Ids(r)
    ensures forall x :: x in r ==> x in cart
    ensures forall x :: x in cart && x.id() != id ==> x in r
    ensures |r| <= |cart|
  {
    if cart == [] then []
    else if cart[0].id() == id then RemovedFromCart(cart[1..], id)
    else [cart[0]] + RemovedFromCart(cart[1..], id)
  }

  lemma {:induction false} RemoveAbsent(cart: seq<CartItem>, id: int)
    requires id !in Ids(cart)
    ensures RemovedFromCart(cart, id) == cart
  {
    if cart != [] {
      assert Ids(cart)[0] == cart[0].id();
      assert Ids(cart[1..]) == Ids(cart)[1..];
      RemoveAbsent(cart[1..], id);
    }
  }

  /** In a cart with unique ids, removing a line's id drops exactly that line; the rest keep their order. */
  lemma {:induction false} RemoveAt(cart: seq<CartItem>, k: nat)
    requires IdsUnique(cart)
    requires k < |cart|
    ensures RemovedFromCart(cart, cart[k].id()) == cart[..k] + cart[k + 1..]
  {
    if k == 0 {
      RemoveHead(cart);
      assert cart[..0] + cart[1..] == cart[1..];
    } else {
      var tail := cart[1..];
      assert tail[k - 1] == cart[k];
      assert cart[0].id() != cart[k].id();
      UniqueTail(cart);
      RemoveAt(tail, k - 1);
      DropAfterHead(cart, k);
    }
  }

  /** Removing the first line's id from a cart with unique ids leaves the tail. */
  lemma RemoveHead(cart: seq<CartItem>)
    requires IdsUnique(cart) && cart != []
    ensures RemovedFromCart(cart, cart[0].id()) == cart[1..]
  {
    var tail := cart[1..];
    assert cart[0].id() !in Ids(tail) by {
      forall j | 0 <= j < |tail|
        ensures Ids(tail)[j] != cart[0].id()
      {
        assert tail[j] == cart[j + 1];
      }
    }
    RemoveAbsent(tail, cart[0].id());
  }

  /** Dropping the line at k > 0 keeps the head in front of the tail with its line k - 1 dropped. */
  lemma DropAfterHead(cart: seq<CartItem>, k: nat)
    requires 0 < k < |cart|
    ensures [cart[0]] + (cart[1..][..k - 1] + cart[1..][k..]) == cart[..k] + cart[k + 1..]
  {
    assert cart[1..][..k - 1] == cart[1..k];
    assert cart[1..][k..] == cart[k + 1..];
    assert [cart[0]] + cart[1..k] == cart[..k];
  }

  lemma UniqueTail(cart: seq<CartItem>)
    requires IdsUnique(cart) && cart != []
    ensures IdsUnique(cart[1..])
  {
    var tail := cart[1..];
    forall i, j | 0 <= i < j < |tail|
      ensures tail[i].id() != tail[j].id()
    {
      assert tail[i] == cart[i + 1] && tail[j] == cart[j + 1];
    }
  }

  lemma RemoveKeepsValid(cart: seq<CartItem>, id: int)
    requires CartValid(cart)
    ensures CartValid(RemovedFromCart(cart, id))
  {
    if id in Ids(cart) {
      var k :| 0 <= k < |cart| && Ids(cart)[k] == id;
      RemoveAt(cart, k);
      DropKeepsValid(cart, k);
    } else {
      RemoveAbsent(cart, id);
    }
  }

  lemma DropKeepsValid(cart: seq<CartItem>, k: nat)
    requires CartValid(cart) && k < |cart|
    ensures CartValid(cart[..k] + cart[k + 1..])
  {
    var r := cart[..k] + cart[k + 1..];
    forall i | 0 <= i < |r|
      ensures r[i] == cart[if i < k then i else i + 1]
    {
    }
  }

  // ---------------------------------------------------------------------------
  // updateQuantity

  /** `prev.map(item => item.id === id ? {...item, quantity: Math.max(0, item.quantity + delta)} : item)`. */
  function Adjusted(cart: seq<CartItem>, id: int, delta: int): (r: seq<CartItem>)
    ensures |r| == |cart|
  {
    seq(|cart|, i requires 0 <= i < |cart| =>
      if cart[i].id() == id then cart[i].(quantity := Max0(cart[i].quantity + delta)) else cart[i])
  }

  function Max0(x: int): nat { if x > 0 then x else 0 }

  /** `.filter(item => item.quantity > 0)`. */
  function KeepPositive(cart: seq<CartItem>): (r: seq<CartItem>)
    ensures |r| <= |cart|
  {
    if cart == [] then []
    else if cart[0].quantity > 0 then [cart[0]] + KeepPositive(cart[1..])
    else KeepPositive(cart[1..])
  }

  /** The filter keeps exactly the lines with a positive quantity. */
  lemma {:induction false} KeepPositiveMembers(cart: seq<CartItem>)
    ensures forall x :: x in KeepPositive(cart) <==> x in cart && x.quantity > 0
  {
    if cart != [] {
      KeepPositiveMembers(cart[1..]);
      assert cart == [cart[0]] + cart[1..];
    }
  }

  /**
   * The cart after `updateQuantity(id, delta)`. A line with quantity 1 asked to
   * go down by one is filtered out; otherwise the line is set to max(0, q + delta)
   * and every line whose quantity is not positive is dropped.
   */
  function QuantityUpdated(cart: seq<CartItem>, id: int, delta: int): (r: seq<CartItem>)
    ensures forall x :: x in r && x.id() == id ==> x.quantity >= 1
    ensures forall x :: x in r && x.id() != id ==> x in cart
    ensures forall x :: x in cart && x.id() != id && x.quantity >= 1 ==> x in r
    ensures |r| <= |cart|
  {
    var existing := Find(cart, id);
    if existing.Some? && existing.value.quantity == 1 && delta == -1 then
      RemovedFromCart(cart, id)
    else
      var adjusted := Adjusted(cart, id, delta);
      assert forall x :: x in cart && x.id() != id ==> x in adjusted by {
        forall x | x in cart && x.id() != id
          ensures x in adjusted
        {
          var i :| 0 <= i < |cart| && cart[i] == x;
          assert adjusted[i] == x;
        }
      }
      KeepPositiveMembers(adjusted);
      KeepPositive(adjusted)
  }

  lemma {:induction false} KeepAllPositive(cart: seq<CartItem>)
    requires QuantitiesPositive(cart)
    ensures KeepPositive(cart) == cart
  {
    if cart != [] {
      KeepAllPositive(cart[1..]);
    }
  }

  lemma {:induction false} KeepConcat(a: seq<CartItem>, b: seq<CartItem>)
    ensures KeepPositive(a + b) == KeepPositive(a) + KeepPositive(b)
  {
    if a != [] {
      assert (a + b)[0] == a[0] && (a + b)[1..] == a[1..] + b;
      KeepConcat(a[1..], b);
    } else {
      assert a + b == b;
    }
  }

  /** Only line k may be non-positive: the filter keeps it or drops exactly it. */
  lemma {:induction false} KeepPositiveAt(cart: seq<CartItem>, k: nat)
    requires k < |cart|
    requires forall i :: 0 <= i < |cart| && i != k ==> cart[i].quantity >= 1
    ensures KeepPositive(cart) == if cart[k].quantity > 0 then cart else cart[..k] + cart[k + 1..]
  {
    var front, back := cart[..k], cart[k + 1..];
    assert QuantitiesPositive(front);
    assert QuantitiesPositive(back) by {
      forall i | 0 <= i < |back| ensures back[i].quantity >= 1 {
        assert back[i] == cart[k + 1 + i];
      }
    }
    KeepAllPositive(front);
    KeepAllPositive(back);
    var mid := KeepPositive([cart[k]]);
    assert mid == if cart[k].quantity > 0 then [cart[k]] else [];
    KeepConcat(front, [cart[k]]);
    KeepConcat(front + [cart[k]], back);
    assert cart == front + [cart[k]] + back;
    assert KeepPositive(cart) == front + mid + back;
  }

  /**
   * On a valid cart, `updateQuantity` on a line with quantity q sets it to q + delta
   * in place when that is positive, and otherwise removes the line; the other lines
   * keep their values and order.
   */
  lemma UpdateAt(cart: seq<CartItem>, k: nat, delta: int)
    requires CartValid(cart)
    requires k < |cart|
    ensures QuantityUpdated(cart, cart[k].id(), delta) ==
      if cart[k].quantity + delta >= 1 then cart[k := cart[k].(quantity := cart[k].quantity + delta)]
      else cart[..k] + cart[k + 1..]
  {
    FindFirst(cart, k);
    if cart[k].quantity == 1 && delta == -1 {
      RemoveAt(cart, k);
    } else {
      AdjustedAt(cart, k, delta);
      FilterAdjusted(cart, k, delta);
    }
  }

  /** In a cart with unique ids, the `map` step rewrites line k alone. */
  lemma AdjustedAt(cart: seq<CartItem>, k: nat, delta: int)
    requires IdsUnique(cart) && k < |cart|
    ensures Adjusted(cart, cart[k].id(), delta) == cart[k := cart[k].(quantity := Max0(cart[k].quantity + delta))]
  {
    var id := cart[k].id();
    var adjusted := Adjusted(cart, id, delta);
    forall i | 0 <= i < |cart| && i != k
      ensures adjusted[i] == cart[i]
    {
      assert cart[i].id() != id;
    }
  }

  /** The `filter` step after the `map` step: line k stays when positive, and is dropped otherwise. */
  lemma FilterAdjusted(cart: seq<CartItem>, k: nat, delta: int)
    requires QuantitiesPositive(cart) && k < |cart|
    ensures KeepPositive(cart[k := cart[k].(quantity := Max0(cart[k].quantity + delta))]) ==
      if cart[k].quantity + delta >= 1 then cart[k := cart[k].(quantity := cart[k].quantity + delta)]
      else cart[..k] + cart[k + 1..]
  {
    var line := cart[k].(quantity := Max0(cart[k].quantity + delta));
    var c := cart[k := line];
    KeepPositiveAt(c, k);
    if cart[k].quantity + delta < 1 {
      assert c[..k] == cart[..k];
      assert c[k + 1..] == cart[k + 1..];
    }
  }

  /** The in-place half of `UpdateAt`, with the validity of the result. */
  lemma UpdateInPlace(cart: seq<CartItem>, k: nat, delta: int)
    requires CartValid(cart) && k < |cart|
    requires cart[k].quantity + delta >= 1
    ensures QuantityUpdated(cart, cart[k].id(), delta) == cart[k := cart[k].(quantity := cart[k].quantity + delta)]
    ensures CartValid(cart[k := cart[k].(quantity := cart[k].quantity + delta)])
  {
    UpdateAt(cart, k, delta);
    StepKeepsValid(cart, k, delta);
  }

  /** Setting one line's quantity to a positive value keeps the cart valid. */
  lemma StepKeepsValid(cart: seq<CartItem>, k: nat, delta: int)
    requires CartValid(cart) && k < |cart|
    requires cart[k].quantity + delta >= 1
    ensures CartValid(cart[k := cart[k].(quantity := cart[k].quantity + delta)])
  {
    var r := cart[k := cart[k].(quantity := cart[k].quantity + delta)];
    forall i | 0 <= i < |r|
      ensures r[i].id() == cart[i].id() && r[i].quantity >= 1
    {
    }
  }

  /** The removing half of `UpdateAt`. */
  lemma UpdateDropsLine(cart: seq<CartItem>, k: nat, delta: int)
    requires CartValid(cart) && k < |cart|
    requires cart[k].quantity + delta < 1
    ensures QuantityUpdated(cart, cart[k].id(), delta) == cart[..k] + cart[k + 1..]
  {
    UpdateAt(cart, k, delta);
  }

  /** Updating an id that is not in a valid cart changes nothing. */
  lemma UpdateAbsent(cart: seq<CartItem>, id: int, delta: int)
    requires CartValid(cart)
    requires id !in Ids(cart)
    ensures QuantityUpdated(cart, id, delta) == cart
  {
    assert Adjusted(cart, id, delta) == cart;
    KeepAllPositive(cart);
  }

  lemma UpdateKeepsValid(cart: seq<CartItem>, id: int, delta: int)
    requires CartValid(cart)
    ensures CartValid(QuantityUpdated(cart, id, delta))
  {
    if id in Ids(cart) {
      var k :| 0 <= k < |cart| && Ids(cart)[k] == id;
      if cart[k].quantity + delta >= 1 {
        UpdateInPlace(cart, k, delta);
      } else {
        UpdateDropsLine(cart, k, delta);
        DropKeepsValid(cart, k);
      }
    } else {
      UpdateAbsent(cart, id, delta);
    }
  }

  // ---------------------------------------------------------------------------
  // Sums over the cart (`cart.reduce((a, b) => a + f(b), 0)`)

  /** The left fold of `f` over the lines, as `reduce` computes it. */
  function SumLines(cart: seq<CartItem>, f: CartItem -> int): int
  {
    if cart == [] then 0 else SumLines(cart[..|cart| - 1], f) + f(cart[|cart| - 1])
  }

  lemma {:induction false} SumConcat(a: seq<CartItem>, b: seq<CartItem>, f: CartItem -> int)
    ensures SumLines(a + b, f) == SumLines(a, f) + SumLines(b, f)
    decreases |b|
  {
    if b == [] {
      assert a + b == a;
    } else {
      assert (a + b)[..|a + b| - 1] == a + b[..|b| - 1];
      SumConcat(a, b[..|b| - 1], f);
    }
  }

  /** Replacing one line changes the sum by the difference of that line's term. */
  lemma SumReplace(cart: seq<CartItem>, k: nat, x: CartItem, f: CartItem -> int)
    requires k < |cart|
    ensures SumLines(cart[k := x], f) == SumLines(cart, f) - f(cart[k]) + f(x)
  {
    assert cart == cart[..k] + [cart[k]] + cart[k + 1..];
    assert cart[k := x] == cart[..k] + [x] + cart[k + 1..];
    SumConcat(cart[..k] + [cart[k]], cart[k + 1..], f);
    SumConcat(cart[..k], [cart[k]], f);
    SumConcat(cart[..k] + [x], cart[k + 1..], f);
    SumConcat(cart[..k], [x], f);
    assert [x][..0] == [] && [cart[k]][..0] == [];
  }

  /** Dropping one line removes exactly its term from the sum. */
  lemma SumDrop(cart: seq<CartItem>, k: nat, f: CartItem -> int)
    requires k < |cart|
    ensures SumLines(cart[..k] + cart[k + 1..], f) == SumLines(cart, f) - f(cart[k])
  {
    SplitAt(cart, k);
    SumAround(cart[..k], cart[k], cart[k + 1..], f);
  }

  lemma SplitAt(cart: seq<CartItem>, k: nat)
    requires k < |cart|
    ensures cart == cart[..k] + [cart[k]] + cart[k + 1..]
  {
  }

  /** A line between two runs adds its own term to the sum of the runs. */
  lemma SumAround(pre: seq<CartItem>, x: CartItem, post: seq<CartItem>, f: CartItem -> int)
    ensures SumLines(pre + [x] + post, f) == SumLines(pre + post, f) + f(x)
  {
    SumConcat(pre + [x], post, f);
    SumConcat(pre, [x], f);
    SumSingle(x, f);
    SumConcat(pre, post, f);
  }

  lemma SumSingle(x: CartItem, f: CartItem -> int)
    ensures SumLines([x], f) == f(x)
  {
    assert [x][..0] == [];
  }

  function LineQuantity(line: CartItem): int { line.quantity }

  /** The badge count, `cart.reduce((a, b) => a + b.quantity, 0)`: the number of units in the cart. */
  function CartCount(cart: seq<CartItem>): (n: int)
    ensures QuantitiesPositive(cart) ==> n >= |cart|
  {
    CountAtLeastLength(cart);
    SumLines(cart, LineQuantity)
  }

  lemma {:induction false} CountAtLeastLength(cart: seq<CartItem>)
    ensures QuantitiesPositive(cart) ==> SumLines(cart, LineQuantity) >= |cart|
  {
    if cart != [] {
      CountAtLeastLength(cart[..|cart| - 1]);
    }
  }

  /** `addToCart` adds exactly one unit to a valid cart. */
  lemma AddCountsOne(cart: seq<CartItem>, product: Product)
    requires CartValid(cart)
    ensures CartCount(AddedToCart(cart, product)) == CartCount(cart) + 1
  {
    if product.id in Ids(cart) {
      var k :| 0 <= k < |cart| && Ids(cart)[k] == product.id;
      AddExistingBumpsLine(cart, product, k);
      SumReplace(cart, k, cart[k].(quantity := cart[k].quantity + 1), LineQuantity);
    } else {
      SumConcat(cart, [CartItem(product, 1)], LineQuantity);
      assert [CartItem(product, 1)][..0] == [];
    }
  }

  /** On a valid cart, `updateQuantity(id, delta)` changes the unit count by delta, but never below zero for that line. */
  lemma UpdateCountsDelta(cart: seq<CartItem>, k: nat, delta: int)
    requires CartValid(cart) && k < |cart|
    ensures CartCount(QuantityUpdated(cart, cart[k].id(), delta)) ==
      CartCount(cart) + (if cart[k].quantity + delta >= 0 then delta else -cart[k].quantity)
  {
    UpdateAt(cart, k, delta);
    if cart[k].quantity + delta >= 1 {
      SumReplace(cart, k, cart[k].(quantity := cart[k].quantity + delta), LineQuantity);
    } else {
      SumDrop(cart, k, LineQuantity);
    }
  }

  // ---------------------------------------------------------------------------
  // The quantity a product card or the detail modal is given

  /** `cart.find(i => i.id === id)?.quantity || 0`. */
  function CartQuantity(cart: seq<CartItem>, id: int): (q: int)
    ensures id !in Ids(cart) ==> q == 0
    ensures QuantitiesPositive(cart) ==> (q >= 1 <==> id in Ids(cart))
  {
    match Find(cart, id)
    case None => 0
    case Some(line) => line.quantity
  }

  /** What the stepper shows after an add: one more than before. */
  lemma AddShowsOneMore(cart: seq<CartItem>, product: Product)
    requires CartValid(cart)
    ensures CartQuantity(AddedToCart(cart, product), product.id) == CartQuantity(cart, product.id) + 1
  {
    if product.id in Ids(cart) {
      var k :| 0 <= k < |cart| && Ids(cart)[k] == product.id;
      AddExistingBumpsLine(cart, product, k);
      FindFirst(cart, k);
      BumpShows(cart, k);
    } else {
      AddNewAppends(cart, product);
      NewLineShows(cart, product);
    }
  }

  lemma BumpShows(cart: seq<CartItem>, k: nat)
    requires IdsUnique(cart) && k < |cart|
    ensures CartQuantity(cart[k := cart[k].(quantity := cart[k].quantity + 1)], cart[k].id()) == cart[k].quantity + 1
  {
    var r := cart[k := cart[k].(quantity := cart[k].quantity + 1)];
    forall j | 0 <= j < k
      ensures r[j].id() != r[k].id()
    {
      assert r[j] == cart[j];
    }
    FindFirst(r, k);
  }

  lemma NewLineShows(cart: seq<CartItem>, product: Product)
    requires product.id !in Ids(cart)
    ensures CartQuantity(cart + [CartItem(product, 1)], product.id) == 1
  {
    var r := cart + [CartItem(product, 1)];
    forall j | 0 <= j < |cart|
      ensures r[j].id() != product.id
    {
      assert r[j] == cart[j] && Ids(cart)[j] == cart[j].id();
    }
    FindFirst(r, |cart|);
  }

  /** What the stepper shows after `updateQuantity(id, delta)`: max(0, q + delta). */
  lemma UpdateShows(cart: seq<CartItem>, k: nat, delta: int)
    requires CartValid(cart) && k < |cart|
    ensures CartQuantity(QuantityUpdated(cart, cart[k].id(), delta), cart[k].id()) ==
      Max0(cart[k].quantity + delta)
  {
    if cart[k].quantity + delta >= 1 {
      UpdateInPlace(cart, k, delta);
      var r := cart[k := cart[k].(quantity := cart[k].quantity + delta)];
      assert r[k].id() == cart[k].id();
      FindFirst(r, k);
    } else {
      UpdateDropsLine(cart, k, delta);
      DropRemovesId(cart, k);
    }
  }

  /** With unique ids, no line but k carries line k's id. */
  lemma DropRemovesId(cart: seq<CartItem>, k: nat)
    requires IdsUnique(cart) && k < |cart|
    ensures cart[k].id() !in Ids(cart[..k] + cart[k + 1..])
  {
    var r := cart[..k] + cart[k + 1..];
    forall i | 0 <= i < |r|
      ensures Ids(r)[i] != cart[k].id()
    {
      assert r[i] == cart[if i < k then i else i + 1];
    }
  }

  // ---------------------------------------------------------------------------
  // toggleFavorite

  /** `prev.filter(f => f !== id)`. */
  function WithoutFavorite(favorites: seq<int>, id: int): (r: seq<int>)
    ensures id !in r
    ensures forall x :: x in r <==> x in favorites && x != id
  {
    if favorites == [] then []
    else if favorites[0] == id then WithoutFavorite(favorites[1..], id)
    else [favorites[0]] + WithoutFavorite(favorites[1..], id)
  }

  /** The favourites after `toggleFavorite(id)`. */
  function FavoriteToggled(favorites: seq<int>, id: int): (r: seq<int>)
    ensures id in r <==> id !in favorites
    ensures forall x :: x != id ==> (x in r <==> x in favorites)
  {
    if id in favorites then WithoutFavorite(favorites, id) else favorites + [id]
  }

  lemma {:induction false} WithoutAbsent(favorites: seq<int>, id: int)
    requires id !in favorites
    ensures WithoutFavorite(favorites, id) == favorites
  {
    if favorites != [] {
      WithoutAbsent(favorites[1..], id);
    }
  }

  lemma {:induction false} WithoutAppend(favorites: seq<int>, id: int)
    ensures WithoutFavorite(favorites + [id], id) == WithoutFavorite(favorites, id)
  {
    if favorites == [] {
      assert [id][1..] == [];
    } else {
      assert (favorites + [id])[1..] == favorites[1..] + [id];
      WithoutAppend(favorites[1..], id);
    }
  }

  /** Toggling an absent id twice gives back the original list, order included. */
  lemma ToggleTwice(favorites: seq<int>, id: int)
    requires id !in favorites
    ensures FavoriteToggled(FavoriteToggled(favorites, id), id) == favorites
  {
    WithoutAppend(favorites, id);
    WithoutAbsent(favorites, id);
  }

  // ---------------------------------------------------------------------------
  // The address book

  function AddressIds(addresses: seq<Address>): (ids: seq<string>)
    ensures |ids| == |addresses|
    ensures forall i :: 0 <= i < |addresses| ==> ids[i] == addresses[i].id
  {
    if addresses == [] then [] else [addresses[0].id] + AddressIds(addresses[1..])
  }

  predicate AddressIdsUnique(addresses: seq<Address>)
  {
    forall i, j :: 0 <= i < j < |addresses| ==> addresses[i].id != addresses[j].id
  }

  /** `addresses.map(a => a.id === addr.id ? addr : a)`. */
  function Replaced(addresses: seq<Address>, addr: Address): (r: seq<Address>)
    ensures |r| == |addresses|
    ensures addr.id in AddressIds(addresses) ==> addr in r
  {
    var r := seq(|addresses|, i requires 0 <= i < |addresses| =>
      if addresses[i].id == addr.id then addr else addresses[i]);
    assert addr.id in AddressIds(addresses) ==> addr in r by {
      if addr.id in AddressIds(addresses) {
        var i :| 0 <= i < |addresses| && AddressIds(addresses)[i] == addr.id;
        assert r[i] == addr;
      }
    }
    r
  }

  /** The user after `saveAddress(addr)`; with nobody signed in nothing changes. */
  function AddressSaved(user: Option<User>, addr: Address): (r: Option<User>)
    ensures r.Some? <==> user.Some?
    ensures r.Some? ==> r.value.(addresses := user.value.addresses) == user.value
    ensures r.Some? ==> addr in r.value.addresses
    ensures r.Some? ==> addr.id in AddressIds(user.value.addresses) ==>
      |r.value.addresses| == |user.value.addresses|
  {
    match user
    case None => None
    case Some(u) =>
      var newAddresses :=
        if addr.id in AddressIds(u.addresses) then Replaced(u.addresses, addr)
        else u.addresses + [addr];
      Some(u.(addresses := newAddresses))
  }

  /** Saving an address whose id is already in the book replaces that entry in place. */
  lemma SaveReplacesInPlace(u: User, addr: Address, k: nat)
    requires AddressIdsUnique(u.addresses)
    requires k < |u.addresses| && u.addresses[k].id == addr.id
    ensures AddressSaved(Some(u), addr) == Some(u.(addresses := u.addresses[k := addr]))
  {
    assert addr.id == AddressIds(u.addresses)[k];
    assert forall i :: 0 <= i < |u.addresses| && i != k ==> u.addresses[i].id != addr.id;
    assert Replaced(u.addresses, addr) == u.addresses[k := addr];
  }

  /** Saving an address with a new id appends it. */
  lemma SaveAppends(u: User, addr: Address)
    requires addr.id !in AddressIds(u.addresses)
    ensures AddressSaved(Some(u), addr) == Some(u.(addresses := u.addresses + [addr]))
  {
  }

  /** Saving never loses an address id: the book's ids after the save are a superset, with the saved one added. */
  lemma SaveKeepsIds(u: User, addr: Address)
    ensures forall id :: id in AddressIds(u.addresses) ==> id in AddressIds(AddressSaved(Some(u), addr).value.addresses)
    ensures addr.id in AddressIds(AddressSaved(Some(u), addr).value.addresses)
  {
    var saved := AddressSaved(Some(u), addr).value.addresses;
    if addr.id in AddressIds(u.addresses) {
      assert AddressIds(saved) == AddressIds(u.addresses);
    } else {
      assert AddressIds(saved) == AddressIds(u.addresses) + [addr.id];
    }
  }

  lemma SaveKeepsIdsUnique(u: User, addr: Address)
    requires AddressIdsUnique(u.addresses)
    ensures AddressIdsUnique(AddressSaved(Some(u), addr).value.addresses)
  {
    if addr.id in AddressIds(u.addresses) {
      var k :| 0 <= k < |u.addresses| && AddressIds(u.addresses)[k] == addr.id;
      SaveReplacesInPlace(u, addr, k);
    }
  }

  /** `addresses.filter(a => a.id !== id)`. */
  function WithoutAddress(addresses: seq<Address>, id: string): (r: seq<Address>)
    ensures id !in AddressIds(r)
    ensures forall a :: a in r <==> a in addresses && a.id != id
  {
    if addresses == [] then []
    else if addresses[0].id == id then WithoutAddress(addresses[1..], id)
    else [addresses[0]] + WithoutAddress(addresses[1..], id)
  }

  /** The user after the delete-address handler: exactly the entries with that id are gone. */
  function AddressDeleted(u: User, id: string): (r: User)
    ensures r.(addresses := u.addresses) == u
    ensures id !in AddressIds(r.addresses)
    ensures forall a :: a in r.addresses <==> a in u.addresses && a.id != id
  {
    u.(addresses := WithoutAddress(u.addresses, id))
  }

  /** The user after the update-profile handler: the four form fields change, id and addresses do not. */
  function ProfileUpdated(u: User, firstName: string, lastName: string, nationalId: string, phone: string): (r: User)
    ensures r.id == u.id && r.addresses == u.addresses
    ensures r.firstName == firstName && r.lastName == lastName
    ensures r.nationalId == nationalId && r.phone == phone
  {
    u.(firstName := firstName, lastName := lastName, nationalId := nationalId, phone := phone)
  }

  // ---------------------------------------------------------------------------
  // The product filter

  /** `toLowerCase`, restricted to the ASCII letters A-Z. */
  function LowerAscii(s: string): (r: string)
    ensures |r| == |s|
  {
    if s == [] then []
    else [if 'A' <= s[0] <= 'Z' then (s[0] as int + 32) as char else s[0]] + LowerAscii(s[1..])
  }

  predicate MatchesCategory(p: Product, category: string)
  {
    category == AllProducts || p.category == category
  }

  predicate MatchesSearch(p: Product, query: string)
  {
    Contains(LowerAscii(p.name), LowerAscii(query)) || Contains(LowerAscii(p.description), LowerAscii(query))
  }

  /** `a` is `b` with some elements left out, the rest in their order. */
  predicate SubsequenceOf<T(==)>(a: seq<T>, b: seq<T>)
    decreases |b|
  {
    a == [] || (b != [] && ((a[0] == b[0] && SubsequenceOf(a[1..], b[1..])) || SubsequenceOf(a, b[1..])))
  }

  /** `filteredProducts`: the products, in catalogue order, that match both the category chip and the search box. */
  function FilteredProducts(products: seq<Product>, category: string, query: string): (r: seq<Product>)
    ensures forall p :: p in r <==> p in products && MatchesCategory(p, category) && MatchesSearch(p, query)
    ensures SubsequenceOf(r, products)
    ensures |r| <= |products|
  {
    if products == [] then []
    else
      var rest := FilteredProducts(products[1..], category, query);
      if MatchesCategory(products[0], category) && MatchesSearch(products[0], query) then
        assert ([products[0]] + rest)[1..] == rest;
        [products[0]] + rest
      else rest
  }

  /** With the catch-all chip and an empty search box every product is shown, in order. */
  lemma {:induction false} NoFilterShowsAll(products: seq<Product>)
    ensures FilteredProducts(products, AllProducts, "") == products
  {
    if products != [] {
      ContainsEmpty(LowerAscii(products[0].name));
      NoFilterShowsAll(products[1..]);
    }
  }

  // ---------------------------------------------------------------------------
  // The state cells

  /** A request a product card, the detail modal or the cart page sends up. */
  datatype CartRequest = AddRequest(product: Product) | UpdateRequest(id: int, delta: int) | RemoveRequest(id: int)

  class Storefront {
    const products: seq<Product>
    var cart: seq<CartItem>
    var favorites: seq<int>
    var currentUser: Option<User>
    var selectedCategory: string
    var searchQuery: string

    /** The cart, favourites and user come from browser storage and may be anything. */
    constructor (products: seq<Product>, savedCart: seq<CartItem>, savedFavorites: seq<int>, savedUser: Option<User>)
      ensures this.products == products
      ensures cart == savedCart && favorites == savedFavorites && currentUser == savedUser
      ensures selectedCategory == AllProducts && searchQuery == ""
    {
      this.products := products;
      cart := savedCart;
      favorites := savedFavorites;
      currentUser := savedUser;
      selectedCategory := AllProducts;
      searchQuery := "";
    }

    /** The badge on the navigation bars. */
    function CartBadge(): int
      reads this
    {
      CartCount(cart)
    }

    /** The product grid on the products tab. */
    function Visible(): seq<Product>
      reads this
    {
      FilteredProducts(products, selectedCategory, searchQuery)
    }

    method AddToCart(product: Product)
      modifies this
      ensures cart == AddedToCart(old(cart), product)
      ensures CartValid(old(cart)) ==> CartValid(cart) && CartBadge() == old(CartBadge()) + 1
      ensures favorites == old(favorites) && currentUser == old(currentUser)
      ensures selectedCategory == old(selectedCategory) && searchQuery == old(searchQuery)
    {
      if CartValid(cart) {
        AddKeepsValid(cart, product);
        AddCountsOne(cart, product);
      }
      cart := AddedToCart(cart, product);
    }

    method UpdateQuantity(id: int, delta: int)
      modifies this
      ensures cart == QuantityUpdated(old(cart), id, delta)
      ensures CartValid(old(cart)) ==> CartValid(cart)
      ensures favorites == old(favorites) && currentUser == old(currentUser)
      ensures selectedCategory == old(selectedCategory) && searchQuery == old(searchQuery)
    {
      if CartValid(cart) {
        UpdateKeepsValid(cart, id, delta);
      }
      cart := QuantityUpdated(cart, id, delta);
    }

    method RemoveFromCart(id: int)
      modifies this
      ensures cart == RemovedFromCart(old(cart), id)
      ensures CartValid(old(cart)) ==> CartValid(cart)
      ensures favorites == old(favorites) && currentUser == old(currentUser)
      ensures selectedCategory == old(selectedCategory) && searchQuery == old(searchQuery)
    {
      if CartValid(cart) {
        RemoveKeepsValid(cart, id);
      }
      cart := RemovedFromCart(cart, id);
    }

    /** Dispatches a request from a card, the modal or the cart page to its handler. */
    method Apply(request: CartRequest)
      modifies this
      ensures cart == match request
        case AddRequest(p) => AddedToCart(old(cart), p)
        case UpdateRequest(id, delta) => QuantityUpdated(old(cart), id, delta)
        case RemoveRequest(id) => RemovedFromCart(old(cart), id)
      ensures CartValid(old(cart)) ==> CartValid(cart)
      ensures favorites == old(favorites) && currentUser == old(currentUser)
      ensures selectedCategory == old(selectedCategory) && searchQuery == old(searchQuery)
    {
      match request
      case AddRequest(p) => AddToCart(p);
      case UpdateRequest(id, delta) => UpdateQuantity(id, delta);
      case RemoveRequest(id) => RemoveFromCart(id);
    }

    method ToggleFavorite(id: int)
      modifies this
      ensures favorites == FavoriteToggled(old(favorites), id)
      ensures cart == old(cart) && currentUser == old(currentUser)
      ensures selectedCategory == old(selectedCategory) && searchQuery == old(searchQuery)
    {
      favorites := FavoriteToggled(favorites, id);
    }

    method SaveAddress(addr: Address)
      modifies this
      ensures currentUser == AddressSaved(old(currentUser), addr)
      ensures old(currentUser).Some? && AddressIdsUnique(old(currentUser).value.addresses) ==>
        AddressIdsUnique(currentUser.value.addresses)
      ensures cart == old(cart) && favorites == old(favorites)
      ensures selectedCategory == old(selectedCategory) && searchQuery == old(searchQuery)
    {
      if currentUser.Some? && AddressIdsUnique(currentUser.value.addresses) {
        SaveKeepsIdsUnique(currentUser.value, addr);
      }
      currentUser := AddressSaved(currentUser, addr);
    }

    /** The delete-address handler; Profile is only shown to a signed-in user. */
    method DeleteAddress(id: string)
      requires currentUser.Some?
      modifies this
      ensures currentUser == Some(AddressDeleted(old(currentUser).value, id))
      ensures cart == old(cart) && favorites == old(favorites)
      ensures selectedCategory == old(selectedCategory) && searchQuery == old(searchQuery)
    {
      currentUser := Some(AddressDeleted(currentUser.value, id));
    }

    /** The update-profile handler; Profile is only shown to a signed-in user. */
    method UpdateProfile(firstName: string, lastName: string, nationalId: string, phone: string)
      requires currentUser.Some?
      modifies this
      ensures currentUser == Some(ProfileUpdated(old(currentUser).value, firstName, lastName, nationalId, phone))
      ensures cart == old(cart) && favorites == old(favorites)
      ensures selectedCategory == old(selectedCategory) && searchQuery == old(searchQuery)
    {
      currentUser := Some(ProfileUpdated(currentUser.value, firstName, lastName, nationalId, phone));
    }

    /** `onAuthSuccess`: the new user becomes the current user. */
    method SignIn(user: User)
      modifies this
      ensures currentUser == Some(user)
      ensures cart == old(cart) && favorites == old(favorites)
      ensures selectedCategory == old(selectedCategory) && searchQuery == old(searchQuery)
    {
      currentUser := Some(user);
    }

    method Logout()
      modifies this
      ensures currentUser == None
      ensures cart == old(cart) && favorites == old(favorites)
      ensures selectedCategory == old(selectedCategory) && searchQuery == old(searchQuery)
    {
      currentUser := None;
    }

    /** The wizard's `onComplete`: the order is placed and the cart emptied. */
    method CompleteCheckout()
      modifies this
      ensures cart == [] && CartBadge() == 0
      ensures favorites == old(favorites) && currentUser == old(currentUser)
      ensures selectedCategory == old(selectedCategory) && searchQuery == old(searchQuery)
    {
      cart := [];
    }

    method SelectCategory(category: string)
      modifies this
      ensures selectedCategory == category
      ensures cart == old(cart) && favorites == old(favorites) && currentUser == old(currentUser)
      ensures searchQuery == old(searchQuery)
    {
      selectedCategory := category;
    }

    method SetSearchQuery(query: string)
      modifies this
      ensures searchQuery == query
      ensures cart == old(cart) && favorites == old(favorites) && currentUser == old(currentUser)
      ensures selectedCategory == old(selectedCategory)
    {
      searchQuery := query;
    }

    /** The "clear all filters" button on an empty result: the whole catalogue is shown again. */
    method ClearFilters()
      modifies this
      ensures searchQuery == "" && selectedCategory == AllProducts
      ensures Visible() == products
      ensures cart == old(cart) && favorites == old(favorites) && currentUser == old(currentUser)
    {
      searchQuery := "";
      selectedCategory := AllProducts;
      NoFilterShowsAll(products);
    }
  }
}
