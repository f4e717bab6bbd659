/** The cart drawer (components/CartModal.tsx): it owns no state, computes the
    subtotal of the lines it is given, emits quantity and removal intents from
    its buttons and guards the checkout. */
module CartModal {
  import opened Types
  import opened App

  // ---------------------------------------------------------------------------
  // Subtotal
  // ---------------------------------------------------------------------------

  /** The amount one line contributes: its price times its quantity. */
  function LineTotal(x: CartItem): int {
    x.product.price * x.quantity
  }

  /** One more unit on a line adds its price to the line's amount; kept apart
      so that the product of price and quantity stays out of larger proofs. */
  lemma LineTotalBump(x: CartItem)
    ensures LineTotal(x.(quantity := x.quantity + 1)) == LineTotal(x) + x.product.price
  {
  }

  /** `subtotal`: price times quantity summed over the lines, in cents. */
  function Subtotal(items: seq<CartItem>): (r: int)
    // with non-negative prices and quantities the subtotal is never negative
    ensures (forall i :: 0 <= i < |items| ==> items[i].product.price >= 0 && items[i].quantity >= 0) ==> r >= 0
  {
    if items == [] then 0 else LineTotal(items[0]) + Subtotal(items[1..])
  }

  lemma {:induction false} SubtotalAppend(a: seq<CartItem>, b: seq<CartItem>)
    ensures Subtotal(a + b) == Subtotal(a) + Subtotal(b)
    decreases |a|
  {
    if a == [] {
      assert a + b == b;
    } else {
      assert (a + b)[1..] == a[1..] + b;
      SubtotalAppend(a[1..], b);
    }
  }

  lemma SubtotalSingle(x: CartItem)
    ensures Subtotal([x]) == LineTotal(x)
  {
    assert [x][1..] == [];
  }

  /** Adding a product not yet in the cart raises the subtotal by its price. */
  lemma AddNewRaisesSubtotal(cart: seq<CartItem>, p: Product)
    requires !InCart(cart, p.id)
    ensures Subtotal(AddedToCart(cart, p)) == Subtotal(cart) + p.price
  {
    assert AddedToCart(cart, p) == cart + [CartItem(p, 1)];
    SubtotalAppend(cart, [CartItem(p, 1)]);
    SubtotalSingle(CartItem(p, 1));
  }

  /** Adding a product already in a cart with unique ids raises the subtotal by
      the price recorded on its line. */
  lemma AddExistingRaisesSubtotal(cart: seq<CartItem>, p: Product, k: nat)
    requires UniqueIds(cart) && k < |cart| && cart[k].product.id == p.id
    ensures Subtotal(AddedToCart(cart, p)) == Subtotal(cart) + cart[k].product.price
  {
    assert InCart(cart, p.id);
    IncrementedSubtotal(cart, k);
  }

  lemma {:induction false} IncrementedSubtotal(cart: seq<CartItem>, k: nat)
    requires UniqueIds(cart) && k < |cart|
    ensures Subtotal(Incremented(cart, cart[k].product.id)) == Subtotal(cart) + cart[k].product.price
    decreases k
  {
    var id, tail := cart[k].product.id, cart[1..];
    var bumped := Incremented(cart, id);
    assert bumped == [bumped[0]] + Incremented(tail, id);
    SubtotalCons(bumped[0], Incremented(tail, id));
    if k == 0 {
      assert !InCart(tail, id) by {
        forall i | 0 <= i < |tail| ensures tail[i].product.id != id {
          assert tail[i] == cart[i + 1];
        }
      }
      IncrementedAbsent(tail, id);
      LineTotalBump(cart[0]);
    } else {
      UniqueTail(cart);
      assert tail[k - 1] == cart[k];
      IncrementedSubtotal(tail, k - 1);
    }
  }

  lemma SubtotalCons(x: CartItem, t: seq<CartItem>)
    ensures Subtotal([x] + t) == LineTotal(x) + Subtotal(t)
  {
    assert ([x] + t)[1..] == t;
  }

  lemma SubtotalAround(pre: seq<CartItem>, x: CartItem, suf: seq<CartItem>)
    ensures Subtotal(pre + [x] + suf) == Subtotal(pre) + LineTotal(x) + Subtotal(suf)
  {
    SubtotalAppend(pre + [x], suf);
    SubtotalAppend(pre, [x]);
    SubtotalSingle(x);
  }

  /** Removing line `k` of a cart with unique ids takes its amount off the subtotal. */
  lemma RemoveLowersSubtotal(cart: seq<CartItem>, k: nat)
    requires UniqueIds(cart) && k < |cart|
    ensures Subtotal(RemovedFromCart(cart, cart[k].product.id))
         == Subtotal(cart) - LineTotal(cart[k])
  {
    var x, pre, suf := cart[k], cart[..k], cart[k + 1..];
    RemovePresentDropsOneLine(cart, k);
    UniqueSplit(cart, k);
    SubtotalAppend(pre, suf);
    SubtotalAround(pre, x, suf);
  }

  // ---------------------------------------------------------------------------
  // The buttons of one line
  // ---------------------------------------------------------------------------

  /** The "-" button: ask for one unit less, which removes a line of one unit. */
  function DecrementIntent(item: CartItem): (r: CartIntent)
    ensures forall cart :: item.quantity <= 1 ==> Apply(cart, r) == RemovedFromCart(cart, item.product.id)
    ensures forall cart :: item.quantity > 1 ==> Apply(cart, r) == Requantified(cart, item.product.id, item.quantity - 1)
  {
    UpdateIntent(item.product.id, item.quantity - 1)
  }

  /** The "+" button: ask for one unit more. */
  function IncrementIntent(item: CartItem): (r: CartIntent)
    ensures forall cart :: item.quantity >= 0 ==> Apply(cart, r) == Requantified(cart, item.product.id, item.quantity + 1)
  {
    UpdateIntent(item.product.id, item.quantity + 1)
  }

  /** The trash button: ask for the line's removal. */
  function TrashIntent(item: CartItem): (r: CartIntent)
    ensures forall cart :: Apply(cart, r) == RemovedFromCart(cart, item.product.id)
  {
    RemoveIntent(item.product.id)
  }

  /** "-" on a line holding one unit removes that line and only that line. */
  lemma DecrementLastUnitRemovesLine(cart: seq<CartItem>, k: nat)
    requires UniqueIds(cart) && k < |cart| && cart[k].quantity == 1
    ensures Apply(cart, DecrementIntent(cart[k])) == RemovedFromCart(cart, cart[k].product.id)
    ensures Apply(cart, DecrementIntent(cart[k])) == cart[..k] + cart[k + 1..]
  {
    RemovePresentDropsOneLine(cart, k);
  }

  /** "-" on a line holding more than one unit takes one unit off that line and
      leaves every other line as it was. */
  lemma DecrementLowersQuantity(cart: seq<CartItem>, k: nat)
    requires UniqueIds(cart) && k < |cart| && cart[k].quantity > 1
    ensures Apply(cart, DecrementIntent(cart[k])) == cart[k := cart[k].(quantity := cart[k].quantity - 1)]
  {
    var r := Apply(cart, DecrementIntent(cart[k]));
    forall j | 0 <= j < |cart| && j != k ensures r[j] == cart[j] {
      assert cart[j].product.id != cart[k].product.id by {
        if j < k { } else { }
      }
    }
  }

  /** "+" on a line has the same effect as adding that line's product again. */
  lemma IncrementIsAddAgain(cart: seq<CartItem>, k: nat)
    requires WellFormed(cart) && k < |cart|
    ensures Apply(cart, IncrementIntent(cart[k])) == AddedToCart(cart, cart[k].product)
  {
    var r, a := Apply(cart, IncrementIntent(cart[k])), AddedToCart(cart, cart[k].product);
    assert InCart(cart, cart[k].product.id);
    forall j | 0 <= j < |cart| ensures r[j] == a[j] {
      if j != k {
        assert cart[j].product.id != cart[k].product.id by {
          if j < k { } else { }
        }
      }
    }
  }

  /** The trash button removes exactly its own line. */
  lemma TrashRemovesLine(cart: seq<CartItem>, k: nat)
    requires UniqueIds(cart) && k < |cart|
    ensures Apply(cart, TrashIntent(cart[k])) == cart[..k] + cart[k + 1..]
  {
    RemovePresentDropsOneLine(cart, k);
  }

  // ---------------------------------------------------------------------------
  // Rendering and checkout
  // ---------------------------------------------------------------------------

  /** One rendered line with the intents its three buttons emit. */
  datatype LineView = LineView(item: CartItem, minus: CartIntent, plus: CartIntent, trash: CartIntent)

  /** What an open drawer shows: its lines (or the empty notice when there are
      none), the subtotal, and whether the checkout button is disabled. */
  datatype DrawerView = DrawerView(lines: seq<LineView>, showsEmptyNotice: bool, subtotal: int, checkoutDisabled: bool)

  /** The drawer for the given lines; a closed drawer renders nothing. */
  function Render(isOpen: bool, items: seq<CartItem>): (r: Option<DrawerView>)
    ensures r.None? <==> !isOpen
    ensures r.Some? ==> |r.value.lines| == |items|
    ensures r.Some? ==> forall i :: 0 <= i < |items| ==>
      r.value.lines[i].item == items[i] &&
      Apply(items, r.value.lines[i].trash) == RemovedFromCart(items, items[i].product.id)
    ensures r.Some? ==> (r.value.checkoutDisabled <==> items == []) && (r.value.showsEmptyNotice <==> items == [])
    ensures r.Some? ==> r.value.subtotal == Subtotal(items)
    ensures r.Some? ==> forall i :: 0 <= i < |items| ==>
      r.value.lines[i].minus == DecrementIntent(items[i]) && r.value.lines[i].plus == IncrementIntent(items[i])
  {
    if !isOpen then None
    else
      var lines := seq(|items|, i requires 0 <= i < |items| =>
        LineView(items[i], DecrementIntent(items[i]), IncrementIntent(items[i]), TrashIntent(items[i])));
      Some(DrawerView(lines, |items| == 0, Subtotal(items), |items| == 0))
  }

  /** What `handleCheckout` announces. The initiated message names the number of
      distinct lines and the subtotal; `CartIsEmpty` is the fixed "Your cart is
      empty." alert. */
  datatype CheckoutAlert = CheckoutInitiated(lineCount: nat, total: int) | CartIsEmpty

  function CheckoutAlertFor(items: seq<CartItem>): (r: CheckoutAlert)
    ensures r.CheckoutInitiated? <==> items != []
    ensures r.CheckoutInitiated? ==> r.lineCount == |items| && r.total == Subtotal(items)
  {
    if |items| > 0 then CheckoutInitiated(|items|, Subtotal(items)) else CartIsEmpty
  }

  /** `handleCheckout`: with at least one line, announce the checkout and close
      the drawer; with none, announce the empty cart and leave the drawer open. */
  method HandleCheckout(app: AppState) returns (alert: CheckoutAlert)
    modifies app
    ensures alert == CheckoutAlertFor(old(app.cart))
    ensures |old(app.cart)| > 0 ==> alert.CheckoutInitiated? && !app.isCartOpen
    ensures |old(app.cart)| == 0 ==> alert == CartIsEmpty && app.isCartOpen == old(app.isCartOpen)
    ensures app.cart == old(app.cart) && app.currentPage == old(app.currentPage)
    ensures app.fighterName == old(app.fighterName)
  {
    if |app.cart| > 0 {
      alert := CheckoutInitiated(|app.cart|, Subtotal(app.cart));
      app.SetCartOpen(false);
    } else {
      alert := CartIsEmpty;
    }
  }

  /** The checkout message counts lines, not units: one line of three units is
      announced as one item while the header badge shows three. */
  lemma CheckoutCountsLinesNotUnits(p: Product)
    ensures CheckoutAlertFor([CartItem(p, 3)]).lineCount == 1
    ensures CartItemCount([CartItem(p, 3)]) == 3
  {
    assert [CartItem(p, 3)][1..] == [];
  }

  /** The checkout proceeds exactly when the checkout button is enabled. */
  lemma CheckoutProceedsIffEnabled(items: seq<CartItem>)
    ensures CheckoutAlertFor(items).CheckoutInitiated? <==> !Render(true, items).value.checkoutDisabled
  {
  }
}
