/** The application shell (App.tsx): the shopping cart, which the shell keeps as
    one state slot that each intent replaces with a freshly built array, and the
    header badge that counts the units in it. */
module App {
  import opened Types

  // ---------------------------------------------------------------------------
  // The cart as a value
  // ---------------------------------------------------------------------------

  /** Some line holds product `id` (`cart.find(item => item.id === id)` succeeds). */
  predicate InCart(cart: seq<CartItem>, id: int) {
    exists i :: 0 <= i < |cart| && cart[i].product.id == id
  }

  /** No two lines share a product id. */
  predicate UniqueIds(cart: seq<CartItem>) {
    forall i, j :: 0 <= i < j < |cart| ==> cart[i].product.id != cart[j].product.id
  }

  /** Every line holds at least one unit. */
  predicate PositiveQuantities(cart: seq<CartItem>) {
    forall i :: 0 <= i < |cart| ==> cart[i].quantity >= 1
  }

  /** The invariant every cart reachable from the empty cart keeps. */
  predicate WellFormed(cart: seq<CartItem>) {
    UniqueIds(cart) && PositiveQuantities(cart)
  }

  /** `cart.map(item => item.id === id ? { ...item, quantity: item.quantity + 1 } : item)`. */
  function Incremented(cart: seq<CartItem>, id: int): (r: seq<CartItem>)
    ensures |r| == |cart|
    ensures forall i :: 0 <= i < |cart| ==> r[i].product == cart[i].product
    ensures forall i :: 0 <= i < |cart| && cart[i].product.id == id ==> r[i].quantity == cart[i].quantity + 1
    ensures forall i :: 0 <= i < |cart| && cart[i].product.id != id ==> r[i] == cart[i]
  {
    if cart == [] then []
    else
      var head := if cart[0].product.id == id then cart[0].(quantity := cart[0].quantity + 1) else cart[0];
      [head] + Incremented(cart[1..], id)
  }

  /** `cart.map(item => item.id === id ? { ...item, quantity: q } : item)`. */
  function Requantified(cart: seq<CartItem>, id: int, q: int): (r: seq<CartItem>)
    ensures |r| == |cart|
    ensures forall i :: 0 <= i < |cart| ==> r[i].product == cart[i].product
    ensures forall i :: 0 <= i < |cart| && cart[i].product.id == id ==> r[i].quantity == q
    ensures forall i :: 0 <= i < |cart| && cart[i].product.id != id ==> r[i] == cart[i]
  {
    if cart == [] then []
    else
      var head := if cart[0].product.id == id then cart[0].(quantity := q) else cart[0];
      [head] + Requantified(cart[1..], id, q)
  }

  /** `cart.filter(item => item.id !== id)`. */
  function Without(cart: seq<CartItem>, id: int): (r: seq<CartItem>)
    ensures |r| <= |cart|
    ensures forall x :: x in r ==> x in cart && x.product.id != id
  {
    if cart == [] then []
    else (if cart[0].product.id == id then [] else [cart[0]]) + Without(cart[1..], id)
  }

  /** `addToCart`: bump the line of an id already in the cart, else append a
      new line with one unit. */
  function AddedToCart(cart: seq<CartItem>, p: Product): (r: seq<CartItem>)
    ensures InCart(cart, p.id) ==>
      |r| == |cart| &&
      forall i :: 0 <= i < |cart| ==>
        r[i].product == cart[i].product &&
        r[i].quantity == cart[i].quantity + (if cart[i].product.id == p.id then 1 else 0)
    ensures !InCart(cart, p.id) ==>
      |r| == |cart| + 1 && r[..|cart|] == cart && r[|cart|] == CartItem(p, 1)
  {
    if InCart(cart, p.id) then Incremented(cart, p.id) else cart + [CartItem(p, 1)]
  }

  /** `removeFromCart`. */
  function RemovedFromCart(cart: seq<CartItem>, id: int): (r: seq<CartItem>)
    ensures !InCart(r, id)
    ensures forall x :: x in r <==> x in cart && x.product.id != id
    ensures !InCart(cart, id) ==> r == cart
  {
    var r := Without(cart, id);
    assert forall i :: 0 <= i < |r| ==> r[i] in r;
    WithoutKeepsOthers(cart, id);
    if !InCart(cart, id) then WithoutAbsent(cart, id); r else r
  }

  /** `updateCartQuantity`: a quantity of zero or less removes the line, any
      other quantity replaces the line's quantity. */
  function WithUpdatedQuantity(cart: seq<CartItem>, id: int, q: int): (r: seq<CartItem>)
    ensures q <= 0 ==> !InCart(r, id) && forall x :: x in r <==> x in cart && x.product.id != id
    ensures q > 0 ==>
      |r| == |cart| &&
      forall i :: 0 <= i < |cart| ==>
        r[i].product == cart[i].product &&
        r[i].quantity == (if cart[i].product.id == id then q else cart[i].quantity)
    ensures !InCart(cart, id) ==> r == cart
  {
    if q <= 0 then RemovedFromCart(cart, id) else Requantified(cart, id, q)
  }

  /** `cartItemCount`: the units in the cart, summed over its lines. */
  function CartItemCount(cart: seq<CartItem>): (r: int)
    ensures (forall i :: 0 <= i < |cart| ==> cart[i].quantity >= 0) ==> r >= 0
    // with every quantity at least one, the badge is at least the number of lines
    ensures PositiveQuantities(cart) ==> r >= |cart|
  {
    if cart == [] then 0 else cart[0].quantity + CartItemCount(cart[1..])
  }

  // ---------------------------------------------------------------------------
  // What each intent does to a cart
  // ---------------------------------------------------------------------------

  /** A user intent that replaces the cart. */
  datatype CartIntent =
    | AddIntent(product: Product)
    | RemoveIntent(id: int)
    | UpdateIntent(id: int, quantity: int)

  function Apply(cart: seq<CartItem>, intent: CartIntent): seq<CartItem> {
    match intent
    case AddIntent(p) => AddedToCart(cart, p)
    case RemoveIntent(id) => RemovedFromCart(cart, id)
    case UpdateIntent(id, q) => WithUpdatedQuantity(cart, id, q)
  }

  /** The cart after the intents, in order. */
  function Replay(cart: seq<CartItem>, intents: seq<CartIntent>): seq<CartItem>
    decreases |intents|
  {
    if intents == [] then cart else Replay(Apply(cart, intents[0]), intents[1..])
  }

  /** On a well-formed cart, adding an id already present changes exactly the one
      line holding it, by exactly one unit. */
  lemma AddExistingBumpsOneLine(cart: seq<CartItem>, p: Product, k: nat)
    requires WellFormed(cart) && k < |cart| && cart[k].product.id == p.id
    ensures |AddedToCart(cart, p)| == |cart|
    ensures AddedToCart(cart, p)[k] == cart[k].(quantity := cart[k].quantity + 1)
    ensures forall j :: 0 <= j < |cart| && j != k ==> AddedToCart(cart, p)[j] == cart[j]
  {
    assert InCart(cart, p.id);
  }

  /** Every line without the id survives the filter. */
  lemma {:induction false} WithoutKeepsOthers(cart: seq<CartItem>, id: int)
    ensures forall x :: x in cart && x.product.id != id ==> x in Without(cart, id)
    decreases |cart|
  {
    if cart != [] {
      WithoutKeepsOthers(cart[1..], id);
      assert forall x :: x in cart ==> x == cart[0] || x in cart[1..];
    }
  }

  /** Removing keeps the surviving lines in their original order: it distributes
      over concatenation. */
  lemma {:induction false} WithoutAppend(a: seq<CartItem>, b: seq<CartItem>, id: int)
    ensures Without(a + b, id) == Without(a, id) + Without(b, id)
    decreases |a|
  {
    if a == [] {
      assert a + b == b;
    } else {
      assert (a + b)[1..] == a[1..] + b;
      WithoutAppend(a[1..], b, id);
    }
  }

  /** Dropping the first line keeps the ids unique. */
  lemma UniqueTail(cart: seq<CartItem>)
    requires UniqueIds(cart) && cart != []
    ensures UniqueIds(cart[1..])
  {
    var rest := cart[1..];
    forall i, j | 0 <= i < j < |rest| ensures rest[i].product.id != rest[j].product.id {
      assert rest[i] == cart[i + 1] && rest[j] == cart[j + 1];
    }
  }

  /** On a cart with unique ids, the line at `k` splits the cart into a prefix
      and a suffix that do not hold its id. */
  lemma UniqueSplit(cart: seq<CartItem>, k: nat)
    requires UniqueIds(cart) && k < |cart|
    ensures cart == cart[..k] + [cart[k]] + cart[k + 1..]
    ensures !InCart(cart[..k], cart[k].product.id)
    ensures !InCart(cart[k + 1..], cart[k].product.id)
  {
    assert cart == cart[..k] + [cart[k]] + cart[k + 1..];
    var suffix := cart[k + 1..];
    forall i | 0 <= i < |suffix| ensures suffix[i].product.id != cart[k].product.id {
      assert suffix[i] == cart[k + 1 + i];
    }
  }

  /** Lines without the id are left alone by the filter. */
  lemma {:induction false} WithoutAbsent(cart: seq<CartItem>, id: int)
    requires !InCart(cart, id)
    ensures Without(cart, id) == cart
    decreases |cart|
  {
    if cart != [] {
      assert !InCart(cart[1..], id) by {
        forall i | 0 <= i < |cart| - 1 ensures cart[1..][i].product.id != id {
          assert cart[1..][i] == cart[i + 1];
        }
      }
      WithoutAbsent(cart[1..], id);
    }
  }

  /** Removing an id held by one line only, between lines that do not hold it,
      removes exactly that line. */
  lemma WithoutSplit(pre: seq<CartItem>, x: CartItem, suf: seq<CartItem>)
    requires !InCart(pre, x.product.id) && !InCart(suf, x.product.id)
    ensures Without(pre + [x] + suf, x.product.id) == pre + suf
  {
    var id, rest := x.product.id, [x] + suf;
    assert pre + [x] + suf == pre + rest;
    WithoutAppend(pre, rest, id);
    WithoutAbsent(pre, id);
    assert rest[0] == x && rest[1..] == suf;
    WithoutAbsent(suf, id);
    assert Without(rest, id) == suf;
  }

  /** On a cart with unique ids, removing the id of line `k` removes exactly
      that line. */
  lemma RemovePresentDropsOneLine(cart: seq<CartItem>, k: nat)
    requires UniqueIds(cart) && k < |cart|
    ensures Without(cart, cart[k].product.id) == cart[..k] + cart[k + 1..]
  {
    UniqueSplit(cart, k);
    WithoutSplit(cart[..k], cart[k], cart[k + 1..]);
  }

  /** Filtering a cart with unique ids keeps the ids unique. */
  lemma {:induction false} WithoutKeepsUnique(cart: seq<CartItem>, id: int)
    requires UniqueIds(cart)
    ensures UniqueIds(Without(cart, id))
    decreases |cart|
  {
    if cart != [] {
      var rest := cart[1..];
      UniqueTail(cart);
      WithoutKeepsUnique(rest, id);
      var tail := Without(rest, id);
      if cart[0].product.id != id {
        assert !InCart(tail, cart[0].product.id) by {
          forall i | 0 <= i < |tail| ensures tail[i].product.id != cart[0].product.id {
            assert tail[i] in tail;
            var m :| 0 <= m < |rest| && rest[m] == tail[i];
            assert rest[m] == cart[m + 1];
          }
        }
        UniqueCons(cart[0], tail);
        assert Without(cart, id) == [cart[0]] + tail;
      } else {
        assert Without(cart, id) == tail;
      }
    }
  }

  /** A line whose id the others do not hold can go in front of them. */
  lemma UniqueCons(x: CartItem, t: seq<CartItem>)
    requires UniqueIds(t) && !InCart(t, x.product.id)
    ensures UniqueIds([x] + t)
  {
    var r := [x] + t;
    forall i, j | 0 <= i < j < |r| ensures r[i].product.id != r[j].product.id {
      assert r[j] == t[j - 1];
      if i > 0 {
        assert r[i] == t[i - 1];
      }
    }
  }

  /** Each intent keeps the cart well formed. */
  lemma ApplyKeepsWellFormed(cart: seq<CartItem>, intent: CartIntent)
    requires WellFormed(cart)
    ensures WellFormed(Apply(cart, intent))
  {
    var r := Apply(cart, intent);
    match intent
    case AddIntent(p) =>
      if !InCart(cart, p.id) {
        forall i, j | 0 <= i < j < |r| ensures r[i].product.id != r[j].product.id {
          if j < |cart| { assert r[i] == cart[i] && r[j] == cart[j]; }
          else { assert r[i] == cart[i]; }
        }
      }
    case RemoveIntent(id) =>
      WithoutKeepsUnique(cart, id);
      WithoutKeepsPositive(cart, id);
    case UpdateIntent(id, q) =>
      if q <= 0 {
        WithoutKeepsUnique(cart, id);
        WithoutKeepsPositive(cart, id);
      }
  }

  lemma WithoutKeepsPositive(cart: seq<CartItem>, id: int)
    requires PositiveQuantities(cart)
    ensures PositiveQuantities(Without(cart, id))
  {
    var r := Without(cart, id);
    forall i | 0 <= i < |r| ensures r[i].quantity >= 1 {
      assert r[i] in cart;
    }
  }

  /** Starting from a well-formed cart, any sequence of intents keeps it well
      formed: ids stay unique and quantities stay at one or more. */
  lemma {:induction false} ReplayKeepsWellFormed(cart: seq<CartItem>, intents: seq<CartIntent>)
    requires WellFormed(cart)
    ensures WellFormed(Replay(cart, intents))
    decreases |intents|
  {
    if intents != [] {
      ApplyKeepsWellFormed(cart, intents[0]);
      ReplayKeepsWellFormed(Apply(cart, intents[0]), intents[1..]);
    }
  }

  /** In particular from the empty cart the application starts with. */
  lemma ReplayFromEmptyWellFormed(intents: seq<CartIntent>)
    ensures WellFormed(Replay([], intents))
  {
    ReplayKeepsWellFormed([], intents);
  }

  // ---------------------------------------------------------------------------
  // The header badge
  // ---------------------------------------------------------------------------

  lemma {:induction false} CartItemCountAppend(a: seq<CartItem>, b: seq<CartItem>)
    ensures CartItemCount(a + b) == CartItemCount(a) + CartItemCount(b)
    decreases |a|
  {
    if a == [] {
      assert a + b == b;
    } else {
      assert (a + b)[1..] == a[1..] + b;
      CartItemCountAppend(a[1..], b);
    }
  }

  /** Lines without the id are left alone by the increment. */
  lemma IncrementedAbsent(cart: seq<CartItem>, id: int)
    requires !InCart(cart, id)
    ensures Incremented(cart, id) == cart
  {
  }

  /** The increment works line by line, so it distributes over concatenation. */
  lemma IncrementedAppend(a: seq<CartItem>, b: seq<CartItem>, id: int)
    ensures Incremented(a + b, id) == Incremented(a, id) + Incremented(b, id)
  {
    var l, r := Incremented(a + b, id), Incremented(a, id) + Incremented(b, id);
    forall i | 0 <= i < |a + b| ensures l[i] == r[i] {
      if i < |a| { assert (a + b)[i] == a[i]; } else { assert (a + b)[i] == b[i - |a|]; }
    }
  }

  /** On a cart with unique ids, incrementing the id of line `k` changes that
      line alone. */
  lemma IncrementedAt(cart: seq<CartItem>, k: nat)
    requires UniqueIds(cart) && k < |cart|
    ensures Incremented(cart, cart[k].product.id)
         == cart[..k] + [cart[k].(quantity := cart[k].quantity + 1)] + cart[k + 1..]
  {
    var id, y := cart[k].product.id, cart[k].(quantity := cart[k].quantity + 1);
    var bumped, spliced := Incremented(cart, id), cart[..k] + [y] + cart[k + 1..];
    assert |spliced| == |cart|;
    forall j | 0 <= j < |cart| ensures bumped[j] == spliced[j] {
      if j < k {
        assert spliced[j] == cart[j];
        assert cart[j].product.id != id;
      } else if j == k {
        assert spliced[j] == y;
      } else {
        assert spliced[j] == cart[j];
        assert cart[j].product.id != id;
      }
    }
    assert bumped == spliced;
  }

  /** Every add puts exactly one more unit on the badge. */
  lemma AddIncrementsCount(cart: seq<CartItem>, p: Product)
    requires UniqueIds(cart)
    ensures CartItemCount(AddedToCart(cart, p)) == CartItemCount(cart) + 1
  {
    if InCart(cart, p.id) {
      var k :| 0 <= k < |cart| && cart[k].product.id == p.id;
      IncrementedAt(cart, k);
      var x := cart[k].(quantity := cart[k].quantity + 1);
      CartItemCountAppend(cart[..k] + [x], cart[k + 1..]);
      CartItemCountAppend(cart[..k], [x]);
      CartItemCountAppend(cart[..k] + [cart[k]], cart[k + 1..]);
      CartItemCountAppend(cart[..k], [cart[k]]);
      assert [x][1..] == [] && [cart[k]][1..] == [];
      UniqueSplit(cart, k);
    } else {
      CartItemCountAppend(cart, [CartItem(p, 1)]);
      assert [CartItem(p, 1)][1..] == [];
    }
  }

  /** Removing a line takes its units off the badge. */
  lemma RemoveDecrementsCount(cart: seq<CartItem>, k: nat)
    requires UniqueIds(cart) && k < |cart|
    ensures CartItemCount(RemovedFromCart(cart, cart[k].product.id)) == CartItemCount(cart) - cart[k].quantity
  {
    RemovePresentDropsOneLine(cart, k);
    UniqueSplit(cart, k);
    assert RemovedFromCart(cart, cart[k].product.id) == cart[..k] + cart[k + 1..];
    CartItemCountAppend(cart[..k], cart[k + 1..]);
    CartItemCountAppend(cart[..k] + [cart[k]], cart[k + 1..]);
    CartItemCountAppend(cart[..k], [cart[k]]);
    assert CartItemCount([cart[k]]) == cart[k].quantity by { assert [cart[k]][1..] == []; }
  }

  // ---------------------------------------------------------------------------
  // The shell's state
  // ---------------------------------------------------------------------------

  datatype Page = Coach | Store

  /** The state slots of the application shell. The catalog never changes and is
      the fixture `Catalog`. */
  class AppState {
    var cart: seq<CartItem>
    var currentPage: Page
    var fighterName: string
    var isCartOpen: bool

    ghost predicate Valid()
      reads this
    {
      WellFormed(cart)
    }

    /** The initial state: empty cart, coach page, default fighter name, cart closed. */
    constructor ()
      ensures Valid()
      ensures cart == [] && currentPage == Coach && fighterName == DefaultFighterName && !isCartOpen
    {
      cart := [];
      currentPage := Coach;
      fighterName := DefaultFighterName;
      isCartOpen := false;
    }

    method AddToCart(p: Product)
      requires Valid()
      modifies this
      ensures Valid()
      ensures cart == AddedToCart(old(cart), p)
      ensures CartItemCount(cart) == CartItemCount(old(cart)) + 1
      ensures currentPage == old(currentPage) && fighterName == old(fighterName) && isCartOpen == old(isCartOpen)
    {
      ApplyKeepsWellFormed(cart, AddIntent(p));
      AddIncrementsCount(cart, p);
      cart := AddedToCart(cart, p);
    }

    method RemoveFromCart(id: int)
      requires Valid()
      modifies this
      ensures Valid()
      ensures cart == RemovedFromCart(old(cart), id)
      ensures currentPage == old(currentPage) && fighterName == old(fighterName) && isCartOpen == old(isCartOpen)
    {
      ApplyKeepsWellFormed(cart, RemoveIntent(id));
      cart := RemovedFromCart(cart, id);
    }

    method UpdateCartQuantity(id: int, q: int)
      requires Valid()
      modifies this
      ensures Valid()
      ensures cart == WithUpdatedQuantity(old(cart), id, q)
      ensures q <= 0 ==> cart == RemovedFromCart(old(cart), id)
      ensures currentPage == old(currentPage) && fighterName == old(fighterName) && isCartOpen == old(isCartOpen)
    {
      ApplyKeepsWellFormed(cart, UpdateIntent(id, q));
      if q <= 0 {
        RemoveFromCart(id);
      } else {
        cart := WithUpdatedQuantity(cart, id, q);
      }
    }

    method Navigate(page: Page)
      modifies this
      ensures currentPage == page
      ensures cart == old(cart) && fighterName == old(fighterName) && isCartOpen == old(isCartOpen)
    {
      currentPage := page;
    }

    method SetCartOpen(open: bool)
      modifies this
      ensures isCartOpen == open
      ensures cart == old(cart) && currentPage == old(currentPage) && fighterName == old(fighterName)
    {
      isCartOpen := open;
    }

    method SetFighterName(name: string)
      modifies this
      ensures fighterName == name
      ensures cart == old(cart) && currentPage == old(currentPage) && isCartOpen == old(isCartOpen)
    {
      fighterName := name;
    }
  }
}
