/** The cart page (`CartPage`): totals over the cart, the order payload built from it,
    and the checkout handler's loading/error/success state machine. */
module Checkout {
  import opened Common
  import opened Domain
  import opened Cart

  const TaxRate: real := 0.1
  const OrderPlaced := "Commande passée avec succès !"
  const OrderRejected := "Erreur lors de la commande"
  const ConnectionError := "Erreur de connexion"

  function LineTotal(line: CartLine): real {
    line.product.price * line.quantity as real
  }

  /** `cart.reduce((sum, item) => sum + item.product.price * item.quantity, 0)`,
      folded from the left as `reduce` does. */
  function Subtotal(cart: seq<CartLine>): (r: real)
    ensures cart == [] ==> r == 0.0
  {
    if cart == [] then 0.0
    else Subtotal(cart[..|cart| - 1]) + LineTotal(cart[|cart| - 1])
  }

  function Taxes(cart: seq<CartLine>): real {
    Subtotal(cart) * TaxRate
  }

  function Total(cart: seq<CartLine>): (r: real)
    ensures r == Subtotal(cart) * 11.0 / 10.0
    ensures Subtotal(cart) >= 0.0 ==> r >= Subtotal(cart)
  {
    Subtotal(cart) + Taxes(cart)
  }

  /** With non-negative prices and quantities the subtotal is non-negative, and so are the
      taxes and the total. */
  lemma {:induction false} SubtotalNonNegative(cart: seq<CartLine>)
    requires forall i :: 0 <= i < |cart| ==> cart[i].product.price >= 0.0 && cart[i].quantity >= 0
    ensures Subtotal(cart) >= 0.0 && Taxes(cart) >= 0.0 && Total(cart) >= Subtotal(cart)
  {
    if cart != [] {
      var n := |cart| - 1;
      SubtotalNonNegative(cart[..n]);
      NonNegativeProduct(cart[n].product.price, cart[n].quantity as real);
    }
  }

  lemma NonNegativeProduct(x: real, y: real)
    requires x >= 0.0 && y >= 0.0
    ensures x * y >= 0.0
  {
  }

  /** The subtotal is additive over concatenation of carts. */
  lemma {:induction false} SubtotalAppend(a: seq<CartLine>, b: seq<CartLine>)
    ensures Subtotal(a + b) == Subtotal(a) + Subtotal(b)
    decreases |b|
  {
    if b == [] {
      assert a + b == a;
    } else {
      var n := |b| - 1;
      assert (a + b)[..|a + b| - 1] == a + b[..n];
      assert (a + b)[|a + b| - 1] == b[n];
      SubtotalAppend(a, b[..n]);
    }
  }

  /** Two carts that differ only in the quantity of line `k`, by `delta`, have subtotals
      that differ by that line's price times `delta`. */
  lemma {:induction false} SubtotalOneLineChanged(a: seq<CartLine>, b: seq<CartLine>, k: nat, delta: int)
    requires |a| == |b| && k < |a|
    requires forall i :: 0 <= i < |a| && i != k ==> a[i] == b[i]
    requires b[k] == a[k].(quantity := a[k].quantity + delta)
    ensures Subtotal(b) == Subtotal(a) + a[k].product.price * delta as real
  {
    var n := |a| - 1;
    var price := a[k].product.price;
    assert Subtotal(a) == Subtotal(a[..n]) + LineTotal(a[n]);
    assert Subtotal(b) == Subtotal(b[..n]) + LineTotal(b[n]);
    if k == n {
      assert a[..n] == b[..n];
      var q := a[n].quantity as real;
      var d := delta as real;
      assert (a[n].quantity + delta) as real == q + d;
      assert LineTotal(b[n]) == price * (q + d);
      assert LineTotal(a[n]) == price * q;
      Distribute(price, q, d);
    } else {
      SubtotalOneLineChanged(a[..n], b[..n], k, delta);
      assert a[n] == b[n];
    }
  }

  lemma Distribute(x: real, y: real, z: real)
    ensures x * (y + z) == x * y + x * z
  {
  }

  /** Adding `quantity` of a product not yet in the cart raises the subtotal by its price
      times `quantity`. */
  lemma SubtotalAfterAddNew(cart: seq<CartLine>, p: Product, quantity: int)
    requires !HasLine(cart, p.id)
    ensures Subtotal(AddLine(cart, p, quantity)) == Subtotal(cart) + p.price * quantity as real
  {
    var r := AddLine(cart, p, quantity);
    assert r[..|r| - 1] == cart;
  }

  /** Adding `quantity` of a product that has line `k` raises the subtotal by that line's
      price (not the added product's) times `quantity`. */
  lemma SubtotalAfterAddExisting(cart: seq<CartLine>, p: Product, quantity: int, k: nat)
    requires UniqueIds(cart) && k < |cart| && cart[k].product.id == p.id
    ensures Subtotal(AddLine(cart, p, quantity)) == Subtotal(cart) + cart[k].product.price * quantity as real
  {
    var r := AddLine(cart, p, quantity);
    assert HasLine(cart, p.id);
    assert forall i :: 0 <= i < |cart| && i != k ==> r[i] == cart[i];
    assert r[k] == cart[k].(quantity := cart[k].quantity + quantity);
    SubtotalOneLineChanged(cart, r, k, quantity);
  }

  /** A worked example: 2 at 10 and 1 at 5 give 25, taxes 2.5, total 27.5. */
  lemma TotalsExample(p: Product, q: Product)
    requires p.price == 10.0 && q.price == 5.0
    ensures var cart := [CartLine(p, 2), CartLine(q, 1)];
      Subtotal(cart) == 25.0 && Taxes(cart) == 2.5 && Total(cart) == 27.5
  {
    var cart := [CartLine(p, 2), CartLine(q, 1)];
    assert cart[..1] == [CartLine(p, 2)];
    assert cart[..1][..0] == [];
  }

  datatype OrderItem = OrderItem(product: string, quantity: int)

  datatype OrderPayload = OrderPayload(
    products: seq<OrderItem>,
    supplier: Ref,                         // the value sent as `supplier`
    shippingAddress: Option<AddressInfo>,
    notes: string)

  /** `cart[0]?.product.supplier?._id || cart[0]?.product.supplier`: the first line's
      supplier id when it is populated with a non-empty `_id`, else the field itself. */
  function OrderSupplier(cart: seq<CartLine>): (r: Ref)
    ensures cart == [] ==> r == Missing
    ensures cart != [] ==> r.Id? ==> Names(cart[0].product.supplier, r.value)
    ensures cart != [] && cart[0].product.supplier.Doc? && cart[0].product.supplier.docId != "" ==>
      r == Id(cart[0].product.supplier.docId)
    ensures r.Doc? ==> r == Doc("")
  {
    if cart == [] then Missing
    else
      var s := cart[0].product.supplier;
      if s.Doc? && s.docId != "" then Id(s.docId) else s
  }

  /** Only the first line decides the order's supplier; nothing checks the others. */
  lemma SupplierFromFirstLineOnly(a: seq<CartLine>, b: seq<CartLine>)
    requires a != [] && b != [] && a[0] == b[0]
    ensures OrderSupplier(a) == OrderSupplier(b)
  {
  }

  /** `cart.map(item => ({ product: item.product._id, quantity: item.quantity }))` */
  function OrderItems(cart: seq<CartLine>): (r: seq<OrderItem>)
    ensures |r| == |cart|
    ensures forall i :: 0 <= i < |cart| ==> r[i].product == cart[i].product.id && r[i].quantity == cart[i].quantity
  {
    seq(|cart|, i requires 0 <= i < |cart| => OrderItem(cart[i].product.id, cart[i].quantity))
  }

  /** The order built by `handleCheckout`; `None` when there is no user, because reading
      `user.address` then throws before any request is made. */
  function BuildOrder(cart: seq<CartLine>, user: Option<Identity>): (r: Option<OrderPayload>)
    ensures r.Some? <==> user.Some?
    ensures r.Some? ==>
      && r.value.products == OrderItems(cart)
      && r.value.supplier == OrderSupplier(cart)
      && r.value.shippingAddress == user.value.address
      && r.value.notes == ""
  {
    if user.None? then None
    else Some(OrderPayload(OrderItems(cart), OrderSupplier(cart), user.value.address, ""))
  }

  /** The scenario of a client ordering one unit of "p1" from supplier "s1". */
  lemma SingleLineScenario(p: Product, user: Identity)
    requires p.id == "p1" && p.price == 20.0 && p.supplier == Doc("s1")
    ensures var order := BuildOrder([CartLine(p, 1)], Some(user));
      order.Some? && order.value.supplier == Id("s1") && order.value.products == [OrderItem("p1", 1)]
  {
    var items := OrderItems([CartLine(p, 1)]);
    assert items[0] == OrderItem("p1", 1);
  }

  /** The checkout button exists only for a non-empty cart (an empty cart renders the
      empty message alone) and is disabled while a submission is in flight. */
  predicate CheckoutEnabled(cart: seq<CartLine>, loading: bool) {
    |cart| > 0 && !loading
  }

  /** No order can start from an empty cart, nor while one is being placed; a non-empty
      cart with no submission in flight can be ordered. */
  lemma CheckoutGuard(cart: seq<CartLine>, loading: bool)
    ensures !CheckoutEnabled([], loading)
    ensures !CheckoutEnabled(cart, true)
    ensures CheckoutEnabled(cart, false) <==> cart != []
    ensures CheckoutEnabled(cart, loading) ==> OrderItems(cart) != []
  {
  }

  /** The page's own state: `loading`, `error`, `success`. */
  class CheckoutView {
    var loading: bool
    var error: string
    var success: string

    constructor ()
      ensures !loading && error == "" && success == ""
    {
      loading, error, success := false, "", "";
    }

    /** The synchronous start of `handleCheckout`, before the request is awaited: from
        here on the button ignores clicks. */
    method BeginCheckout()
      modifies this
      ensures loading && error == "" && success == ""
      ensures forall cart :: !CheckoutEnabled(cart, loading)
    {
      loading := true;
      error := "";
      success := "";
    }

    /** `handleCheckout`, with the response of `POST /api/orders` as an input. Returns the
        payload that was sent, if any. */
    method HandleCheckout(store: CartStore, user: Option<Identity>, response: Response<()>)
      returns (sent: Option<OrderPayload>)
      requires store.Valid()
      modifies this, store
      ensures store.Valid() && !loading
      ensures CheckoutEnabled(store.cart, loading) <==> store.cart != []
      ensures sent == BuildOrder(old(store.cart), user)
      ensures sent.Some? && response.Ok? ==>
        success == OrderPlaced && error == "" && store.cart == []
      ensures sent.Some? && response.NotOk? ==>
        error == MessageOr(response.msg, OrderRejected) && success == "" && store.cart == old(store.cart)
      ensures (sent.None? || response.Failed?) ==>
        error == ConnectionError && success == "" && store.cart == old(store.cart)
    {
      BeginCheckout();
      sent := BuildOrder(store.cart, user);
      if sent.None? {
        error := ConnectionError;
      } else {
        match response {
          case Ok(_) =>
            success := OrderPlaced;
            store.ClearCart();
          case NotOk(msg) =>
            error := MessageOr(msg, OrderRejected);
          case Failed =>
            error := ConnectionError;
        }
      }
      loading := false;
    }

    /** A click on the checkout button: it reaches `handleCheckout` only when the button
        is there and enabled; on an empty cart or during a submission nothing happens and
        nothing is sent. */
    method ClickCheckout(store: CartStore, user: Option<Identity>, response: Response<()>)
      returns (sent: Option<OrderPayload>)
      requires store.Valid()
      modifies this, store
      ensures store.Valid()
      ensures !CheckoutEnabled(old(store.cart), old(loading)) ==>
        sent.None? && store.cart == old(store.cart) &&
        loading == old(loading) && error == old(error) && success == old(success)
      ensures CheckoutEnabled(old(store.cart), old(loading)) ==>
        sent == BuildOrder(old(store.cart), user) && !loading
      ensures sent.Some? ==> sent.value.products != []
    {
      sent := None;
      if |store.cart| > 0 && !loading {
        sent := HandleCheckout(store, user, response);
      }
    }
  }
}
