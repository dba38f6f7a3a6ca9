/** The cart aggregator of `CartContext`: one mutable cart, an ordered list of
    (product, quantity) lines, replaced wholesale by each operation. */
module Cart {
  import opened Common
  import opened Domain

  datatype CartLine = CartLine(product: Product, quantity: int)

  /** The cart invariant: at most one line per product `_id`. */
  ghost predicate UniqueIds(cart: seq<CartLine>) {
    forall i, j :: 0 <= i < j < |cart| ==> cart[i].product.id != cart[j].product.id
  }

  /** `cart.find(item => item.product._id === id)` finds a line. */
  predicate HasLine(cart: seq<CartLine>, id: string) {
    exists i :: 0 <= i < |cart| && cart[i].product.id == id
  }

  /** `addToCart(product, quantity)`: merge into the existing line(s) for that `_id`,
      otherwise append a new line. */
  function AddLine(cart: seq<CartLine>, product: Product, quantity: int): (r: seq<CartLine>)
    ensures HasLine(cart, product.id) ==> |r| == |cart|
    ensures HasLine(cart, product.id) ==> forall i :: 0 <= i < |cart| ==>
      r[i].product == cart[i].product &&
      r[i].quantity == if cart[i].product.id == product.id then cart[i].quantity + quantity else cart[i].quantity
    ensures !HasLine(cart, product.id) ==> r == cart + [CartLine(product, quantity)]
    ensures HasLine(r, product.id)
    ensures UniqueIds(cart) ==> UniqueIds(r)
  {
    if HasLine(cart, product.id) then
      seq(|cart|, i requires 0 <= i < |cart| =>
        if cart[i].product.id == product.id then cart[i].(quantity := cart[i].quantity + quantity) else cart[i])
    else
      var r := cart + [CartLine(product, quantity)];
      assert r[|cart|].product.id == product.id;
      r
  }

  /** `updateQuantity(productId, quantity)`: every matching line gets exactly `quantity`;
      no clamping, and an unknown id changes nothing. */
  function SetQuantity(cart: seq<CartLine>, id: string, quantity: int): (r: seq<CartLine>)
    ensures |r| == |cart|
    ensures forall i :: 0 <= i < |cart| ==>
      r[i].product == cart[i].product &&
      (cart[i].product.id == id ==> r[i].quantity == quantity) &&
      (cart[i].product.id != id ==> r[i] == cart[i])
    ensures !HasLine(cart, id) ==> r == cart
    ensures UniqueIds(cart) ==> UniqueIds(r)
  {
    seq(|cart|, i requires 0 <= i < |cart| =>
      if cart[i].product.id == id then cart[i].(quantity := quantity) else cart[i])
  }

  predicate OtherProduct(id: string, line: CartLine) {
    line.product.id != id
  }

  /** `removeFromCart(productId)`: keep the lines with another `_id`, in order. */
  function RemoveLines(cart: seq<CartLine>, id: string): (r: seq<CartLine>)
    ensures !HasLine(r, id)
    ensures SubsequenceOf(r, cart)
    ensures forall i :: 0 <= i < |cart| && cart[i].product.id != id ==> cart[i] in r
    ensures !HasLine(cart, id) ==> r == cart
    ensures UniqueIds(cart) ==> UniqueIds(r)
    ensures forall i :: 0 <= i < |cart| ==>
      multiset(r)[cart[i]] == if cart[i].product.id != id then multiset(cart)[cart[i]] else 0
  {
    var r := Filter(cart, line => OtherProduct(id, line));
    FilterCounts(cart, line => OtherProduct(id, line));
    FilterIsSubsequence(cart, line => OtherProduct(id, line));
    SubsequenceKeepsUnique(r, cart);
    r
  }

  lemma {:induction false} SubsequenceKeepsUnique(r: seq<CartLine>, s: seq<CartLine>)
    requires SubsequenceOf(r, s)
    ensures UniqueIds(s) ==> UniqueIds(r)
    ensures forall i :: 0 <= i < |r| ==> r[i] in s
    decreases |s|
  {
    if s != [] {
      if r != [] && r[0] == s[0] && SubsequenceOf(r[1..], s[1..]) {
        SubsequenceKeepsUnique(r[1..], s[1..]);
        assert forall i :: 1 <= i < |r| ==> r[i] == r[1..][i - 1];
        if UniqueIds(s) {
          assert UniqueIds(s[1..]);
          forall j | 0 < j < |r| ensures r[0].product.id != r[j].product.id {
            assert r[j] in s[1..];
            var k :| 0 <= k < |s[1..]| && s[1..][k] == r[j];
            assert s[k + 1] == r[j];
          }
        }
      } else {
        SubsequenceKeepsUnique(r, s[1..]);
      }
    }
  }

  /** Adding 2 and then 3 of one product leaves a single line of 5 for it. */
  lemma {:induction false} AddTwiceMerges(cart: seq<CartLine>, p: Product)
    requires UniqueIds(cart) && !HasLine(cart, p.id)
    ensures var r := AddLine(AddLine(cart, p, 2), p, 3);
      |r| == |cart| + 1 && r[..|cart|] == cart && r[|cart|] == CartLine(p, 5)
  {
    var once := AddLine(cart, p, 2);
    assert once[|cart|].product.id == p.id;
  }

  /** Removing a product and adding it again keeps only the new quantity. */
  lemma {:induction false} RemoveThenAdd(cart: seq<CartLine>, p: Product, quantity: int)
    ensures var r := AddLine(RemoveLines(cart, p.id), p, quantity);
      r[|r| - 1] == CartLine(p, quantity) &&
      forall i :: 0 <= i < |r| - 1 ==> r[i].product.id != p.id
  {
    var removed := RemoveLines(cart, p.id);
    assert !HasLine(removed, p.id);
  }

  /** The provider of the cart context: the `cart` state cell and its four operations. */
  class CartStore {
    var cart: seq<CartLine>

    ghost predicate Valid()
      reads this
    {
      UniqueIds(cart)
    }

    /** `useState([])` */
    constructor ()
      ensures cart == [] && Valid()
    {
      cart := [];
    }

    method AddToCart(product: Product, quantity: int := 1)
      requires Valid()
      modifies this
      ensures Valid()
      ensures cart == AddLine(old(cart), product, quantity)
    {
      cart := AddLine(cart, product, quantity);
    }

    method UpdateQuantity(productId: string, quantity: int)
      requires Valid()
      modifies this
      ensures Valid()
      ensures cart == SetQuantity(old(cart), productId, quantity)
    {
      cart := SetQuantity(cart, productId, quantity);
    }

    method RemoveFromCart(productId: string)
      requires Valid()
      modifies this
      ensures Valid()
      ensures cart == RemoveLines(old(cart), productId)
    {
      cart := RemoveLines(cart, productId);
    }

    method ClearCart()
      modifies this
      ensures Valid() && cart == []
    {
      cart := [];
    }
  }
}
