/** The back-office product list (`ProductList`): the ownership/category/supplier filter
    chain, role gating of its controls, and the list's local edits. The view reads
    `user.role` while filtering, so it is only defined for a signed-in user. */
module ProductList {
  import opened Common
  import opened Domain

  /** `p.supplier?._id === userId`: only a populated supplier can match. */
  predicate OwnedBy(userId: string, p: Product) {
    DocId(p.supplier) == Some(userId)
  }

  predicate InCategory(key: string, p: Product) {
    Names(p.category, key)
  }

  predicate FromSupplier(key: string, p: Product) {
    Names(p.supplier, key)
  }

  /** Which products the table shows, stated as one condition: every filter that is
      switched on holds. */
  predicate Visible(user: Identity, filterCategory: string, filterSupplier: string, p: Product) {
    && (HasRole(user, SupplierRole) ==> OwnedBy(user.id, p))
    && (filterCategory != "" ==> InCategory(filterCategory, p))
    && (filterSupplier != "" ==> FromSupplier(filterSupplier, p))
  }

  // The three tests and their combinations as function values, named so that the filter
  // chain and the lemmas about it speak of the same values.
  function OwnedTest(user: Identity): Product -> bool { p => OwnedBy(user.id, p) }
  function CategoryTest(key: string): Product -> bool { p => InCategory(key, p) }
  function SupplierTest(key: string): Product -> bool { p => FromSupplier(key, p) }
  function VisibleTest(user: Identity, filterCategory: string, filterSupplier: string): Product -> bool {
    p => Visible(user, filterCategory, filterSupplier, p)
  }

  /** The filter chain, one `filter` reassignment per condition that is switched on. */
  function FilterProducts(products: seq<Product>, user: Identity, filterCategory: string, filterSupplier: string)
    : seq<Product>
  {
    var owned := if HasRole(user, SupplierRole) then Filter(products, OwnedTest(user)) else products;
    var byCategory := if filterCategory != "" then Filter(owned, CategoryTest(filterCategory)) else owned;
    if filterSupplier != "" then Filter(byCategory, SupplierTest(filterSupplier)) else byCategory
  }

  lemma ChainTestIsVisible(user: Identity, filterCategory: string, filterSupplier: string, p: Product)
    ensures Both(Both(Guarded(HasRole(user, SupplierRole), OwnedTest(user)),
                      Guarded(filterCategory != "", CategoryTest(filterCategory))),
                 Guarded(filterSupplier != "", SupplierTest(filterSupplier)))(p)
      == VisibleTest(user, filterCategory, filterSupplier)(p)
  {
  }

  /** The chain of filters is a single filter by the conjunction of the active tests. */
  lemma {:induction false} FilterChainIsConjunction(products: seq<Product>, user: Identity, filterCategory: string, filterSupplier: string)
    ensures FilterProducts(products, user, filterCategory, filterSupplier) ==
      Filter(products, VisibleTest(user, filterCategory, filterSupplier))
  {
    var on1, on2, on3 := HasRole(user, SupplierRole), filterCategory != "", filterSupplier != "";
    var g1 := Guarded(on1, OwnedTest(user));
    var g12 := Both(g1, Guarded(on2, CategoryTest(filterCategory)));
    var g123 := Both(g12, Guarded(on3, SupplierTest(filterSupplier)));
    var owned := if on1 then Filter(products, OwnedTest(user)) else products;
    ConditionalFilter(products, on1, OwnedTest(user));
    assert owned == Filter(products, g1);
    var byCategory := if on2 then Filter(owned, CategoryTest(filterCategory)) else owned;
    ChainStep(products, g1, on2, CategoryTest(filterCategory));
    assert byCategory == Filter(products, g12);
    var r := if on3 then Filter(byCategory, SupplierTest(filterSupplier)) else byCategory;
    ChainStep(products, g12, on3, SupplierTest(filterSupplier));
    assert r == Filter(products, g123);
    forall i | 0 <= i < |products|
      ensures g123(products[i]) == VisibleTest(user, filterCategory, filterSupplier)(products[i])
    {
      ChainTestIsVisible(user, filterCategory, filterSupplier, products[i]);
    }
    FilterCongruent(products, g123, VisibleTest(user, filterCategory, filterSupplier));
  }

  /** The table is the order-preserving subsequence of `products` that satisfies every
      active filter, and it keeps every product that does. */
  lemma FilterChainSelects(products: seq<Product>, user: Identity, filterCategory: string, filterSupplier: string)
    ensures var r := FilterProducts(products, user, filterCategory, filterSupplier);
      && SubsequenceOf(r, products)
      && (forall i :: 0 <= i < |r| ==> Visible(user, filterCategory, filterSupplier, r[i]))
      && (forall i :: 0 <= i < |products| && Visible(user, filterCategory, filterSupplier, products[i]) ==>
            products[i] in r)
  {
    FilterChainIsConjunction(products, user, filterCategory, filterSupplier);
    FilterIsSubsequence(products, VisibleTest(user, filterCategory, filterSupplier));
  }

  /** A supplier sees only products whose populated supplier is themself. */
  lemma SupplierSeesOwnProducts(products: seq<Product>, user: Identity, filterCategory: string, filterSupplier: string)
    requires HasRole(user, SupplierRole)
    ensures var r := FilterProducts(products, user, filterCategory, filterSupplier);
      forall i :: 0 <= i < |r| ==> r[i].supplier == Doc(user.id)
  {
    FilterChainSelects(products, user, filterCategory, filterSupplier);
  }

  /** With every filter off, the table is the whole list. */
  lemma NoFilterShowsAll(products: seq<Product>, user: Identity)
    requires !HasRole(user, SupplierRole)
    ensures FilterProducts(products, user, "", "") == products
  {
  }

  predicate OtherId(id: string, p: Product) {
    p.id != id
  }

  /** `products.filter(p => p._id !== id)` */
  function WithoutProduct(products: seq<Product>, id: string): (r: seq<Product>)
    ensures forall i :: 0 <= i < |r| ==> r[i].id != id
    ensures forall i :: 0 <= i < |products| && products[i].id != id ==> products[i] in r
    ensures SubsequenceOf(r, products)
    ensures (forall i :: 0 <= i < |products| ==> products[i].id != id) ==> r == products
    ensures forall i :: 0 <= i < |products| ==>
      multiset(r)[products[i]] == if products[i].id != id then multiset(products)[products[i]] else 0
  {
    FilterIsSubsequence(products, p => OtherId(id, p));
    FilterCounts(products, p => OtherId(id, p));
    Filter(products, p => OtherId(id, p))
  }

  /** The add form: for 'Admin', 'admin' or 'fournisseur', while no product is being edited. */
  predicate AddFormShown(user: Option<Identity>, isEditing: bool) {
    user.Some? && (HasRole(user.value, CapitalisedAdminRole) || HasRole(user.value, AdminRole)
                   || HasRole(user.value, SupplierRole)) && !isEditing
  }

  /** The edit and delete buttons: for 'Admin' or 'admin' only. */
  predicate ActionsShown(user: Option<Identity>) {
    user.Some? && (HasRole(user.value, CapitalisedAdminRole) || HasRole(user.value, AdminRole))
  }

  /** The supplier filter: for 'admin' only, spelled exactly so. */
  predicate SupplierFilterShown(user: Identity) {
    HasRole(user, AdminRole)
  }

  /** The three gates disagree on spelling: 'Admin' gets the actions but not the supplier
      filter; a supplier gets the add form but no actions. */
  lemma GatesDisagree(user: Identity)
    ensures HasRole(user, CapitalisedAdminRole) ==> ActionsShown(Some(user)) && !SupplierFilterShown(user)
    ensures HasRole(user, SupplierRole) ==> AddFormShown(Some(user), false) && !ActionsShown(Some(user))
    ensures !AddFormShown(None, false) && !ActionsShown(None)
  {
  }

  /** The view's `products`, `isEditing` and `currentProduct` state. */
  class ProductListView {
    var products: seq<Product>
    var isEditing: bool
    var currentProduct: Option<Product>

    constructor ()
      ensures products == [] && !isEditing && currentProduct.None?
    {
      products, isEditing, currentProduct := [], false, None;
    }

    /** `fetchProducts`: any parsed body becomes the list; a failure changes nothing. */
    method FetchProducts(result: Settled<seq<Product>>)
      modifies this
      ensures products == (if result.Resolved? then result.data else old(products))
      ensures isEditing == old(isEditing) && currentProduct == old(currentProduct)
    {
      if result.Resolved? {
        products := result.data;
      }
    }

    /** `handleProductAdded(newProduct)`: the new product itself is ignored; the list is refetched. */
    method HandleProductAdded(newProduct: Product, refetch: Settled<seq<Product>>)
      modifies this
      ensures products == (if refetch.Resolved? then refetch.data else old(products))
      ensures isEditing == old(isEditing) && currentProduct == old(currentProduct)
    {
      FetchProducts(refetch);
    }

    /** `handleDelete(id)`: once the request settles, whatever its status, the product is
        dropped locally; a failed request leaves the list. */
    method HandleDelete(id: string, result: Settled<()>)
      modifies this
      ensures products == (if result.Resolved? then WithoutProduct(old(products), id) else old(products))
      ensures isEditing == old(isEditing) && currentProduct == old(currentProduct)
    {
      if result.Resolved? {
        products := WithoutProduct(products, id);
      }
    }

    method HandleEdit(product: Product)
      modifies this
      ensures currentProduct == Some(product) && isEditing && products == old(products)
    {
      currentProduct := Some(product);
      isEditing := true;
    }

    /** `handleUpdate(updatedProduct)`: after a parsed response the list is refetched and
        editing ends; on failure the edit form stays open. */
    method HandleUpdate(updated: Product, result: Settled<()>, refetch: Settled<seq<Product>>)
      modifies this
      ensures result.Resolved? ==>
        !isEditing && currentProduct.None? && products == (if refetch.Resolved? then refetch.data else old(products))
      ensures result.Rejected? ==>
        products == old(products) && isEditing == old(isEditing) && currentProduct == old(currentProduct)
    {
      if result.Resolved? {
        FetchProducts(refetch);
        isEditing := false;
        currentProduct := None;
      }
    }

    /** The edit form's cancel button. */
    method Cancel()
      modifies this
      ensures !isEditing && currentProduct.None? && products == old(products)
    {
      isEditing := false;
      currentProduct := None;
    }

    /** The rows of the table for the signed-in `user` and the two filter selections. */
    function Shown(user: Identity, filterCategory: string, filterSupplier: string): (r: seq<Product>)
      reads this
      ensures SubsequenceOf(r, products)
    {
      FilterChainSelects(products, user, filterCategory, filterSupplier);
      FilterProducts(products, user, filterCategory, filterSupplier)
    }
  }
}
