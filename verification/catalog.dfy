/** The public catalogue (`PublicProductList`): the category filter, the four sorts on a
    copy, the featured slice, and the per-product quantity entries that feed the cart. */
module Catalog {
  import opened Common
  import opened Domain
  import opened Cart
  import opened Sorting

  const FeaturedCount := 6

  /** `p.category === selectedCategory`: strict equality, so only a bare string equal to
      the key matches; a populated category never does. The key is what the category
      select holds, which is a category's name (see `OptionValue`). */
  predicate InSelectedCategory(key: string, p: Product) {
    p.category == Id(key)
  }

  function CategoryFilter(products: seq<Product>, selectedCategory: string): (r: seq<Product>)
    ensures selectedCategory == "" ==> r == products
    ensures selectedCategory != "" ==> forall i :: 0 <= i < |r| ==> r[i].category == Id(selectedCategory)
    ensures forall i :: 0 <= i < |products| && products[i].category == Id(selectedCategory) ==> products[i] in r
    ensures forall i :: 0 <= i < |r| ==> r[i] in products
    ensures SubsequenceOf(r, products)
    ensures forall i :: 0 <= i < |products| ==>
      multiset(r)[products[i]] ==
        if selectedCategory == "" || products[i].category == Id(selectedCategory)
        then multiset(products)[products[i]] else 0
  {
    if selectedCategory == "" then
      FilterIsSubsequence(products, p => true);
      products
    else
      FilterIsSubsequence(products, p => InSelectedCategory(selectedCategory, p));
      FilterCounts(products, p => InSelectedCategory(selectedCategory, p));
      Filter(products, p => InSelectedCategory(selectedCategory, p))
  }

  /** The value of a category's `<option>` in the catalogue's select: its name. */
  function OptionValue(c: Category): (r: string)
    ensures r == c.name
  {
    c.name
  }

  /** Choosing a category from the select compares its NAME with the products' category
      references, which hold ids (bare or populated): a product of that very category is
      dropped, and when no category id equals a category name the catalogue empties. */
  lemma NameKeyMissesCategoryProducts(products: seq<Product>, categories: seq<Category>, c: Category, p: Product)
    requires c in categories && OptionValue(c) != ""
    requires forall i, j :: 0 <= i < |products| && 0 <= j < |categories| ==>
      products[i].category != Id(categories[j].name)
    requires Names(p.category, c.id) && c.id != c.name
    ensures CategoryFilter(products, OptionValue(c)) == []
    ensures CategoryFilter([p], OptionValue(c)) == []
  {
    var k :| 0 <= k < |categories| && categories[k] == c;
    assert forall i :: 0 <= i < |products| ==> products[i].category != Id(c.name);
  }

  /** The option value the other category filters use (`c._id`). */
  function CorrectedOptionValue(c: Category): (r: string)
    ensures r == c.id
  {
    c.id
  }

  predicate NamesCategory(key: string, p: Product) {
    Names(p.category, key)
  }

  /** The category filter keyed by id, matching a bare or a populated reference, as the
      management product list does. */
  function CategoryFilterById(products: seq<Product>, selectedCategory: string): (r: seq<Product>)
    ensures selectedCategory == "" ==> r == products
    ensures selectedCategory != "" ==> forall i :: 0 <= i < |r| ==> Names(r[i].category, selectedCategory)
    ensures forall i :: 0 <= i < |products| && Names(products[i].category, selectedCategory) ==> products[i] in r
    ensures SubsequenceOf(r, products)
  {
    if selectedCategory == "" then
      FilterIsSubsequence(products, p => true);
      products
    else
      FilterIsSubsequence(products, p => NamesCategory(selectedCategory, p));
      Filter(products, p => NamesCategory(selectedCategory, p))
  }

  /** With the option keyed by id, choosing a category keeps exactly that category's
      products, populated or not, in order. */
  lemma IdKeySelectsCategoryProducts(products: seq<Product>, c: Category)
    requires c.id != ""
    ensures var r := CategoryFilterById(products, CorrectedOptionValue(c));
      && SubsequenceOf(r, products)
      && (forall i :: 0 <= i < |r| ==> Names(r[i].category, c.id))
      && (forall i :: 0 <= i < |products| ==> (products[i] in r <==> Names(products[i].category, c.id)))
  {
    var r := CategoryFilterById(products, CorrectedOptionValue(c));
    forall i | 0 <= i < |products| && products[i] in r
      ensures Names(products[i].category, c.id)
    {
      var j :| 0 <= j < |r| && r[j] == products[i];
    }
  }

  /** With the API populating categories, choosing a category empties the catalogue. */
  lemma PopulatedCategoriesNeverMatch(products: seq<Product>, selectedCategory: string)
    requires selectedCategory != ""
    requires forall i :: 0 <= i < |products| ==> products[i].category.Doc?
    ensures CategoryFilter(products, selectedCategory) == []
  {
  }

  /** `(a, b) => a.price - b.price` and `(a, b) => b.price - a.price` as orders. */
  function PriceAscending(): (Product, Product) -> bool { (a: Product, b: Product) => a.price <= b.price }
  function PriceDescending(): (Product, Product) -> bool { (a: Product, b: Product) => a.price >= b.price }

  /** `a.name.localeCompare(b.name)` and its reverse, over an order on names `nameLe`. */
  function NameAscending(nameLe: (string, string) -> bool): (Product, Product) -> bool {
    (a: Product, b: Product) => nameLe(a.name, b.name)
  }
  function NameDescending(nameLe: (string, string) -> bool): (Product, Product) -> bool {
    (a: Product, b: Product) => nameLe(b.name, a.name)
  }

  predicate KnownSort(sortBy: string) {
    sortBy == "price-asc" || sortBy == "price-desc" || sortBy == "name-asc" || sortBy == "name-desc"
  }

  /** The `sortBy` chain: a sorted copy for the four known keys, the filtered list itself
      otherwise. `nameLe` stands for the locale's collation. */
  function Arrange(filtered: seq<Product>, sortBy: string, nameLe: (string, string) -> bool): (r: seq<Product>)
    ensures multiset(r) == multiset(filtered)
    ensures sortBy == "price-asc" ==> forall i :: 0 <= i < |r| - 1 ==> r[i].price <= r[i + 1].price
    ensures sortBy == "price-desc" ==> forall i :: 0 <= i < |r| - 1 ==> r[i].price >= r[i + 1].price
    ensures !KnownSort(sortBy) ==> r == filtered
  {
    if sortBy == "price-asc" then
      SortWithSorted(filtered, PriceAscending());
      SortWith(filtered, PriceAscending())
    else if sortBy == "price-desc" then
      SortWithSorted(filtered, PriceDescending());
      SortWith(filtered, PriceDescending())
    else if sortBy == "name-asc" then SortWith(filtered, NameAscending(nameLe))
    else if sortBy == "name-desc" then SortWith(filtered, NameDescending(nameLe))
    else filtered
  }

  /** Under a collation that compares any two names, the name sorts are ordered. */
  lemma NameSortsOrdered(filtered: seq<Product>, nameLe: (string, string) -> bool)
    requires forall x, y :: nameLe(x, y) || nameLe(y, x)
    ensures var r := Arrange(filtered, "name-asc", nameLe);
      forall i :: 0 <= i < |r| - 1 ==> nameLe(r[i].name, r[i + 1].name)
    ensures var r := Arrange(filtered, "name-desc", nameLe);
      forall i :: 0 <= i < |r| - 1 ==> nameLe(r[i + 1].name, r[i].name)
  {
    forall a: Product, b: Product ensures NameAscending(nameLe)(a, b) || NameAscending(nameLe)(b, a) {
      assert nameLe(a.name, b.name) || nameLe(b.name, a.name);
    }
    SortWithSorted(filtered, NameAscending(nameLe));
    forall a: Product, b: Product ensures NameDescending(nameLe)(a, b) || NameDescending(nameLe)(b, a) {
      assert nameLe(a.name, b.name) || nameLe(b.name, a.name);
    }
    SortWithSorted(filtered, NameDescending(nameLe));
  }

  /** A list already in ascending price order comes back unchanged from 'price-asc'. */
  lemma AscendingIsStable(filtered: seq<Product>, nameLe: (string, string) -> bool)
    requires forall i :: 0 <= i < |filtered| - 1 ==> filtered[i].price <= filtered[i + 1].price
    ensures Arrange(filtered, "price-asc", nameLe) == filtered
  {
    SortWithSortedIsIdentity(filtered, PriceAscending());
  }

  /** The listing shown: the category filter, then the chosen sort. The product list
      itself is never reordered, since each sort works on a copy. */
  function Listing(products: seq<Product>, selectedCategory: string, sortBy: string, nameLe: (string, string) -> bool)
    : (r: seq<Product>)
    ensures multiset(r) == multiset(CategoryFilter(products, selectedCategory))
    ensures forall i :: 0 <= i < |r| ==> r[i] in products
    ensures selectedCategory == "" && !KnownSort(sortBy) ==> r == products
  {
    var filtered := CategoryFilter(products, selectedCategory);
    var r := Arrange(filtered, sortBy, nameLe);
    assert forall i :: 0 <= i < |r| ==> r[i] in multiset(filtered);
    r
  }

  /** `products.slice(0, 6)`: the first six products, or all of them when fewer, in order,
      whatever the filter and sort. */
  function Featured(products: seq<Product>): (r: seq<Product>)
    ensures |r| == if |products| < FeaturedCount then |products| else FeaturedCount
    ensures forall i :: 0 <= i < |r| ==> r[i] == products[i]
  {
    if |products| < FeaturedCount then products else products[..FeaturedCount]
  }

  /** `disabled={product.quantity === 0}` on both add buttons: only an exact zero
      disables; a negative stock does not. */
  predicate AddDisabled(p: Product) {
    p.quantity == 0
  }

  /** A sold-out product's button is disabled, and one with stock, or with a negative
      stock, is not. */
  lemma OnlySoldOutDisabled(p: Product)
    ensures p.quantity == 0 ==> AddDisabled(p)
    ensures p.quantity != 0 ==> !AddDisabled(p)
  {
  }

  /** `quantities[id] ? parseInt(quantities[id], 10) : 1`, with `parseInt` as a parameter. */
  function EnteredQuantity(quantities: map<string, string>, id: string, parseInt: string -> int): (r: int)
    ensures (id !in quantities || quantities[id] == "") ==> r == 1
    ensures id in quantities && quantities[id] != "" ==> r == parseInt(quantities[id])
  {
    if id in quantities && quantities[id] != "" then parseInt(quantities[id]) else 1
  }

  /** The catalogue's `quantities` state: the text entered per product `_id`. */
  class CatalogView {
    var products: seq<Product>
    var quantities: map<string, string>

    constructor (products: seq<Product>)
      ensures this.products == products && quantities == map[]
    {
      this.products := products;
      quantities := map[];
    }

    /** `handleQuantityChange(productId, value)`: only that product's entry changes. */
    method HandleQuantityChange(productId: string, value: string)
      modifies this
      ensures quantities == old(quantities)[productId := value]
      ensures forall k :: k != productId ==> (k in quantities <==> k in old(quantities))
      ensures forall k :: k != productId && k in quantities ==> quantities[k] == old(quantities)[k]
      ensures products == old(products)
    {
      quantities := quantities[productId := value];
    }

    /** `handleAddToCart(product)`: the entered quantity, or 1 when none is entered. */
    method HandleAddToCart(product: Product, store: CartStore, parseInt: string -> int)
      requires store.Valid()
      modifies store
      ensures store.Valid()
      ensures store.cart == AddLine(old(store.cart), product, EnteredQuantity(quantities, product.id, parseInt))
    {
      var qty := if product.id in quantities && quantities[product.id] != "" then parseInt(quantities[product.id]) else 1;
      store.AddToCart(product, qty);
    }

    /** A click on an add button: it reaches `handleAddToCart` only when the button is
        not disabled; a click on a sold-out product's button does nothing. Returns whether
        the handler ran. */
    method ClickAdd(product: Product, store: CartStore, parseInt: string -> int) returns (added: bool)
      requires store.Valid()
      modifies store
      ensures store.Valid()
      ensures added <==> !AddDisabled(product)
      ensures added ==> store.cart == AddLine(old(store.cart), product, EnteredQuantity(quantities, product.id, parseInt))
      ensures !added ==> store.cart == old(store.cart)
    {
      added := product.quantity != 0;
      if added {
        HandleAddToCart(product, store, parseInt);
      }
    }
  }

  /** A product nobody entered a quantity for goes into the cart once. */
  lemma AddWithoutEntryAddsOne(cart: seq<CartLine>, quantities: map<string, string>, p: Product, parseInt: string -> int)
    requires p.id !in quantities && !HasLine(cart, p.id)
    ensures AddLine(cart, p, EnteredQuantity(quantities, p.id, parseInt)) == cart + [CartLine(p, 1)]
  {
  }
}
