/** The dashboard (`Dashboard`): stock-level buckets, the stock-alert count, the low-stock
    table and the number of products per supplier, all computed from the fetched lists. */
module Dashboard {
  import opened Common
  import opened Domain

  predicate InStock(p: Product) { p.quantity > 10 }
  predicate LowStock(p: Product) { p.quantity > 0 && p.quantity <= 10 }
  predicate OutOfStock(p: Product) { p.quantity == 0 }
  /** The alert card: `quantity <= 10`. */
  predicate StockAlert(p: Product) { p.quantity <= 10 }
  /** The low-stock table: `quantity < 5`. */
  predicate BelowFive(p: Product) { p.quantity < 5 }
  predicate NegativeStock(p: Product) { p.quantity < 0 }

  /** `filter(keep).length` on a non-empty list, one element at a time. */
  lemma CountFirst(s: seq<Product>, keep: Product -> bool)
    requires s != []
    ensures Count(s, keep) == (if keep(s[0]) then 1 else 0) + Count(s[1..], keep)
  {
  }

  /** The three buckets and the negative stocks split the list: every product is in
      exactly one. */
  lemma {:induction false} BucketsSplit(products: seq<Product>)
    ensures Count(products, InStock) + Count(products, LowStock) + Count(products, OutOfStock)
      + Count(products, NegativeStock) == |products|
  {
    if products != [] {
      BucketsSplit(products[1..]);
      CountFirst(products, InStock);
      CountFirst(products, LowStock);
      CountFirst(products, OutOfStock);
      CountFirst(products, NegativeStock);
    }
  }

  /** With no negative stock, the pie chart's three buckets add up to `products.length`. */
  lemma BucketsPartition(products: seq<Product>)
    requires forall i :: 0 <= i < |products| ==> products[i].quantity >= 0
    ensures Count(products, InStock) + Count(products, LowStock) + Count(products, OutOfStock) == |products|
  {
    BucketsSplit(products);
    assert Filter(products, NegativeStock) == [];
  }

  /** The alert card counts the low and the out-of-stock products, and any negative stock. */
  lemma {:induction false} AlertCountSplit(products: seq<Product>)
    ensures Count(products, StockAlert) ==
      Count(products, LowStock) + Count(products, OutOfStock) + Count(products, NegativeStock)
  {
    if products != [] {
      AlertCountSplit(products[1..]);
      CountFirst(products, StockAlert);
      CountFirst(products, LowStock);
      CountFirst(products, OutOfStock);
      CountFirst(products, NegativeStock);
    }
  }

  /** With no negative stock, alerts are exactly low plus out of stock. */
  lemma AlertIsLowPlusOut(products: seq<Product>)
    requires forall i :: 0 <= i < |products| ==> products[i].quantity >= 0
    ensures Count(products, StockAlert) == Count(products, LowStock) + Count(products, OutOfStock)
  {
    AlertCountSplit(products);
    assert Filter(products, NegativeStock) == [];
  }

  /** `products.filter(p => p.quantity < 5)`: the table lists exactly the products under
      five, in their original order. */
  function LowStockTable(products: seq<Product>): (r: seq<Product>)
    ensures forall i :: 0 <= i < |r| ==> r[i].quantity < 5
    ensures forall i :: 0 <= i < |products| && products[i].quantity < 5 ==> products[i] in r
    ensures SubsequenceOf(r, products)
    ensures forall i :: 0 <= i < |products| ==>
      multiset(r)[products[i]] == if products[i].quantity < 5 then multiset(products)[products[i]] else 0
  {
    FilterIsSubsequence(products, BelowFive);
    FilterCounts(products, BelowFive);
    Filter(products, BelowFive)
  }

  /** Every row of the low-stock table is also counted by the alert card. */
  lemma {:induction false} TableWithinAlerts(products: seq<Product>)
    ensures |LowStockTable(products)| <= Count(products, StockAlert)
  {
    if products != [] {
      TableWithinAlerts(products[1..]);
      CountFirst(products, BelowFive);
      CountFirst(products, StockAlert);
    }
  }

  /** `p => p.supplier?._id === id` */
  function SuppliedBy(id: string): Product -> bool {
    (p: Product) => DocId(p.supplier) == Some(id)
  }

  /** `suppliers.map(s => products.filter(p => p.supplier?._id === s._id).length)` */
  function SupplierCounts(suppliers: seq<Supplier>, products: seq<Product>): (r: seq<nat>)
    ensures |r| == |suppliers|
    ensures forall i :: 0 <= i < |suppliers| ==> r[i] == Count(products, SuppliedBy(suppliers[i].id))
  {
    if suppliers == [] then []
    else [Count(products, SuppliedBy(suppliers[0].id))] + SupplierCounts(suppliers[1..], products)
  }

  function Sum(s: seq<nat>): nat {
    if s == [] then 0 else s[0] + Sum(s[1..])
  }

  /** How many suppliers have the product's populated supplier id. */
  function Claimants(suppliers: seq<Supplier>, p: Product): nat {
    if suppliers == [] then 0
    else (if SuppliedBy(suppliers[0].id)(p) then 1 else 0) + Claimants(suppliers[1..], p)
  }

  lemma {:induction false} ClaimantsAtMostOne(suppliers: seq<Supplier>, p: Product)
    requires DistinctSupplierIds(suppliers)
    ensures Claimants(suppliers, p) <= 1
    ensures (forall i :: 0 <= i < |suppliers| ==> !SuppliedBy(suppliers[i].id)(p)) ==> Claimants(suppliers, p) == 0
  {
    if suppliers != [] {
      ClaimantsAtMostOne(suppliers[1..], p);
      if SuppliedBy(suppliers[0].id)(p) {
        forall i | 0 <= i < |suppliers[1..]| ensures !SuppliedBy(suppliers[1..][i].id)(p) {
          assert suppliers[1..][i] == suppliers[i + 1];
        }
      }
    }
  }

  /** Adding one product to the front adds its claimants to the total of the counts. */
  lemma {:induction false} SumCountsFirst(suppliers: seq<Supplier>, products: seq<Product>)
    requires products != []
    ensures Sum(SupplierCounts(suppliers, products)) ==
      Claimants(suppliers, products[0]) + Sum(SupplierCounts(suppliers, products[1..]))
  {
    if suppliers != [] {
      SumCountsFirst(suppliers[1..], products);
      CountFirst(products, SuppliedBy(suppliers[0].id));
    }
  }

  /** When supplier ids are distinct, no product is counted twice: the bar chart's bars
      add up to at most the number of products. */
  lemma {:induction false} SupplierCountsBounded(suppliers: seq<Supplier>, products: seq<Product>)
    requires DistinctSupplierIds(suppliers)
    ensures Sum(SupplierCounts(suppliers, products)) <= |products|
  {
    if products == [] {
      ZeroCounts(suppliers);
    } else {
      SupplierCountsBounded(suppliers, products[1..]);
      SumCountsFirst(suppliers, products);
      ClaimantsAtMostOne(suppliers, products[0]);
    }
  }

  lemma {:induction false} ZeroCounts(suppliers: seq<Supplier>)
    ensures Sum(SupplierCounts(suppliers, [])) == 0
  {
    if suppliers != [] {
      ZeroCounts(suppliers[1..]);
    }
  }
}
