/**
 * The dashboard's figures (src/pages/dashboard/DashboardPage.tsx, `fetchData`): table counts,
 * the low-stock count, revenue, purchases and profit, and the five best-selling products.
 */
module Dashboard {
  import opened Schema
  import Seqs

  /** The low-stock rule the dashboard and the product list share: stock at or below the alert level. */
  predicate IsLowStock(p: Product)
  {
    p.stock <= p.lowStockAlert
  }

  function CountLowStock(products: seq<Product>): (n: nat)
  {
    if products == [] then 0
    else (if IsLowStock(products[0]) then 1 else 0) + CountLowStock(products[1..])
  }

  /** `reduce((sum, sale) => sum + sale.total, 0)` */
  function SalesTotal(sales: seq<Sale>): (r: real)
  {
    if sales == [] then 0.0 else sales[0].total + SalesTotal(sales[1..])
  }

  /** `reduce((sum, purchase) => sum + purchase.total, 0)` */
  function PurchasesTotal(purchases: seq<Purchase>): (r: real)
  {
    if purchases == [] then 0.0 else purchases[0].total + PurchasesTotal(purchases[1..])
  }

  datatype Stats = Stats(
    totalProducts: nat,
    totalSales: nat,
    totalCustomers: nat,
    totalSuppliers: nat,
    lowStockProducts: nat,
    revenue: real,
    purchases: real,
    profit: real)

  /** The stats card values, from the rows of each table. */
  function ComputeStats(products: seq<Product>, sales: seq<Sale>, customers: seq<Customer>,
                        suppliers: seq<Supplier>, purchases: seq<Purchase>): (s: Stats)
  {
    var revenue := SalesTotal(sales);
    var spent := PurchasesTotal(purchases);
    Stats(|products|, |sales|, |customers|, |suppliers|, CountLowStock(products), revenue, spent, revenue - spent)
  }

  /** The low-stock figure counts exactly the products the low-stock rule selects, so never more than all products. */
  lemma {:induction false} CountLowStockSpec(products: seq<Product>)
    ensures CountLowStock(products) == |Seqs.Filter(products, IsLowStock)|
    ensures CountLowStock(products) <= |products|
  {
    if products != [] {
      CountLowStockSpec(products[1..]);
    }
  }

  lemma {:induction false} SalesTotalAppend(a: seq<Sale>, b: seq<Sale>)
    ensures SalesTotal(a + b) == SalesTotal(a) + SalesTotal(b)
  {
    if a != [] {
      assert (a + b)[1..] == a[1..] + b;
      SalesTotalAppend(a[1..], b);
    } else {
      assert a + b == b;
    }
  }

  lemma {:induction false} PurchasesTotalAppend(a: seq<Purchase>, b: seq<Purchase>)
    ensures PurchasesTotal(a + b) == PurchasesTotal(a) + PurchasesTotal(b)
  {
    if a != [] {
      assert (a + b)[1..] == a[1..] + b;
      PurchasesTotalAppend(a[1..], b);
    } else {
      assert a + b == b;
    }
  }

  /**
   * The stats follow the tables: one more sale raises the sale count by one and revenue and
   * profit by its total; one more purchase lowers profit by its total; low stock is counted
   * by the shared rule.
   */
  lemma StatsSpec(products: seq<Product>, sales: seq<Sale>, customers: seq<Customer>,
                  suppliers: seq<Supplier>, purchases: seq<Purchase>, sale: Sale, purchase: Purchase)
    ensures var s := ComputeStats(products, sales, customers, suppliers, purchases);
      && s.lowStockProducts == |Seqs.Filter(products, IsLowStock)| <= s.totalProducts
      && s.profit == s.revenue - s.purchases
    ensures var s := ComputeStats(products, sales, customers, suppliers, purchases);
      var s' := ComputeStats(products, sales + [sale], customers, suppliers, purchases);
      s'.totalSales == s.totalSales + 1 && s'.revenue == s.revenue + sale.total && s'.profit == s.profit + sale.total
    ensures var s := ComputeStats(products, sales, customers, suppliers, purchases);
      var s' := ComputeStats(products, sales, customers, suppliers, purchases + [purchase]);
      s'.purchases == s.purchases + purchase.total && s'.profit == s.profit - purchase.total
  {
    CountLowStockSpec(products);
    SalesTotalAppend(sales, [sale]);
    PurchasesTotalAppend(purchases, [purchase]);
  }

  // ---------------------------------------------------------------- top products

  /** Every sale line of every sale, sale by sale, in order. */
  function AllItems(sales: seq<Sale>): (items: seq<SaleItem>)
  {
    if sales == [] then [] else AllItems(sales[..|sales| - 1]) + sales[|sales| - 1].items
  }

  /** Units sold under one product name, across the given lines. */
  function UnitsSold(items: seq<SaleItem>, name: string): (n: int)
  {
    if items == [] then 0
    else UnitsSold(items[..|items| - 1], name) +
         (if items[|items| - 1].productName == name then items[|items| - 1].quantity else 0)
  }

  /** The product names in the order they are first met: the key order of the accumulating dictionary. */
  function SeenNames(items: seq<SaleItem>): (names: seq<string>)
  {
    if items == [] then []
    else
      var names := SeenNames(items[..|items| - 1]);
      if items[|items| - 1].productName in names then names else names + [items[|items| - 1].productName]
  }

  /** Each name met is listed exactly once, and nothing else is listed. */
  lemma {:induction false} SeenNamesSpec(items: seq<SaleItem>)
    ensures Seqs.NoDuplicates(SeenNames(items))
    ensures forall k :: 0 <= k < |items| ==> items[k].productName in SeenNames(items)
    ensures forall name :: name in SeenNames(items) ==> exists k :: 0 <= k < |items| && items[k].productName == name
  {
    if items != [] {
      var init := items[..|items| - 1];
      SeenNamesSpec(init);
      forall k | 0 <= k < |init| ensures items[k] == init[k] { }
    }
  }

  /** A name never met has sold nothing. */
  lemma {:induction false} UnitsSoldUnseen(items: seq<SaleItem>, name: string)
    requires name !in SeenNames(items)
    ensures UnitsSold(items, name) == 0
  {
    if items != [] {
      UnitsSoldUnseen(items[..|items| - 1], name);
    }
  }

  /** One more line: its name joins the list if new, and its quantity joins that name's units. */
  lemma TallyStep(before: seq<SaleItem>, item: SaleItem)
    ensures SeenNames(before + [item]) ==
      if item.productName in SeenNames(before) then SeenNames(before) else SeenNames(before) + [item.productName]
    ensures forall name ::
      UnitsSold(before + [item], name) == UnitsSold(before, name) + (if item.productName == name then item.quantity else 0)
  {
    assert (before + [item])[..|before|] == before;
  }

  lemma AllItemsStep(sales: seq<Sale>, i: int)
    requires 0 <= i < |sales|
    ensures AllItems(sales[..i + 1]) == AllItems(sales[..i]) + sales[i].items
  {
    assert sales[..i + 1][..i] == sales[..i];
  }

  datatype ProductCount = ProductCount(name: string, count: int)

  /** The dictionary's entries, one per product name, with the units sold under it. */
  function ProductTotals(sales: seq<Sale>): (r: seq<ProductCount>)
  {
    var items := AllItems(sales);
    var names := SeenNames(items);
    seq(|names|, i requires 0 <= i < |names| => ProductCount(names[i], UnitsSold(items, names[i])))
  }

  /** `names` and `counts` hold the dictionary built from `items`: its key order and the units per key. */
  ghost predicate Tallied(items: seq<SaleItem>, names: seq<string>, counts: map<string, int>)
  {
    && names == SeenNames(items)
    && (forall name :: name in counts <==> name in names)
    && (forall name :: name in counts ==> counts[name] == UnitsSold(items, name))
  }

  /** One pass of the inner loop body keeps the dictionary in step with the lines read so far. */
  lemma TallyUpdate(before: seq<SaleItem>, item: SaleItem, names: seq<string>, counts: map<string, int>)
    requires Tallied(before, names, counts)
    ensures var n := item.productName;
      Tallied(before + [item],
        if n in counts then names else names + [n],
        counts[n := if n in counts && counts[n] != 0 then counts[n] + item.quantity else item.quantity])
  {
    TallyStep(before, item);
    if item.productName !in counts {
      UnitsSoldUnseen(before, item.productName);
    }
  }

  /**
   * The nested loop that fills `productSales`. A name whose running count is 0 takes the
   * `else` branch and is set to the line's quantity rather than increased, which is the same
   * value; the names list records the dictionary's key order.
   */
  method AccumulateProductSales(sales: seq<Sale>) returns (names: seq<string>, counts: map<string, int>)
    ensures names == SeenNames(AllItems(sales))
    ensures forall name :: name in counts <==> name in names
    ensures forall name :: name in counts ==> counts[name] == UnitsSold(AllItems(sales), name)
  {
    names, counts := [], map[];
    for i := 0 to |sales|
      invariant Tallied(AllItems(sales[..i]), names, counts)
    {
      AllItemsStep(sales, i);
      names, counts := TallySale(AllItems(sales[..i]), sales[i].items, names, counts);
    }
    assert sales[..|sales|] == sales;
  }

  /** The inner loop over one sale's lines: it extends a dictionary built from `before` by `items`. */
  method TallySale(ghost before: seq<SaleItem>, items: seq<SaleItem>, names0: seq<string>, counts0: map<string, int>)
    returns (names: seq<string>, counts: map<string, int>)
    requires Tallied(before, names0, counts0)
    ensures Tallied(before + items, names, counts)
  {
    names, counts := names0, counts0;
    assert before + items[..0] == before;
    for j := 0 to |items|
      invariant Tallied(before + items[..j], names, counts)
    {
      var item := items[j];
      assert (before + items[..j]) + [item] == before + items[..j + 1];
      TallyUpdate(before + items[..j], item, names, counts);
      if item.productName !in counts {
        names := names + [item.productName];
      }
      if item.productName in counts && counts[item.productName] != 0 {
        counts := counts[item.productName := counts[item.productName] + item.quantity];
      } else {
        counts := counts[item.productName := item.quantity];
      }
    }
    assert items[..|items|] == items;
  }

  /** `sort((a, b) => b.count - a.count)`, stable: an entry goes before the first entry whose count is not larger. */
  function InsertByCount(x: ProductCount, s: seq<ProductCount>): (r: seq<ProductCount>)
  {
    if s == [] then [x]
    else if s[0].count <= x.count then [x] + s
    else [s[0]] + InsertByCount(x, s[1..])
  }

  function SortByCount(s: seq<ProductCount>): (r: seq<ProductCount>)
  {
    if s == [] then [] else InsertByCount(s[0], SortByCount(s[1..]))
  }

  predicate NonIncreasing(s: seq<ProductCount>)
  {
    forall i, j :: 0 <= i < j < |s| ==> s[i].count >= s[j].count
  }

  function CountIs(c: int): (p: ProductCount -> bool)
  {
    (e: ProductCount) => e.count == c
  }

  lemma {:induction false} InsertByCountSorted(x: ProductCount, s: seq<ProductCount>)
    requires NonIncreasing(s)
    ensures NonIncreasing(InsertByCount(x, s))
  {
    if s != [] && s[0].count > x.count {
      var rest := InsertByCount(x, s[1..]);
      InsertByCountSorted(x, s[1..]);
      assert rest[0] == x || rest[0] == s[1];
      assert ([s[0]] + rest)[1..] == rest;
    }
  }

  lemma {:induction false} InsertByCountPermutes(x: ProductCount, s: seq<ProductCount>)
    ensures multiset(InsertByCount(x, s)) == multiset(s) + multiset{x}
  {
    if s != [] && s[0].count > x.count {
      InsertByCountPermutes(x, s[1..]);
      assert s == [s[0]] + s[1..];
    }
  }

  /** Entries the new one passes all have larger counts, so among equal counts it comes first. */
  lemma {:induction false} InsertByCountStable(x: ProductCount, s: seq<ProductCount>, c: int)
    ensures Seqs.Filter(InsertByCount(x, s), CountIs(c)) == (if x.count == c then [x] else []) + Seqs.Filter(s, CountIs(c))
  {
    if s == [] {
    } else if s[0].count <= x.count {
      assert ([x] + s)[1..] == s;
    } else {
      var rest := InsertByCount(x, s[1..]);
      InsertByCountStable(x, s[1..], c);
      assert ([s[0]] + rest)[0] == s[0] && ([s[0]] + rest)[1..] == rest;
    }
  }

  /**
   * The sort is a stable descending sort: the result is non-increasing in count, holds the
   * same entries, and entries with equal counts keep their relative order.
   */
  lemma {:induction false} SortByCountSpec(s: seq<ProductCount>)
    ensures NonIncreasing(SortByCount(s))
    ensures multiset(SortByCount(s)) == multiset(s)
    ensures forall c :: Seqs.Filter(SortByCount(s), CountIs(c)) == Seqs.Filter(s, CountIs(c))
  {
    if s != [] {
      SortByCountSpec(s[1..]);
      InsertByCountSorted(s[0], SortByCount(s[1..]));
      InsertByCountPermutes(s[0], SortByCount(s[1..]));
      assert s == [s[0]] + s[1..];
      forall c ensures Seqs.Filter(SortByCount(s), CountIs(c)) == Seqs.Filter(s, CountIs(c)) {
        InsertByCountStable(s[0], SortByCount(s[1..]), c);
      }
    }
  }

  /** `slice(0, 5)` */
  function TopFive(s: seq<ProductCount>): (r: seq<ProductCount>)
  {
    if |s| <= 5 then s else s[..5]
  }

  function TopProducts(sales: seq<Sale>): (r: seq<ProductCount>)
  {
    TopFive(SortByCount(ProductTotals(sales)))
  }

  /**
   * The top-products list is the first five entries of the sorted totals (all of them when
   * fewer than five names were sold), in non-increasing count order, each a distinct product
   * name carrying the units sold under it, and no product left out sold more than any product
   * kept.
   */
  lemma TopProductsSpec(sales: seq<Sale>)
    ensures var top := TopProducts(sales);
      && |top| == (if |ProductTotals(sales)| < 5 then |ProductTotals(sales)| else 5)
      && top == SortByCount(ProductTotals(sales))[..|top|]
      && NonIncreasing(top)
      && (forall e :: e in top ==> e in ProductTotals(sales))
      && (forall e :: e in top ==> e.count == UnitsSold(AllItems(sales), e.name))
      && (forall i, j :: 0 <= i < j < |top| ==> top[i].name != top[j].name)
      && (forall e, t :: e in ProductTotals(sales) && e !in top && t in top ==> t.count >= e.count)
  {
    var totals := ProductTotals(sales);
    var sorted := SortByCount(totals);
    SortByCountSpec(totals);
    SameMembers(sorted, totals);
    TopFiveSpec(sorted);
    assert |sorted| == |multiset(sorted)| == |multiset(totals)| == |totals|;
    TopProductsDistinct(sales);
  }

  /** No name is listed twice among the top products. */
  lemma TopProductsDistinct(sales: seq<Sale>)
    ensures var top := TopProducts(sales);
      forall i, j :: 0 <= i < j < |top| ==> top[i].name != top[j].name
  {
    var totals := ProductTotals(sales);
    var sorted := SortByCount(totals);
    SortByCountSpec(totals);
    SeenNamesSpec(AllItems(sales));
    forall i, j | 0 <= i < j < |TopFive(sorted)| ensures TopFive(sorted)[i].name != TopFive(sorted)[j].name {
      DistinctNamesSorted(totals, sorted, i, j);
    }
  }

  lemma SameMembers(a: seq<ProductCount>, b: seq<ProductCount>)
    requires multiset(a) == multiset(b)
    ensures forall e :: e in a <==> e in b
  {
    forall e ensures e in a <==> e in b {
      assert e in a <==> e in multiset(a);
      assert e in b <==> e in multiset(b);
    }
  }

  /** The cut keeps the first five entries, or all when fewer, and with a sorted list, the largest counts. */
  lemma TopFiveSpec(sorted: seq<ProductCount>)
    requires NonIncreasing(sorted)
    ensures var top := TopFive(sorted);
      && |top| == (if |sorted| < 5 then |sorted| else 5) && NonIncreasing(top)
      && (forall i :: 0 <= i < |top| ==> top[i] == sorted[i])
      && (forall e, t :: e in sorted && e !in top && t in top ==> t.count >= e.count)
  {
    var top := TopFive(sorted);
    assert top == sorted[..|top|];
    forall e, t | e in sorted && e !in top && t in top ensures t.count >= e.count {
      var k :| 0 <= k < |sorted| && sorted[k] == e;
      var m :| 0 <= m < |top| && top[m] == t;
      assert k >= |top|;
    }
  }

  /** With distinct names, no entry occurs twice. */
  lemma {:induction false} AtMostOnce(totals: seq<ProductCount>, x: ProductCount)
    requires forall a, b :: 0 <= a < b < |totals| ==> totals[a].name != totals[b].name
    ensures multiset(totals)[x] <= 1
  {
    if totals != [] {
      AtMostOnce(totals[1..], x);
      assert totals == [totals[0]] + totals[1..];
      if x == totals[0] {
        assert forall b :: 0 <= b < |totals[1..]| ==> totals[1..][b] == totals[b + 1];
        assert x !in totals[1..];
      }
    }
  }

  lemma TwiceInMultiset(s: seq<ProductCount>, i: int, j: int)
    requires 0 <= i < j < |s|
    ensures s[i] == s[j] ==> multiset(s)[s[i]] >= 2
  {
    if s[i] == s[j] {
      assert s == s[..i] + [s[i]] + s[i + 1..j] + [s[j]] + s[j + 1..];
    }
  }

  /** The sorted totals, like the totals, never show one name twice. */
  lemma DistinctNamesSorted(totals: seq<ProductCount>, sorted: seq<ProductCount>, i: int, j: int)
    requires forall a, b :: 0 <= a < b < |totals| ==> totals[a].name != totals[b].name
    requires multiset(sorted) == multiset(totals)
    requires 0 <= i < j < |sorted|
    ensures sorted[i].name != sorted[j].name
  {
    AtMostOnce(totals, sorted[i]);
    assert sorted[i] in multiset(totals) && sorted[j] in multiset(totals);
    TwiceInMultiset(sorted, i, j);
  }

  /**
   * `fetchData`: the stats, and the top products built from the dictionary the nested loop
   * fills, sorted and cut to five.
   */
  method FetchData(products: seq<Product>, sales: seq<Sale>, customers: seq<Customer>,
                   suppliers: seq<Supplier>, purchases: seq<Purchase>)
    returns (stats: Stats, top: seq<ProductCount>)
    ensures stats == ComputeStats(products, sales, customers, suppliers, purchases)
    ensures top == TopProducts(sales)
  {
    stats := ComputeStats(products, sales, customers, suppliers, purchases);
    var names, counts := AccumulateProductSales(sales);
    var entries := seq(|names|, i requires 0 <= i < |names| => ProductCount(names[i], counts[names[i]]));
    assert entries == ProductTotals(sales);
    top := TopFive(SortByCount(entries));
  }
}
