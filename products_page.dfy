/**
 * The product list (src/pages/products/ProductsPage.tsx): the category options, the
 * search-and-category filter, the list after a delete, and the low-stock marker.
 */
module ProductsPage {
  import opened Base
  import opened Schema
  import Seqs
  import Text
  import Dashboard

  /** Each product's `category` field, in list order (absent fields included). */
  function CategoryFields(products: seq<Product>): (r: seq<Option<string>>)
  {
    seq(|products|, i requires 0 <= i < |products| => products[i].category)
  }

  /** `Array.from(new Set(products.map(p => p.category)))` */
  function CategoryOptions(products: seq<Product>): (r: seq<Option<string>>)
  {
    Seqs.Distinct(CategoryFields(products))
  }

  /**
   * The options list each product's category once, and only those. Since no write path sets
   * the field, a list of products saved by the app offers the single absent category.
   */
  lemma CategoryOptionsSpec(products: seq<Product>)
    ensures Seqs.NoDuplicates(CategoryOptions(products))
    ensures forall c :: c in CategoryOptions(products) <==> exists i :: 0 <= i < |products| && products[i].category == c
    ensures products != [] && (forall i :: 0 <= i < |products| ==> products[i].category.None?) ==>
      CategoryOptions(products) == [None]
  {
    var fields := CategoryFields(products);
    Seqs.DistinctSpec(fields);
    forall c ensures c in fields <==> exists i :: 0 <= i < |products| && products[i].category == c {
      if c in fields {
        var i :| 0 <= i < |fields| && fields[i] == c;
        assert products[i].category == c;
      }
      if exists i :: 0 <= i < |products| && products[i].category == c {
        var i :| 0 <= i < |products| && products[i].category == c;
        assert fields[i] == c;
      }
    }
    if products != [] && (forall i :: 0 <= i < |products| ==> products[i].category.None?) {
      Seqs.DistinctOfConstant(fields, None);
    }
  }

  /** The search: the name or the barcode contains the term, ignoring case. */
  predicate MatchesSearch(p: Product, term: string)
  {
    Text.ContainsIgnoringCase(p.name, term) || Text.ContainsIgnoringCase(p.barcode, term)
  }

  /** The category select: `all`, or a product whose `category` field equals the selection. */
  predicate MatchesCategory(p: Product, selected: string)
  {
    selected == "all" || p.category == Some(selected)
  }

  function Shown(term: string, selected: string): (keep: Product -> bool)
  {
    (p: Product) => MatchesSearch(p, term) && MatchesCategory(p, selected)
  }

  /** `filteredProducts` */
  function FilteredProducts(products: seq<Product>, term: string, selected: string): (r: seq<Product>)
  {
    Seqs.Filter(products, Shown(term, selected))
  }

  /**
   * The list shown is the sub-list, in order, of the products matching both the search and
   * the category; with an empty term and `all`, it is every product; choosing a category
   * never shows a product that `all` hides.
   */
  lemma FilteredProductsSpec(products: seq<Product>, term: string, selected: string)
    ensures forall p :: p in FilteredProducts(products, term, selected) <==>
      p in products && MatchesSearch(p, term) && MatchesCategory(p, selected)
    ensures Seqs.IsSubsequence(FilteredProducts(products, term, selected), products)
    ensures FilteredProducts(products, "", "all") == products
    ensures Seqs.IsSubsequence(FilteredProducts(products, term, selected), FilteredProducts(products, term, "all"))
  {
    forall p ensures p in FilteredProducts(products, term, selected) <==>
      p in products && MatchesSearch(p, term) && MatchesCategory(p, selected)
    {
      Seqs.FilterMembership(products, Shown(term, selected), p);
    }
    Seqs.FilterIsSubsequence(products, Shown(term, selected));
    forall i | 0 <= i < |products| ensures Shown("", "all")(products[i]) {
      Text.EmptyTermMatches(products[i].name);
    }
    Seqs.FilterAll(products, Shown("", "all"));
    Seqs.FilterNarrowing(products, Shown(term, selected), Shown(term, "all"));
  }

  /** The low-stock marker shows on exactly the listed products the dashboard counts as low on stock, so never on more than it counts. */
  lemma MarkedProducts(products: seq<Product>, term: string, selected: string)
    ensures var marked := Seqs.Filter(FilteredProducts(products, term, selected), Dashboard.IsLowStock);
      && (forall p :: p in marked <==> p in FilteredProducts(products, term, selected) && p.stock <= p.lowStockAlert)
      && |marked| <= Dashboard.CountLowStock(products)
  {
    var shown := FilteredProducts(products, term, selected);
    forall p ensures p in Seqs.Filter(shown, Dashboard.IsLowStock) <==> p in shown && p.stock <= p.lowStockAlert {
      Seqs.FilterMembership(shown, Dashboard.IsLowStock, p);
    }
    Seqs.FilterIsSubsequence(products, Shown(term, selected));
    Seqs.FilterMonotone(shown, products, Dashboard.IsLowStock);
    Seqs.SubsequenceLength(Seqs.Filter(shown, Dashboard.IsLowStock), Seqs.Filter(products, Dashboard.IsLowStock));
    Dashboard.CountLowStockSpec(products);
  }

  function HasOtherId(id: string): (keep: Product -> bool)
  {
    (p: Product) => p.id != id
  }

  /** The list kept after a delete: the products with another id. */
  function AfterDelete(products: seq<Product>, id: string): (r: seq<Product>)
  {
    Seqs.Filter(products, HasOtherId(id))
  }

  /** Every listed product is the stored row under its id. */
  predicate Mirrors(products: seq<Product>, table: map<string, Product>)
  {
    forall i :: 0 <= i < |products| ==> products[i].id in table && table[products[i].id] == products[i]
  }

  /**
   * `handleDelete`: when confirmed, the row goes from the table and every product with that
   * id from the list; otherwise nothing changes.
   */
  function HandleDelete(table: map<string, Product>, products: seq<Product>, id: string, confirmed: bool)
    : (r: (map<string, Product>, seq<Product>))
  {
    if confirmed then (table - {id}, AfterDelete(products, id)) else (table, products)
  }

  /**
   * After a delete the list is the old list, in order, minus exactly the products with that
   * id; deleting an id not listed keeps the list; and a list that mirrored the table still does.
   */
  lemma HandleDeleteSpec(table: map<string, Product>, products: seq<Product>, id: string)
    ensures var (table', products') := HandleDelete(table, products, id, true);
      && Seqs.IsSubsequence(products', products)
      && (forall p :: p in products' <==> p in products && p.id != id)
      && ((forall i :: 0 <= i < |products| ==> products[i].id != id) ==> products' == products)
      && (Mirrors(products, table) ==> Mirrors(products', table'))
  {
    var products' := AfterDelete(products, id);
    Seqs.FilterIsSubsequence(products, HasOtherId(id));
    forall p ensures p in products' <==> p in products && p.id != id {
      Seqs.FilterMembership(products, HasOtherId(id), p);
    }
    if forall i :: 0 <= i < |products| ==> products[i].id != id {
      Seqs.FilterAll(products, HasOtherId(id));
    }
    if Mirrors(products, table) {
      forall i | 0 <= i < |products'| ensures products'[i].id in table - {id} && (table - {id})[products'[i].id] == products'[i] {
        assert products'[i] in products';
      }
    }
  }
}
