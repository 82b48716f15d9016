/**
 * The product list page: a product row, the low-stock highlight on the stock column,
 * and the search box that narrows the table by name or SKU.
 */
module Products {
  import opened Wrappers
  import opened Seqs
  import opened Text

  /** A row of the `products` table as the page reads it. Prices are exact here. */
  datatype Product = Product(
    id: string,
    sku: string,
    name: string,
    description: Option<string>,
    unitOfMeasure: string,
    currentStock: int,
    reorderLevel: int,
    costPrice: real,
    sellingPrice: real,
    isActive: bool)

  /** A product is low on stock when its stock has fallen to its reorder level or below. */
  predicate IsLowStock(p: Product)
  {
    p.currentStock <= p.reorderLevel
  }

  const LowStockClass: string := "text-warning font-semibold"

  /** The class name put on the stock cell: the warning style exactly for low-stock rows. */
  function StockCellClass(p: Product): (cls: string)
    ensures cls != "" <==> p.currentStock <= p.reorderLevel
    ensures cls != "" ==> cls == LowStockClass
  {
    if IsLowStock(p) then LowStockClass else ""
  }

  /** The search test: the lower-cased query is a substring of the lower-cased name or SKU. */
  predicate MatchesSearch(p: Product, query: string)
  {
    Contains(Lower(p.name), Lower(query)) || Contains(Lower(p.sku), Lower(query))
  }

  function SearchKeep(query: string): Product -> bool
  {
    p => MatchesSearch(p, query)
  }

  /** `filteredProducts`: the products that match the search query, in list order. */
  function FilteredProducts(products: seq<Product>, query: string): (r: seq<Product>)
    ensures |r| <= |products|
    ensures forall p :: p in r ==> p in products && MatchesSearch(p, query)
    ensures forall i :: 0 <= i < |products| && MatchesSearch(products[i], query) ==> products[i] in r
  {
    Filter(products, SearchKeep(query))
  }

  /** Soundness: every kept product has the query, ignoring case, inside its name or its SKU. */
  lemma SearchSound(products: seq<Product>, query: string, p: Product)
    requires p in FilteredProducts(products, query)
    ensures p in products
    ensures (exists i :: OccursAt(Lower(p.name), Lower(query), i))
         || (exists i :: OccursAt(Lower(p.sku), Lower(query), i))
  {
    var name, sku, q := Lower(p.name), Lower(p.sku), Lower(query);
    assert Contains(name, q) || Contains(sku, q);
    if Contains(name, q) {
      ContainsIff(name, q);
      var i :| OccursAt(name, q, i);
      assert OccursAt(Lower(p.name), Lower(query), i);
      assert exists j :: OccursAt(Lower(p.name), Lower(query), j);
    } else {
      ContainsIff(sku, q);
      var i :| OccursAt(sku, q, i);
      assert OccursAt(Lower(p.sku), Lower(query), i);
      assert exists j :: OccursAt(Lower(p.sku), Lower(query), j);
    }
  }

  /** Completeness: every product whose name or SKU holds the query, ignoring case, is kept. */
  lemma SearchComplete(products: seq<Product>, query: string, k: nat, i: int)
    requires k < |products|
    requires OccursAt(Lower(products[k].name), Lower(query), i)
          || OccursAt(Lower(products[k].sku), Lower(query), i)
    ensures products[k] in FilteredProducts(products, query)
  {
    ContainsIff(Lower(products[k].name), Lower(query));
    ContainsIff(Lower(products[k].sku), Lower(query));
  }

  /** The search result is a subsequence of the product list: same relative order. */
  lemma SearchPreservesOrder(products: seq<Product>, query: string) returns (idx: seq<nat>)
    ensures EmbedsAt(FilteredProducts(products, query), products, idx)
  {
    idx := FilterIsSubsequence(products, SearchKeep(query));
  }

  /** An empty search box shows every product. */
  lemma EmptyQueryKeepsAll(products: seq<Product>)
    ensures FilteredProducts(products, "") == products
  {
    FilterKeepsAll(products, SearchKeep(""));
  }

  /** Searching the search result again with the same query returns it unchanged. */
  lemma SearchIdempotent(products: seq<Product>, query: string)
    ensures FilteredProducts(FilteredProducts(products, query), query) == FilteredProducts(products, query)
  {
    FilterIdempotent(products, SearchKeep(query));
  }

  /** The search ignores the case of the query: a query and its lower-cased form give the same rows. */
  lemma SearchIgnoresQueryCase(products: seq<Product>, query: string)
    ensures FilteredProducts(products, Lower(query)) == FilteredProducts(products, query)
  {
    LowerIdempotent(query);
    FilterCongruent(products, SearchKeep(Lower(query)), SearchKeep(query));
  }

  /** Two queries that differ only in the case of their letters select the same products. */
  lemma SearchSameUpToCase(products: seq<Product>, query1: string, query2: string)
    requires Lower(query1) == Lower(query2)
    ensures FilteredProducts(products, query1) == FilteredProducts(products, query2)
  {
    FilterCongruent(products, SearchKeep(query1), SearchKeep(query2));
  }

  /** For instance, searching "WIDGET" and searching "widget" show the same rows. */
  lemma UpperCaseQueryExample(products: seq<Product>)
    ensures FilteredProducts(products, "WIDGET") == FilteredProducts(products, "widget")
  {
    assert Lower("WIDGET") == "widget";
    assert Lower("widget") == "widget";
    SearchSameUpToCase(products, "WIDGET", "widget");
  }
}
