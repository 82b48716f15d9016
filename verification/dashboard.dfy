/**
 * The dashboard's statistics cards: product count, low-stock count, and the
 * numbers of pending receipts and deliveries. The counts of rows are answered by
 * the database and may come back missing; a missing answer shows as 0.
 */
module Dashboard {
  import opened Wrappers
  import opened Seqs
  import opened Products
  import DocumentDialog

  datatype Stats = Stats(totalProducts: nat, lowStockItems: nat, pendingReceipts: nat, pendingDeliveries: nat)

  /** The stats shown before (or without) a successful fetch. */
  const InitialStats: Stats := Stats(0, 0, 0, 0)

  /** `count || 0`: a missing count reads as zero. */
  function OrZero(count: Option<nat>): (r: nat)
    ensures count.None? ==> r == 0
    ensures count.Some? ==> r == count.value
  {
    match count
    case None => 0
    case Some(n) => n
  }

  /** The positions of the low-stock products in a list. */
  ghost function LowStockPositions(ps: seq<Product>): set<int>
  {
    set i | 0 <= i < |ps| && IsLowStock(ps[i])
  }

  /**
   * `products?.filter(p => p.current_stock <= p.reorder_level).length || 0`:
   * the number of products whose stock is at or below their reorder level.
   */
  function LowStockItems(products: Option<seq<Product>>): (r: nat)
    ensures products.None? ==> r == 0
    ensures products.Some? ==> r == |LowStockPositions(products.value)| <= |products.value|
  {
    match products
    case None => 0
    case Some(ps) =>
      FilterCount(ps, IsLowStock);
      assert KeptPositions(ps, IsLowStock) == LowStockPositions(ps);
      |Filter(ps, IsLowStock)|
  }

  /** The count is zero exactly when no product is low on stock. */
  lemma LowStockItemsZeroIff(ps: seq<Product>)
    ensures LowStockItems(Some(ps)) == 0 <==> forall i :: 0 <= i < |ps| ==> !IsLowStock(ps[i])
  {
    if LowStockItems(Some(ps)) != 0 {
      var r := Filter(ps, IsLowStock);
      assert r[0] in r;
    }
  }

  /** The count equals the number of products exactly when every product is low on stock. */
  lemma LowStockItemsFullIff(ps: seq<Product>)
    ensures LowStockItems(Some(ps)) == |ps| <==> forall i :: 0 <= i < |ps| ==> IsLowStock(ps[i])
  {
    FilterFullIff(ps, IsLowStock);
  }

  const PendingStatuses: seq<string> := [DocumentDialog.DraftStatus, "waiting"]

  /** `.in("status", ["draft", "waiting"])`: a document still to be processed. */
  predicate IsPending(status: string)
    ensures IsPending(status) <==> status == "draft" || status == "waiting"
  {
    status in PendingStatuses
  }

  /** The positions of the documents whose status is pending. */
  ghost function PendingPositions(statuses: seq<string>): set<int>
  {
    set i | 0 <= i < |statuses| && IsPending(statuses[i])
  }

  /** The number of documents with a pending status: what the database counts for the card. */
  function PendingCount(statuses: seq<string>): (r: nat)
    ensures r <= |statuses|
    ensures r == |PendingPositions(statuses)|
  {
    FilterCount(statuses, IsPending);
    assert KeptPositions(statuses, IsPending) == PendingPositions(statuses);
    |Filter(statuses, IsPending)|
  }

  /** Every document a dialog saves starts out pending: it raises the pending count by one. */
  lemma SavedDocumentIsPending(statuses: seq<string>)
    ensures PendingCount(statuses + [DocumentDialog.DraftStatus]) == PendingCount(statuses) + 1
  {
    FilterAppend(statuses, [DocumentDialog.DraftStatus], IsPending);
  }

  /**
   * `fetchStats`, once the database has answered: the product count and the
   * pending counts as returned (missing ones as 0), and the low-stock count over
   * the product rows returned (none as 0).
   */
  function FetchStats(productsCount: Option<nat>, products: Option<seq<Product>>,
                      receiptsCount: Option<nat>, deliveriesCount: Option<nat>): (s: Stats)
    ensures productsCount.None? ==> s.totalProducts == 0
    ensures productsCount.Some? ==> s.totalProducts == productsCount.value
    ensures products.None? ==> s.lowStockItems == 0
    ensures products.Some? ==> s.lowStockItems == |LowStockPositions(products.value)| <= |products.value|
    ensures receiptsCount.None? ==> s.pendingReceipts == 0
    ensures receiptsCount.Some? ==> s.pendingReceipts == receiptsCount.value
    ensures deliveriesCount.None? ==> s.pendingDeliveries == 0
    ensures deliveriesCount.Some? ==> s.pendingDeliveries == deliveriesCount.value
  {
    Stats(OrZero(productsCount), LowStockItems(products), OrZero(receiptsCount), OrZero(deliveriesCount))
  }

  /** With every answer missing, the dashboard shows the same zeros as before the fetch. */
  lemma NoAnswersGiveInitialStats()
    ensures FetchStats(None, None, None, None) == InitialStats
  {
  }
}
