# Inventory front-end: dialog and page logic

This project models the client-side logic of a small inventory management web
front-end (products, warehouses, stock receipts and deliveries on a hosted
database). Almost all of the application is rendering and database calls; what
is modelled here is the logic that can be stated and checked:

- **Delivery and receipt dialogs** (`DocumentDialog`): an ordered list of product
  lines edited by position (add, remove, update one field of one line, reset),
  the save gate that validates the form before anything is written, and the
  mapping of an accepted form to one header row with status `"draft"` and one
  line row per line. The two dialogs are the same code apart from the
  counterparty (customer for a delivery, supplier for a receipt) and the tables
  written, so one model, parameterised by `DocKind`, serves both. For lines 67-262
  of `src/components/DeliveryDialog.tsx`, the matching line of
  `src/components/ReceiptDialog.tsx` is one lower.
- **Dashboard statistics** (`Dashboard`): the low-stock count, the pending-status
  test for receipts and deliveries, and the zero defaults for missing answers.
- **Product page** (`Products`): the case-insensitive search over name or SKU and
  the low-stock highlight of the stock cell.
- **Warehouse dialog** (`WarehouseDialog`): filling the form from a warehouse or
  with defaults, the required-field check and the payload written on save.

Two helper modules hold what these share: `Seqs` (the array `filter` by element
and by position, with its order, idempotence and completeness lemmas) and `Text`
(`toLowerCase` on ASCII letters and `includes`). `Wrappers` holds `Option`, the
model of a value that may be null.

The stateful parts of the dialogs are classes (`DocumentDialog.DocumentForm`,
`WarehouseDialog.WarehouseForm`) whose fields are the components' React state and
whose methods replace that state; their contracts tie the new state to pure
functions (`DropIndex`, `UpdateAt`, `BlankForm`, `FormFor`, `Save`) about which
the lemmas are proved.

The code has no stock ledger: nothing updates on-hand quantities from documents,
and documents are only ever inserted with status `"draft"`
(src/components/DeliveryDialog.tsx:135, src/components/ReceiptDialog.tsx:134).
The delivery quantity `max` (src/components/DeliveryDialog.tsx:287) is an input
hint that the save does not check. The receipt, delivery, warehouse and history
list pages are placeholders. The model therefore has no ledger, no stock floor and
no document status transitions.

## Model

| member | source | states |
|---|---|---|
| `DocumentDialog.DocumentForm.constructor` | src/components/DeliveryDialog.tsx:49-57 | The initial state equals a reset form: empty header fields, the given date, no lines. |
| `DocumentDialog.DocumentForm.ResetForm` | src/components/ReceiptDialog.tsx:67-74 | After a reset, reference, counterparty, warehouse and notes are empty, the date is today's and the line list is empty. |
| `DocumentDialog.DocumentForm.AddLine` | src/components/DeliveryDialog.tsx:95-97 | Exactly one line `{product "", quantity 1, price 0}` is appended at the end; earlier lines and the header are unchanged. |
| `DocumentDialog.DocumentForm.RemoveLine` | src/components/DeliveryDialog.tsx:99-101 | For an index in range exactly that line is dropped and the others keep their order; for an index out of range nothing changes; the header is unchanged. |
| `DocumentDialog.DocumentForm.UpdateLine` | src/components/ReceiptDialog.tsx:102-106 | Only the edited field of the line at the index changes; the length, every other line and the header are unchanged. |
| `DocumentDialog.DocumentForm.HandleSave` | src/components/DeliveryDialog.tsx:109-153 | Saving the current form gives the result of `Save` on its fields; an accepted save is a draft with one row per line. |
| `Seqs.DropIndex` | src/components/DeliveryDialog.tsx:99-101 | Filtering by position removes one element when the index is in range and none otherwise. |
| `Seqs.DropIndexInRange` | src/components/ReceiptDialog.tsx:98-100 | For an index in range the result is the list without exactly that element, order kept. |
| `Seqs.DropIndexOutOfRange` | src/components/DeliveryDialog.tsx:99-101 | For a negative index or one past the end the list is returned unchanged. |
| `DocumentDialog.ApplyEdit` | src/components/DeliveryDialog.tsx:105 | The edited field takes the new value and the two other fields of the line keep theirs. |
| `DocumentDialog.UpdateAt` | src/components/DeliveryDialog.tsx:103-107 | The copied list has the same length, the same lines at every other index, and the edited line at the index. |
| `DocumentDialog.BlankForm` | src/components/DeliveryDialog.tsx:68-75 | The reset form has empty reference, counterparty, warehouse and notes, the given date and no lines. |
| `DocumentDialog.AnyIncomplete` | src/components/ReceiptDialog.tsx:114 | True exactly when some line has an empty product id or a quantity of 0 or less. |
| `DocumentDialog.NotesValue` | src/components/DeliveryDialog.tsx:133 | Notes become null exactly when the text is empty, and are copied otherwise. |
| `DocumentDialog.LineRows` | src/components/DeliveryDialog.tsx:146-152 | One row per line, in order, each with the new document's id and that line's product, quantity and unit price. |
| `DocumentDialog.LinesOf` | src/components/ReceiptDialog.tsx:145-151 | Reading line rows back gives one line per row. |
| `DocumentDialog.LineRowsRoundTrip` | src/components/ReceiptDialog.tsx:145-151 | Reading back the rows built from the lines gives exactly the lines: the mapping loses and reorders nothing. |
| `DocumentDialog.Save` | src/components/DeliveryDialog.tsx:109-153 | Rejected for missing fields iff a header field is empty or there is no line; rejected for lines iff the header passes and some line lacks a product or has quantity <= 0; rejected for authentication iff both pass and there is no user; otherwise the header is a draft with the form's fields, null notes iff empty, and the rows are the mapped lines. |
| `DocumentDialog.AcceptedRowsMatchLines` | src/components/ReceiptDialog.tsx:126-151 | An accepted save writes as many rows as there are lines (at least one), all tagged with the new id, reading back to the lines. |
| `DocumentDialog.BlankFormRejected` | src/components/ReceiptDialog.tsx:109-112 | A freshly reset form is rejected for missing fields, so nothing is written. |
| `DocumentDialog.AddedLineBlocksSave` | src/components/DeliveryDialog.tsx:95-97 | With the header filled, a form whose last line was just added is rejected for an incomplete line until a product is chosen. |
| `DocumentDialog.RemovePreservesCompleteLines` | src/components/DeliveryDialog.tsx:115-119 | Removing any line from a list of complete lines leaves only complete lines. |
| `DocumentDialog.AddThenRemoveLast` | src/components/ReceiptDialog.tsx:94-100 | Removing the line just appended restores the previous list. |
| `Dashboard.OrZero` | src/pages/Dashboard.tsx:55-61 | A missing count reads as 0; a present count is kept. |
| `Dashboard.LowStockItems` | src/pages/Dashboard.tsx:34-36 | Without product data the count is 0; otherwise it equals the number of positions whose product has current stock <= reorder level, and so never exceeds the number of products. |
| `Dashboard.LowStockItemsZeroIff` | src/pages/Dashboard.tsx:34-36 | The count is 0 exactly when no product is at or below its reorder level. |
| `Dashboard.LowStockItemsFullIff` | src/pages/Dashboard.tsx:34-36 | The count equals the number of products exactly when every product is at or below its reorder level. |
| `Dashboard.IsPending` | src/pages/Dashboard.tsx:44-47 | A status is pending exactly when it is "draft" or "waiting". |
| `Dashboard.PendingCount` | src/pages/Dashboard.tsx:44-53 | The pending count equals the number of documents whose status is "draft" or "waiting", repeated statuses each counted, and is at most the number of documents. |
| `Dashboard.SavedDocumentIsPending` | src/components/DeliveryDialog.tsx:135 | A document saved with status "draft" raises the pending count by exactly one. |
| `Dashboard.FetchStats` | src/pages/Dashboard.tsx:55-61 | Each count is the answer returned or 0 when missing; the low-stock count is 0 without product data and otherwise the number of products with current stock <= reorder level. |
| `Dashboard.NoAnswersGiveInitialStats` | src/pages/Dashboard.tsx:9-15 | With every answer missing the stats equal the initial all-zero stats. |
| `Products.StockCellClass` | src/pages/Products.tsx:150-154 | The stock cell gets the warning class exactly when current stock <= reorder level, and no class otherwise. |
| `Products.FilteredProducts` | src/pages/Products.tsx:59-63 | The result is no longer than the list, holds only matching products from the list, and holds every matching product. |
| `Products.SearchSound` | src/pages/Products.tsx:59-63 | Every kept product has the lower-cased query at some position of its lower-cased name or lower-cased SKU. |
| `Products.SearchComplete` | src/pages/Products.tsx:59-63 | Every product whose lower-cased name or SKU contains the lower-cased query is kept. |
| `Products.SearchPreservesOrder` | src/pages/Products.tsx:59 | The result is a subsequence of the product list: its k-th row is the list's row at strictly increasing positions. |
| `Products.EmptyQueryKeepsAll` | src/pages/Products.tsx:59-63 | An empty query keeps every product, in order. |
| `Products.SearchIdempotent` | src/pages/Products.tsx:59-63 | Searching the result again with the same query returns it unchanged. |
| `Products.SearchIgnoresQueryCase` | src/pages/Products.tsx:61-62 | A query and its lower-cased form select the same products. |
| `Products.SearchSameUpToCase` | src/pages/Products.tsx:59-63 | Two queries equal up to the case of their letters select the same products. |
| `Products.UpperCaseQueryExample` | src/pages/Products.tsx:59-63 | Searching "WIDGET" and searching "widget" give the same rows. |
| `Seqs.Filter` | src/pages/Products.tsx:59 | The filter keeps only elements of the input that satisfy the predicate, and every element that does. |
| `Seqs.FilterAppend` | src/pages/Dashboard.tsx:34-36 | Filtering a concatenation is the concatenation of the filtered parts. |
| `Seqs.FilterIdempotent` | src/pages/Products.tsx:59-63 | Filtering twice with the same predicate equals filtering once. |
| `Seqs.FilterKeepsAll` | src/pages/Products.tsx:59-63 | When every element satisfies the predicate, the filter returns the input. |
| `Seqs.FilterCongruent` | src/pages/Products.tsx:59-63 | Predicates that agree on every element give the same filter result. |
| `Seqs.FilterFullIff` | src/pages/Dashboard.tsx:34-36 | The filter is as long as its input exactly when every element satisfies the predicate. |
| `Seqs.FilterIsSubsequence` | src/pages/Products.tsx:59 | The filter's elements appear in the input at strictly increasing positions. |
| `Seqs.KeptPositionsSnoc` | src/pages/Dashboard.tsx:34-36 | Appending an element adds its position to the kept positions exactly when the predicate holds of it. |
| `Seqs.FilterCount` | src/pages/Dashboard.tsx:34-36 | The filter's length is the number of positions whose element satisfies the predicate: every kept copy of a repeated element counts. |
| `Text.LowerChar` | src/pages/Products.tsx:61-62 | Each upper-case ASCII letter maps to its own lower-case letter (same offset from 'a' as from 'A'); every other character is unchanged; the result is never upper-case. |
| `Text.Lower` | src/pages/Products.tsx:61-62 | Lower-casing keeps the length and lower-cases each character in place. |
| `Text.LowerIdempotent` | src/pages/Products.tsx:61-62 | Lower-casing a lower-cased string changes nothing. |
| `Text.Contains` | src/pages/Products.tsx:61-62 | The empty pattern is contained in every text. |
| `Text.OccursAtCases` | src/pages/Products.tsx:61-62 | An occurrence is at the start of the text or an occurrence in the text's tail. |
| `Text.ContainsIff` | src/pages/Products.tsx:61-62 | `includes` holds exactly when the pattern occurs at some position of the text. |
| `WarehouseDialog.FormFor` | src/components/WarehouseDialog.tsx:37-49 | Without a warehouse the form is empty with active on; with one, code, name and active flag are copied and a null address becomes "". |
| `WarehouseDialog.Save` | src/components/WarehouseDialog.tsx:51-89 | Rejected iff code or name is empty; then rejected iff no user; otherwise an insert (new) or an update by the edited warehouse's id, whose payload copies code, name and active flag, has a null address exactly when the address text is empty, and carries the user as creator. |
| `WarehouseDialog.PopulateThenSaveRoundTrip` | src/components/WarehouseDialog.tsx:38-72 | Filling from a warehouse and saving without edits writes back its code, name, active flag and address; a null address stays null. |
| `WarehouseDialog.NewFormRejected` | src/components/WarehouseDialog.tsx:43-55 | The default form of a new warehouse is rejected for missing fields. |
| `WarehouseDialog.WarehouseForm.constructor` | src/components/WarehouseDialog.tsx:31-34 | The initial state is the new-warehouse form: empty fields, active on. |
| `WarehouseDialog.WarehouseForm.Populate` | src/components/WarehouseDialog.tsx:37-49 | After the effect the form's fields are exactly `FormFor` of the given warehouse. |
| `WarehouseDialog.WarehouseForm.HandleSave` | src/components/WarehouseDialog.tsx:51-72 | Saving the current form gives `Save` on its fields, rejected for missing fields iff code or name is empty. |

## Left out

- Database and authentication calls: every query, insert, update and `auth.getUser` is outside the model. The signed-in user is a parameter (`Option<string>`), the id the database gives a new document is a parameter, and a save's result is the rows that would be written, not the writing.
- Database errors and their handling are not modelled: an insert that fails, the error toast, and the case where a document header is inserted but the insert of its lines then fails (the code does not undo the header).
- The `saving` and `loading` flags, toasts, `onClose` and all rendering.
- The product and warehouse lists each document dialog fetches to fill its select boxes, and the quantity `max` hint on the delivery form, which the save does not enforce.
- Floating-point money: unit prices are exact `real`s that are only copied; line totals with `toFixed`, the dashboard's total stock value and price formatting are not modelled.
- Input parsing (`parseInt`/`parseFloat` with the `|| 0` fallback) and the default date from the clock: the date is a parameter `today`.
- Header field edits (`setReference`, `setCustomerName`, ...) are plain assignments to the classes' public fields, not separate methods.
- `DocumentDialog.DocumentForm.UpdateLine`: requires the index to be a position of an existing line, as every caller in the dialog passes; the source called with an index past the end would grow the array with a partial line or holes, which the model does not represent.
- `Text.Lower`: models `toLowerCase` on ASCII letters only; Unicode case mapping is not modelled.
- The pending counts are computed by the database: `Dashboard.PendingCount` states what the status filter counts, and `FetchStats` takes the counts returned. An exception inside `fetchStats` leaves the initial stats, which the model covers only as missing answers.
- The products page's data fetch and the rendering of the other columns.
- `src/components/ProductDialog.tsx`, `src/App.tsx` and the placeholder pages (`Receipts`, `Deliveries`, `Warehouses`, `MoveHistory`): field copying, routing and static markup with no rule of their own.
- A stock ledger, stock floor and document status transitions: the code has none of them.
