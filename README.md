# QVentor front-end logic in Dafny

QVentor is an inventory web application whose browser scripts sign the user
in, fetch items, import records and export records from a REST backend, draw
them into tables and cards, compute report statistics, and export a drawn
table as a word-processing document. This project models the sequential logic
inside three of those scripts, with the DOM, the network and the document
library replaced by plain values:

- `report.dfy` (module `Report`, pure): the four report statistics
  (`totalProducts`, `totalSold`, `pendingOrders`, `totalRevenue`) and the
  guards of the report load flow.
- `import_export.dfy` (module `ImportExport`, imperative): `renderImports` and
  `renderExports` as methods that clear a `TableBody` object's `rows` and
  append one nine-cell row per record, and the page's load flow.
- `docx_export.dfy` (module `DocExport`): the document built by
  `downloadTableAsDocx` (a pure function over the table's cell texts) and the
  `tableToDocx` variant (a method with the source's nested push loops).
- `product_details.dfy` (module `ProductDetails`, imperative): a `ProductPage`
  class holding the product list's content, `currentUser` and whether
  `searchProducts` is installed; `loadItems` as a loop appending cards; the
  empty-query guard of `searchProducts`.
- `common.dfy` (module `Common`) and `records.dfy` (module `Records`): the
  shared value helpers (decimal printing of integers, the `|| "-"` fallback,
  `join`, `trim`, lower-casing) and the backend's JSON records.

The backend's answers are inputs: `Fetched<T>` is either a rejected request
or a response with its `ok` flag and its parsed body (absent when `json()`
rejects). The signed-in user is an `Option<User>`.

The model follows the code as written; in particular:
- the exporter does not reject an empty or ragged table; rows and cells pass
  through as they are;
- besides an unmatched item contributing nothing, the revenue fold throws
  (and the report writes nothing) when a record has no `item` while the item
  list is non-empty, because `exp.item.id` is read inside `find`'s callback;
- on the import/export page only a response that is not `ok` is treated as
  an empty list; a rejected request or body alerts and leaves the table as it
  was;
- `tableToDocx` styles rows by their `THEAD` parent, not by index.

## Model

| member | source | states |
|---|---|---|
| Report.TotalSoldAppend | src/main/resources/static/js/report.js:40 | the `reduce` sum of shipped quantities splits over concatenation |
| Report.TotalSoldFirst | src/main/resources/static/js/report.js:40 | read from the front, `totalSold` is the first record's shipped quantity plus the rest's sum, starting from 0 |
| Report.TotalSold | src/main/resources/static/js/report.js:40 | `totalSold` as the left fold of `reduce` from 0; pinned to the plain sum by TotalSoldIsShippedSum |
| Report.TotalSoldIsShippedSum | src/main/resources/static/js/report.js:40 | the fold equals the plain front-to-back sum of shipped quantities |
| Report.PendingIgnoresCase | src/main/resources/static/js/report.js:42-44 | a status lower-cases to "pending" exactly when it has 7 letters each equal to the letter of "pending" in either case |
| Report.IsPending | src/main/resources/static/js/report.js:43 | a record is pending when its status is present and lower-cases to "pending"; characterised letter by letter in PendingIgnoresCase |
| Report.PendingRecords | src/main/resources/static/js/report.js:42-44 | the filter keeps every pending record as often as it occurs and nothing else (an absent status is never pending), so its length is CountPending |
| Report.CountPending | src/main/resources/static/js/report.js:42-44 | the number of pending records, each occurrence counted; `pendingOrders` equals it by PendingRecords and ComputeStats |
| Report.FindIndex | src/main/resources/static/js/report.js:48 | `find` yields nothing exactly when no item has the id, and otherwise the first item with that id |
| Report.Contribution | src/main/resources/static/js/report.js:48-49 | one record's revenue term: 0 with no items, a throw for a missing item otherwise, else quantity times the first match's price or 0; constrained through RevenueFailsExactly and RevenueIsMatchedSum |
| Report.TotalRevenue | src/main/resources/static/js/report.js:46-50 | `totalRevenue` as the left fold of `reduce`, failing once a record throws; constrained by RevenueFailsExactly, RevenueIsMatchedSum, UnpricedRecordAddsNothing and NoItemsNoRevenue |
| Report.RevenueFailsExactly | src/main/resources/static/js/report.js:46-50 | the revenue fold throws exactly when the item list is non-empty and some record has no item |
| Report.RevenueIsMatchedSum | src/main/resources/static/js/report.js:46-50 | when it succeeds, revenue is the sum over records with a matching item of shipped quantity times that item's price |
| Report.UnpricedRecordAddsNothing | src/main/resources/static/js/report.js:48-49 | a record whose id matches no item, or whose first match has price 0, leaves the revenue unchanged |
| Report.NoItemsNoRevenue | src/main/resources/static/js/report.js:46-50 | with no items nothing throws and the revenue is 0 whatever the records |
| Report.ComputeStats | src/main/resources/static/js/report.js:38-50 | statistics exist exactly when the revenue fold succeeds; then `totalProducts` is the item count, `totalSold` the plain sum of shipped quantities, `pendingOrders` the number of pending records and `totalRevenue` the matched-record sum |
| Report.EmptyExportsGiveZeros | src/main/resources/static/js/report.js:38-50 | with no export records, sold, pending and revenue are all 0 and products is the item count |
| Report.WorkedExample | src/main/resources/static/js/report.js:38-50 | one item at price 10 and two records (3 "Pending" of item 1, 5 "Shipped" of item 2) give 1, 8, 1 and 30 |
| Report.LoadReport | src/main/resources/static/js/report.js:18-60 | no user redirects; a missing or empty admin id stops the flow; statistics are shown exactly when both bodies arrive and the fold succeeds, and they are those of `ComputeStats` |
| Report.AdminIdGuardPrecedesFetch | src/main/resources/static/js/report.js:22-26 | without an admin id the outcome is the same whatever the requests would return |
| ImportExport.ImportRowFields | src/main/resources/static/js/import-export-detail.js:52-66 | an import row has 9 cells in the fixed field order; its numbers read back as the record's values; item name and vendor show "-" exactly when absent, empty or "-", and their values otherwise |
| ImportExport.ImportCells | src/main/resources/static/js/import-export-detail.js:55-63 | the nine texts of an import row; their order, values and fallbacks are stated by ImportRowFields |
| ImportExport.ExportRowFields | src/main/resources/static/js/import-export-detail.js:77-91 | the same for an export row, with customer and shipped quantity in place of vendor and received quantity, each shown when present and non-empty |
| ImportExport.ExportCells | src/main/resources/static/js/import-export-detail.js:80-88 | the nine texts of an export row; their order, values and fallbacks are stated by ExportRowFields |
| ImportExport.ImportsViewShape | src/main/resources/static/js/import-export-detail.js:45-67 | the imports body is the lone placeholder exactly when the list is empty; otherwise one row per record in input order; every row spans 9 columns |
| ImportExport.ImportsView | src/main/resources/static/js/import-export-detail.js:46-66 | the rows the imports body holds after rendering; its shape is stated by ImportsViewShape and RenderImports is proved to produce it |
| ImportExport.ExportsViewShape | src/main/resources/static/js/import-export-detail.js:70-92 | the same for the exports body |
| ImportExport.ExportsView | src/main/resources/static/js/import-export-detail.js:71-91 | the rows the exports body holds after rendering; its shape is stated by ExportsViewShape and RenderExports is proved to produce it |
| ImportExport.RenderImports | src/main/resources/static/js/import-export-detail.js:45-67 | after the call the body holds exactly the imports view, whatever it held before, so rendering twice equals rendering once |
| ImportExport.RenderExports | src/main/resources/static/js/import-export-detail.js:70-92 | after the call the body holds exactly the exports view, whatever it held before |
| ImportExport.RecordsOrEmpty | src/main/resources/static/js/import-export-detail.js:31 | a response that is not ok counts as no records; a rejected request counts as a failure; an ok response gives its body |
| ImportExport.LoadImportExportDetails | src/main/resources/static/js/import-export-detail.js:22-42 | no user changes nothing; a failed imports request alerts and changes nothing; otherwise imports are rendered (a not-ok response as the placeholder), then exports the same way |
| DocExport.ExportTable | src/main/resources/static/js/import-export-detail.js:149-190 | one row per source row and one cell per source cell with its text; row 0 bold with DDDDDD clear shading, other rows plain and unshaded; every cell size 28, margins 200 and single black size-1 borders on all sides |
| DocExport.BuildDocument | src/main/resources/static/js/import-export-detail.js:135-195 | one section of exactly two blocks: the title verbatim, bold, size 36 with 300 spacing after, then the styled table |
| DocExport.OnDownloadClick | src/main/resources/static/js/import-export-detail.js:205-213 | the imports button exports its table under the title "📥 Import Records" into imports.docx, the exports button under "📤 Export Records" into exports.docx |
| DocExport.ExportScenario | src/main/resources/static/js/import-export-detail.js:135-190 | a 2 x 3 table titled "Import Records" gives that title and a 2 x 3 table with a bold shaded first row and a plain second row |
| DocExport.TableToDocx | src/main/resources/static/js/import-export-detail.js:93-121 | shape and cell texts are preserved, and a cell is bold exactly when its row's parent is THEAD |
| DocExport.ExportersAgreeOnHeader | src/main/resources/static/js/import-export-detail.js:109 | when only row 0 sits in THEAD, both exporters give every cell the same text and boldness |
| Common.TrimStart | src/main/resources/static/js/product-details.js:78 | trimming the front drops exactly a run of white space and leaves a string not starting with white space |
| Common.TrimEnd | src/main/resources/static/js/product-details.js:78 | trimming the back drops exactly a run of white space and leaves a string not ending with white space |
| Common.TrimEmpty | src/main/resources/static/js/product-details.js:78-79 | a query trims to nothing exactly when every character is white space |
| Common.Trim | src/main/resources/static/js/product-details.js:78 | `trim` as TrimEnd after TrimStart; its ends and its empty case are stated by those two and TrimEmpty |
| Common.OrDashFallback | src/main/resources/static/js/product-details.js:33 | the dash fallback of an optional field shows "-" exactly for an absent value, the empty string or "-" itself, and the value otherwise |
| Common.OrDash | src/main/resources/static/js/product-details.js:33 | the dash fallback on an optional string; characterised by OrDashFallback |
| Common.Interpolated | src/main/resources/static/js/import-export-detail.js:63 | a template literal prints an absent status as "undefined" and a present one verbatim |
| Common.JoinEmpty | src/main/resources/static/js/product-details.js:37 | a join with ", " is empty exactly for no parts or a single empty part |
| Common.Join | src/main/resources/static/js/product-details.js:37 | `join`: the parts in order with the separator between them; its empty case is stated by JoinEmpty |
| Common.DecimalInjective | src/main/resources/static/js/product-details.js:40-41 | distinct integers print as distinct texts |
| Common.Decimal | src/main/resources/static/js/product-details.js:34-35 | `${n}` for a safe integer; DecimalRoundTrip reads it back |
| Common.DecimalRoundTrip | src/main/resources/static/js/import-export-detail.js:55 | the printed integer reads back as the number printed |
| ProductDetails.WarehousesFallback | src/main/resources/static/js/product-details.js:36-37 | the warehouse line is "-" exactly for an absent or empty list or one warehouse whose name is absent, empty or "-"; otherwise the names joined by ", " in order |
| ProductDetails.WarehousesText | src/main/resources/static/js/product-details.js:36-37 | the warehouse line; its fallback and join cases are stated by WarehousesFallback |
| ProductDetails.CardFields | src/main/resources/static/js/product-details.js:32-41 | the card shows the name verbatim, the description or "-", the price after "₹", and quantity and id that read back as the item's values |
| ProductDetails.CardOf | src/main/resources/static/js/product-details.js:31-42 | the card built for one item; its fields are stated by CardFields |
| ProductDetails.LinksIdentifyItem | src/main/resources/static/js/product-details.js:48-60 | the "Add Import" and "Add Export" links of two cards coincide exactly when the items' ids do |
| ProductDetails.ItemsView | src/main/resources/static/js/product-details.js:21-45 | the list is "No products found." exactly for no items; otherwise one card per item in order, card k carrying item k's id |
| ProductDetails.OkItems | src/main/resources/static/js/product-details.js:67-69 | items are loaded only from an ok response whose body parsed; anything else goes to the error path |
| ProductDetails.ProductPage.LoadItems | src/main/resources/static/js/product-details.js:21-45 | the list becomes exactly the items view, whatever it showed before |
| ProductDetails.ProductPage.OnContentLoaded | src/main/resources/static/js/product-details.js:3-74 | without a user only "⚠ Please login again." is shown and nothing else changes; with one, the user is stored, the items or the load error are shown, and search is installed |
| ProductDetails.ProductPage.SearchProducts | src/main/resources/static/js/product-details.js:77-91 | a query that trims to nothing changes nothing; otherwise the results replace the list or the search error is shown |

## Left out

- Signing in through the hosted identity provider, `fetch`, `res.json()`, `alert`, redirects and `console.error`: foreign calls and I/O. Their results are inputs (`Option<User>`, `Fetched<T>`) and their effects are outcome values (`LoginRedirect`, `LoadAlert`, `LoadFailed`).
- The document library's serialisation (`Packer.toBlob`), the object URL and the synthetic download link: a foreign library and a browser side effect. Only the document structure is modelled.
- HTML parsing and escaping of the `innerHTML` templates, `innerText` and the `table:nth-of-type` selectors: DOM behaviour. Cell texts and rows are given values.
- The report's `textContent` writes and `toFixed(2)`: floating-point formatting. Prices and quantities are integers; the `Stats` value is what would be written.
- JavaScript numbers are doubles; the model uses unbounded integers and so assumes every id, quantity, price and sum is a safe integer (magnitude below 2^53). Beyond that the source's values and `reduce` sums are rounded, and from 10^21 on numbers print in exponent form ("1e+21"); neither is modelled.
- Backend bodies whose JSON does not have the record shapes (a missing quantity, a non-array body, an absent price): dynamic typing that the record types rule out.
- `toLowerCase` is modelled on ASCII letters only. For the comparison with "pending" this is exact: no other code point lowercases to one of its letters alone.
- `encodeURIComponent` and the search URL, the click-listener wiring behind the card buttons (the links they navigate to are modelled), and the page animations: foreign calls and UI.
- Overlapping clicks or loads: the scripts have no coordination logic.
