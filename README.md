# Inventory dashboard: sales, invoices and their PDF, as a Dafny model

This project models the logic of a small React/Next.js shop console. The
console talks to a REST service at `http://localhost:8080/api/v1`. The model
covers its screens in these modules:

- **Sales** (`sales.dfy`) models the new-sale form: its editable line items
  (never fewer than one), the live subtotal, and the discounted total with
  no range check on the percentage. It also covers the checks made before
  a sale is posted, the customer search, and the summary cards (count,
  revenue, average, items sold).
- **InvoiceView** (`invoice_view.dfy`) models the invoice as the detail and
  print screens show it:
  - item rows named by the first product with the id, else "Unknown Product";
  - a summary that shows the stored totals and computes only the discount line;
  - the `INV-`/`Invoice #` labels from the first 8 characters of the id;
  - the print and download links;
  - the not-found redirect;
  - the print page, which schedules printing only once a sale is shown.
- **Pdf** (`pdf.dfy`) models the jsPDF document of `lib/pdf-utils.ts` as a
  class. The class holds the current font style, font size, text colour and
  fill colour, plus a log of draw commands. Every drawing step is a method
  call. The end of the autotable is an input. The layout is proved:
  - the header lies above the table;
  - the footer sits at fixed offsets below `finalY = tableEnd + 10`, in
    non-decreasing order;
  - amounts are right-aligned at x = 170;
  - PAID is white, size 8, inside the green badge;
  - the text colour is black again before the notes.
- **PdfGenerator** (`pdf_generator.dfy`) models the download page. It builds
  the id-to-name record with a loop, where the last product under an id
  wins. Row names use `productMap[id] || "Unknown Product"`. The page draws
  the same invoice, saves it as `invoice-<8 chars>.pdf`, and saves nothing
  for an unknown id or when jsPDF throws. Lemmas show where its names agree with the screens
  (unique ids, non-empty names) and give inputs where they differ.
- **InvoicesList** (`invoices_list.dfy`) models the invoice list: search on
  customer id or sale id, and one row per sale with amount, status "Paid"
  and action links.
- **Inventory** (`inventory.dfy`) models the product list:
  - name search and category filter address;
  - delete, update and create list updates;
  - the product form, its request, and the edit-then-save round trip.
- **Categories** (`categories.dfy`) models the category list: name search,
  the form, and the delete guard that refuses a category still holding
  products.
- **AuthGuard** (`auth_guard.dfy`) models the redirect/render decision.
- **Sidebar** (`sidebar.dfy`) models the five routes, their active flags
  and the mobile visibility rule.
- **Common** and **Catalog** hold the shared pieces:
  - the ASCII `toLowerCase` and `includes`;
  - `filter`/`find`/`findIndex`/`reduce` on sequences;
  - the records the service returns and the lookups by id.

Money is `real`, and quantities and stock are `int`. Every network request is
a parameter: the data received, or `None` for a request or parse that
failed. A toast is recorded by its title, in a `toasts` log on most pages; the sales page keeps no toast log, and `Sales.SalesPage.HandleSubmit` returns a `SubmitOutcome` instead (the validation error, or the request sent and whether the service accepted it), which decides the toast shown. A navigation or opened tab is
recorded as an `Effect` value.

Two behaviours one might expect are absent from the code, and the model
follows the code:

- **Date-range classification of invoices.** The code has none: the
  invoice list filters by text only.
- **Discount limited to 0-100.** The code never range-checks the discount;
  `Sales.FinalAmount` states what an out-of-range percentage gives.

## Model

| member | source | states |
|---|---|---|
| Common.IncludesIsInfix | components/sales/sales-content.tsx:231 | `includes` as written (scan left to right) is true exactly when the term occurs at some position |
| Common.LowerIdempotent | components/sales/sales-content.tsx:231 | lower-casing twice is lower-casing once |
| Common.Take | components/invoices/invoice-detail.tsx:130 | `substring(0, n)` is a prefix of length min(n, length) |
| Common.Filter | components/invoices/invoices-content.tsx:77-81 | `filter` keeps exactly the elements that pass the test |
| Common.FilterIsSubsequence | components/invoices/invoices-content.tsx:77-81 | `filter` only drops elements and keeps the order of the rest |
| Common.FilterCount | components/inventory/inventory-content.tsx:147 | a kept value keeps all its occurrences and a rejected one loses all of them |
| Common.Find | components/sales/sales-content.tsx:100 | `find` returns the first element that passes the test, and None exactly when none does |
| Common.FirstIndex | components/inventory/inventory-content.tsx:249 | the index found is the first one that passes the test |
| Common.SumByPermutation | components/sales/sales-content.tsx:133-137 | a reduce-to-sum does not depend on the order of the elements |
| Common.FilterSumInt | components/categories/categories-content.tsx:156 | dropping only zero-weight elements leaves an integer sum unchanged |
| Catalog.FindSale | components/invoices/invoice-detail.tsx:58 | the sale found is the first one carrying the id; None exactly when no sale carries it |
| Catalog.ProductName | components/sales/sales-content.tsx:226-229 | the name of the first product with the id (even an empty name), "Unknown Product" when none has it |
| Sales.SubtotalEmpty | components/sales/sales-content.tsx:133-137 | the subtotal of no lines is 0 |
| Sales.SubtotalAppend | components/sales/sales-content.tsx:133-137 | adding a line adds exactly price x quantity |
| Sales.SubtotalOrderIndependent | components/sales/sales-content.tsx:133-137 | reordering the lines does not change the subtotal |
| Sales.DiscountOrZero | components/sales/sales-content.tsx:141 | a NaN parse gives 0; any other value is used as is |
| Sales.ScaleBounds | components/sales/sales-content.tsx:139-143 | scaling an amount by a factor below 0 makes it negative, above 1 enlarges it, within [0, 1] keeps it within [0, amount] |
| Sales.FinalAmount | components/sales/sales-content.tsx:139-143 | total x (1 - d/100); no discount or 0% gives the total, 100% gives 0, 0-100% stays in [0, total], above 100% is negative, below 0% exceeds the total |
| Sales.ExampleSale | components/sales/sales-content.tsx:133-143 | 2 x 10.00 + 1 x 5.50 at 10% gives 25.50, 2.55 off, 22.95 |
| Sales.QuantityOrOne | components/sales/sales-content.tsx:116 | the quantity is never 0: a NaN or 0 parse gives 1, any other value is kept |
| Sales.Validate | components/sales/sales-content.tsx:149-165 | a sale may be posted exactly when the customer id is set and every line has a product; a missing customer is reported first |
| Sales.FilteredSales | components/sales/sales-content.tsx:231 | keeps exactly the sales whose customer id contains the term, ignoring case |
| Sales.FilteredSalesEmptyTerm | components/sales/sales-content.tsx:231 | an empty term keeps every sale |
| Sales.FilteredSalesKeepsOrder | components/sales/sales-content.tsx:231 | the search keeps the order of the sales |
| Sales.TotalRevenueAppend | components/sales/sales-content.tsx:425 | each sale adds its undiscounted totalAmount to Total Revenue |
| Sales.AverageSale | components/sales/sales-content.tsx:436 | the average times the count is the revenue |
| Sales.ItemsSoldAppend | components/sales/sales-content.tsx:447-450 | each sale adds the quantities of all its lines |
| Sales.ItemsSoldSplit | components/sales/sales-content.tsx:447-450 | Items Sold over two lists is the sum over each |
| Sales.SummaryCards | components/sales/sales-content.tsx:408-450 | the cards show only when the search lists some sale, and then give its count, revenue, average and items sold |
| Sales.SalesPage.constructor | components/sales/sales-content.tsx:53-66 | the form starts with one blank line, "Credit Card", discount 0 |
| Sales.SalesPage.Receive | components/sales/sales-content.tsx:68-89 | the fetch sets the sales and products and nothing else |
| Sales.SalesPage.ResetForm | components/sales/sales-content.tsx:91-97 | the five form fields go back to their initial values; the list stays |
| Sales.SalesPage.HandleProductChange | components/sales/sales-content.tsx:99-110 | only line i changes: its product and that product's price (0 if none); its quantity stays |
| Sales.SalesPage.HandleQuantityChange | components/sales/sales-content.tsx:112-119 | only line i changes, and only its quantity, to the parse or 1 |
| Sales.SalesPage.AddSaleItem | components/sales/sales-content.tsx:121-123 | appends one blank line |
| Sales.SalesPage.RemoveSaleItem | components/sales/sales-content.tsx:125-131 | removes exactly line i, keeping order, unless it is the only line; the form never has fewer than one line |
| Sales.SalesPage.HandleSubmit | components/sales/sales-content.tsx:145-219 | a refused form sends nothing and changes nothing; otherwise the request carries the form; on success the sale is appended and the form reset (newSaleId cleared again) |
| InvoiceView.Rows | components/invoices/invoice-detail.tsx:192-199 | one row per line, in order: name by the lookup, quantity, unit price, quantity x price (the line total `Sales.LineAmount` of the form) |
| InvoiceView.RowAmountsAddUpToSubtotal | components/invoices/invoice-print.tsx:142-149 | the Amount column adds up to the form's subtotal of the same lines |
| InvoiceView.SummaryOf | components/invoices/invoice-detail.tsx:208-218 | Subtotal and Total are the stored amounts; Discount is totalAmount x pct/100, within [0, subtotal] for 0-100% |
| InvoiceView.SummaryAgreesWithForm | components/invoices/invoice-print.tsx:157-169 | when the stored final amount is the form's, Subtotal - Discount = Total |
| InvoiceView.InvoiceNumber | components/invoices/invoice-detail.tsx:150 | "INV-" followed by the first 8 characters of the id (all of it when shorter) |
| InvoiceView.InvoiceHeading | components/invoices/invoice-detail.tsx:130 | "Invoice #" followed by the first 8 characters of the id (all of it when shorter) |
| InvoiceView.ViewUrl | components/invoices/invoices-content.tsx:139 | `/invoices/` followed by the id |
| InvoiceView.PrintUrl | components/invoices/invoice-detail.tsx:102 | the view address followed by `/print` |
| InvoiceView.DownloadUrl | components/invoices/invoice-detail.tsx:110 | the view address followed by `/download` |
| InvoiceView.UrlsIdentifyInvoice | components/invoices/invoice-detail.tsx:102-110 | print and download links determine the id and never coincide |
| InvoiceView.DetailLoad | components/invoices/invoice-detail.tsx:45-85 | the first sale carrying the id is kept, and a sale is kept exactly when one carries it; otherwise a "not found" toast and navigation to `/invoices`; a failed fetch only toasts "Error" |
| InvoiceView.DetailOutcome | components/invoices/invoice-detail.tsx:113-119 | after loading, "Invoice not found" shows exactly when no sale carries the id, after the redirect; a found invoice shows the stored total |
| InvoiceView.HandlePrint | components/invoices/invoice-detail.tsx:97-103 | toasts, then opens the print address |
| InvoiceView.HandleDownload | components/invoices/invoice-detail.tsx:105-111 | toasts, then opens the download address |
| InvoiceView.InvoicePrintPage.constructor | components/invoices/invoice-print.tsx:30-35 | no sale, no products, loading |
| InvoiceView.InvoicePrintPage.PrintEffect | components/invoices/invoice-print.tsx:67-74 | schedules a print exactly when a sale is set and loading is over |
| InvoiceView.InvoicePrintPage.Load | components/invoices/invoice-print.tsx:37-65 | stores the sale only when one carries the id, ends loading, then runs the print effect |
| InvoiceView.OpenPrintPage | components/invoices/invoice-print.tsx:37-92 | one print for a known id and none for an unknown one, which renders "Invoice not found" |
| Pdf.PdfDoc.constructor | lib/pdf-utils.ts:32 | a new document: normal, size 16, black, nothing drawn |
| Pdf.PdfDoc.SetFontSize | lib/pdf-utils.ts:35 | sets the size used by later texts |
| Pdf.PdfDoc.SetFont | lib/pdf-utils.ts:36 | sets the style used by later texts |
| Pdf.PdfDoc.SetTextColor | lib/pdf-utils.ts:111 | sets the colour of later texts |
| Pdf.PdfDoc.SetFillColor | lib/pdf-utils.ts:109 | sets the colour of later filled rectangles |
| Pdf.PdfDoc.Text | lib/pdf-utils.ts:37 | appends a text in the current style, size and colour |
| Pdf.PdfDoc.Line | lib/pdf-utils.ts:102 | appends a rule |
| Pdf.PdfDoc.FilledRect | lib/pdf-utils.ts:110 | appends a rectangle in the current fill colour |
| Pdf.PdfDoc.AutoTable | lib/pdf-utils.ts:83-93 | appends the table and records where it ended |
| Pdf.PdfDoc.Save | components/invoices/invoice-pdf-generator.tsx:212 | records the file name |
| Pdf.HeaderCommands | lib/pdf-utils.ts:35-71 | 13 black texts at 20 <= y <= 55; only the 4 company lines are right-aligned, at x = 150; the second text is the INV- number |
| Pdf.FooterCommands | lib/pdf-utils.ts:93-127 | offsets 0, 0, 5, 5, 7, 12, 12, 15, 20, 30, 35 from finalY, non-decreasing; amounts right-aligned at 170; the discount line is totalAmount x pct/100; Total label and the stored finalAmount are bold; PAID is white, size 8, centred at 150 inside the green badge; every other text black; Notes bold, its body normal |
| Pdf.InvoiceCommands | lib/pdf-utils.ts:35-127 | header, then the table at y = 65, then the footer; the header lies above the table and the footer below the table's end |
| Pdf.DrawTitle | lib/pdf-utils.ts:35-41 | draws the title block, leaving size 10, normal |
| Pdf.DrawCompany | lib/pdf-utils.ts:44-50 | draws the company block |
| Pdf.DrawBillTo | lib/pdf-utils.ts:53-58 | draws the bill-to block |
| Pdf.DrawLabelled | lib/pdf-utils.ts:61-71 | draws a bold caption over a normal value (date, payment method) |
| Pdf.DrawHeader | lib/pdf-utils.ts:35-71 | the calls draw exactly the header commands and leave size 10, normal |
| Pdf.DrawSummary | lib/pdf-utils.ts:96-106 | draws Subtotal, Discount, the rule and a bold Total |
| Pdf.DrawStatus | lib/pdf-utils.ts:109-116 | draws the badge and PAID, then resets the text colour to black |
| Pdf.DrawNotes | lib/pdf-utils.ts:119-127 | draws the notes heading and body |
| Pdf.DrawFooter | lib/pdf-utils.ts:93-127 | the calls draw exactly the footer commands at finalY = table end + 10 |
| Pdf.GenerateInvoicePdf | lib/pdf-utils.ts:31-130 | a fresh document holding exactly the invoice drawing, rows named by the callback alone (the product list is never read), not saved |
| PdfGenerator.NameMap | components/invoices/invoice-pdf-generator.tsx:68-71 | the record has exactly the product ids as keys, each mapped to the name of a product with that id |
| PdfGenerator.NameMapLastWins | components/invoices/invoice-pdf-generator.tsx:68-71 | with duplicate ids, the last product under an id wins |
| PdfGenerator.BuildProductNameMap | components/invoices/invoice-pdf-generator.tsx:68-71 | the forEach loop builds that record |
| PdfGenerator.PdfRowName | components/invoices/invoice-pdf-generator.tsx:150 | never empty: a missing id and an empty name both give "Unknown Product" |
| PdfGenerator.LookupsAgree | components/invoices/invoice-pdf-generator.tsx:150 | with unique ids and non-empty names the download names a product as the screens do |
| PdfGenerator.RowsAgree | components/invoices/invoice-pdf-generator.tsx:147-160 | with unique ids and non-empty names the PDF rows are the screens' rows |
| PdfGenerator.EmptyNameDiffers | components/invoices/invoice-pdf-generator.tsx:150 | an empty product name shows empty on screen and as "Unknown Product" in the PDF |
| PdfGenerator.DuplicateIdDiffers | components/invoices/invoice-pdf-generator.tsx:68-71 | under a duplicated id the screens show the first product, the PDF the last |
| PdfGenerator.FileName | components/invoices/invoice-pdf-generator.tsx:212 | `invoice-` + the same id prefix as the INV- number + `.pdf` |
| PdfGenerator.GeneratePdf | components/invoices/invoice-pdf-generator.tsx:102-212 | a fresh document holding the invoice drawing with record-named rows, saved under the file name |
| PdfGenerator.InvoiceDownloadPage.constructor | components/invoices/invoice-pdf-generator.tsx:37-40 | nothing loaded, loading |
| PdfGenerator.InvoiceDownloadPage.FetchData | components/invoices/invoice-pdf-generator.tsx:42-225 | a failed fetch toasts "Error"; an unknown id toasts "Invoice not found" and saves nothing; a known id stores the data and saves one file with the invoice, or, when jsPDF throws, saves nothing and toasts "Error" |
| PdfGenerator.OpenDownloadPage | components/invoices/invoice-pdf-generator.tsx:42-244 | one file exactly for a known id when jsPDF does not throw, named after it and holding its invoice; "PDF Generated" shows for every known id, "Invoice not found" otherwise |
| InvoicesList.FilteredInvoices | components/invoices/invoices-content.tsx:77-81 | keeps exactly the sales whose customer id or sale id contains the term, ignoring case |
| InvoicesList.FilteredInvoicesCount | components/invoices/invoices-content.tsx:77-81 | a listed sale keeps all its occurrences, another loses all |
| InvoicesList.FilteredInvoicesEmptyTerm | components/invoices/invoices-content.tsx:77-81 | an empty term lists every sale |
| InvoicesList.FilteredInvoicesKeepsOrder | components/invoices/invoices-content.tsx:77-81 | the search keeps the order |
| InvoicesList.InvoiceSearchWidensSalesSearch | components/invoices/invoices-content.tsx:77-81 | lists everything the sales page's search lists, and the same when no sale id matches |
| InvoicesList.ListRows | components/invoices/invoices-content.tsx:126-175 | one row per sale, in order: INV- number, customer id, creation date (unformatted), totalAmount, "Paid", view link, print and download actions |
| InvoicesList.ListAmountsAreRevenue | components/invoices/invoices-content.tsx:131 | the Amount column adds up to the sales page's Total Revenue |
| InvoicesList.ListSales | components/invoices/invoices-content.tsx:44-65 | a failed fetch leaves the empty list |
| InvoicesList.ListScreenOf | components/invoices/invoices-content.tsx:83-126 | loading, "No invoices found" exactly when the search lists nothing, else exactly the rows of the listed sales, in order |
| InvoicesList.FailedFetchShowsNoInvoices | components/invoices/invoices-content.tsx:119-124 | after a failed fetch the list says "No invoices found" |
| Inventory.FilteredProducts | components/inventory/inventory-content.tsx:246 | keeps exactly the products whose name contains the term, ignoring case |
| Inventory.FilteredProductsEmptyTerm | components/inventory/inventory-content.tsx:246 | an empty term keeps every product |
| Inventory.FilteredProductsKeepsOrder | components/inventory/inventory-content.tsx:246 | the search keeps the order |
| Inventory.FilteredProductsIgnoresCase | components/inventory/inventory-content.tsx:246 | a lower-cased term finds the same products |
| Inventory.CategoryName | components/inventory/inventory-content.tsx:248-251 | the first category with the id names it, else "Unknown" |
| Inventory.ProductsUrl | components/inventory/inventory-content.tsx:82-86 | "all" reads `/products`, any other id `/products/category/<id>` |
| Inventory.ProductsUrlInjective | components/inventory/inventory-content.tsx:82-86 | different selections read different addresses |
| Inventory.RemoveProduct | components/inventory/inventory-content.tsx:147 | no product with the id remains; every other product is kept |
| Inventory.RemoveProductExact | components/inventory/inventory-content.tsx:147 | every other product keeps its multiplicity and the order is kept |
| Inventory.ReplaceProduct | components/inventory/inventory-content.tsx:204 | same length; positions with the id hold the returned product, all others are untouched |
| Inventory.ReplaceProductKeepsIds | components/inventory/inventory-content.tsx:204 | when the service keeps the id, no id changes and a repeated update changes nothing |
| Inventory.RemoveAfterReplace | components/inventory/inventory-content.tsx:147-204 | deleting after an update leaves what the delete alone leaves |
| Inventory.ParseNumber | components/inventory/inventory-content.tsx:172-174 | a number the form printed reads back as itself; typed text goes through the field's parser |
| Inventory.SubmitRequest | components/inventory/inventory-content.tsx:170-198 | PUT to the edited product's address or POST to `/products`, carrying the form's fields, the price read by `parseFloat` and the stock by `parseInt` |
| Inventory.EditThenSaveSendsProduct | components/inventory/inventory-content.tsx:128-198 | opening a product for edit and saving unchanged sends the product back as it is |
| Inventory.InventoryPage.constructor | components/inventory/inventory-content.tsx:40-52 | empty lists, loading, "all", empty form |
| Inventory.InventoryPage.FetchData | components/inventory/inventory-content.tsx:56-77 | the lists are replaced on success and kept on failure; loading ends |
| Inventory.InventoryPage.FetchProductsByCategory | components/inventory/inventory-content.tsx:79-101 | reads the address for the selection; a failure keeps the list and toasts "Error" |
| Inventory.InventoryPage.HandleCategoryChange | components/inventory/inventory-content.tsx:103-106 | records the selection, then fetches it: loading ends, success replaces the list without a toast, failure keeps it and toasts "Error" |
| Inventory.InventoryPage.HandleInputChange | components/inventory/inventory-content.tsx:108-111 | only the named field changes |
| Inventory.InventoryPage.HandleSelectChange | components/inventory/inventory-content.tsx:113-115 | only the category field changes |
| Inventory.InventoryPage.ResetForm | components/inventory/inventory-content.tsx:117-126 | clears the five fields and the product being edited |
| Inventory.InventoryPage.HandleEdit | components/inventory/inventory-content.tsx:128-137 | the form takes the product's fields, its numbers printed |
| Inventory.InventoryPage.HandleDelete | components/inventory/inventory-content.tsx:139-164 | nothing without confirmation; the product leaves the list only when the service accepted |
| Inventory.InventoryPage.HandleSubmit | components/inventory/inventory-content.tsx:166-244 | on success replace (edit) or append (create), reset, and refetch a selected category; on failure nothing changes but an "Error" toast |
| Categories.FilteredCategories | components/categories/categories-content.tsx:175-177 | keeps exactly the categories whose name contains the term, ignoring case |
| Categories.FilteredCategoriesEmptyTerm | components/categories/categories-content.tsx:175-177 | an empty term keeps every category |
| Categories.FilteredCategoriesKeepsOrder | components/categories/categories-content.tsx:175-177 | the search keeps the order |
| Categories.DeleteBlocked | components/categories/categories-content.tsx:139-147 | blocked exactly when the first category with the id holds products; an unknown id passes |
| Categories.RemoveCategory | components/categories/categories-content.tsx:156 | no category with the id remains; every other one is kept |
| Categories.RemoveCategoryExact | components/categories/categories-content.tsx:156 | every other category keeps its multiplicity and the order is kept |
| Categories.GuardedDeleteKeepsProducts | components/categories/categories-content.tsx:137-173 | with unique ids a delete the guard lets through loses no product |
| Categories.DuplicateIdPassesGuard | components/categories/categories-content.tsx:139-156 | with a duplicated id an empty first category lets the delete through and a full one is removed with it |
| Categories.SubmitRequest | components/categories/categories-content.tsx:77-101 | PUT to the edited category's address or POST to `/categories`, carrying the name |
| Categories.CategoriesPage.constructor | components/categories/categories-content.tsx:39-43 | empty list, loading, empty form |
| Categories.CategoriesPage.FetchCategories | components/categories/categories-content.tsx:51-61 | replaced on success, kept on failure; loading ends |
| Categories.CategoriesPage.HandleEdit | components/categories/categories-content.tsx:63-66 | the form takes the category's name |
| Categories.CategoriesPage.ResetForm | components/categories/categories-content.tsx:68-71 | clears the name and the category being edited |
| Categories.CategoriesPage.HandleSubmit | components/categories/categories-content.tsx:73-135 | on success refetch, reset, and toast what was done before the reset; on failure toast "Error" and keep the form |
| Categories.CategoriesPage.HandleDelete | components/categories/categories-content.tsx:137-173 | Blocked exactly when the guard holds, with no request; Deleted exactly when confirmed and accepted; the list changes only on Deleted |
| AuthGuard.Guard | components/auth/auth-guard.tsx:9-29 | unauthenticated off a public path: to `/login`, nothing rendered; authenticated on a public path: to `/`, rendered; otherwise no redirect, rendered |
| AuthGuard.GuardSettles | components/auth/auth-guard.tsx:16-22 | never redirects to the current path, and the target does not redirect again |
| Sidebar.Routes | components/sidebar.tsx:14-45 | five routes in order; Invoices active on any path starting with `/invoices`, the others on their exact path |
| Sidebar.AtMostOneActive | components/sidebar.tsx:14-45 | at most one route is active |
| Sidebar.EveryPageHighlightsItsRoute | components/sidebar.tsx:19-43 | each route's own page, and every invoice page, highlights it |
| Sidebar.Render | components/sidebar.tsx:47-57 | nothing exactly when mobile and closed; otherwise slid in when open, overlaying on mobile |

## Left out

- Network requests and JSON parsing are not modelled. Each request is a parameter: its data, or None for a failure (a thrown error or unparsable JSON). Only the writes test `response.ok`, and for them a not-ok status is a failure too. The GETs never test it. A GET that returns a not-ok status with a parseable JSON body would store that body as data, and this case is not modelled. The REST service is not part of this model.
- Toast descriptions and variants are left out; only the title is recorded. `router.push` and `window.open` are recorded as effect values, and `window.print` as a counter. Clicks on the dialog-close buttons are not modelled.
- The `setTimeout` delays are not modelled: 500 ms before the PDF, 1000 ms before printing. The page states between the data arriving and the timer firing are not modelled either.
- `toFixed(2)`, `toLocaleDateString`/`toLocaleTimeString`, `parseInt` and `parseFloat` of typed text are not modelled. A PDF text holding an amount or a date keeps the value (`Dollars`, `LocalDate`), not its formatted string. A parse is an `Option` input, with None for NaN.
- Floating-point rounding is not modelled: amounts are exact reals. JavaScript numbers are IEEE-754 doubles; their finite range, and the fact that integers are exact only up to 2^53, are not modelled either.
- `toLowerCase` maps only ASCII letters; Unicode case mapping is not modelled.
- Strings are sequences of Unicode scalar values. JavaScript's `substring`, `includes` and `toLowerCase` count UTF-16 code units, so an id holding a character outside the Basic Multilingual Plane would get a different 8-unit prefix. Such ids are not modelled.
- jsPDF and autotable internals are not modelled: glyph metrics, table pagination, cell styles and the grid theme. The table's end position is an input.
- The product-name record is a Dafny map. Keys a plain JavaScript object inherits (such as `constructor`) are not modelled.
- The dashboard charts, the sidebar provider, the layouts, the page wrappers and the login/register pages are not part of this model.
- The loading flag of the sales page, and the search-term inputs, are not modelled as state changes. The search term is a parameter of the filters.
- Sales.SalesPage.HandleProductChange: requires an index inside the form. The screen only passes the index of a rendered line. An index beyond the end would make JavaScript grow a sparse array, and that is not modelled.
- Sales.SalesPage.HandleQuantityChange: requires an index inside the form, for the same reason.
- Inventory.ParseNumber: assumes that `parseFloat`/`parseInt` of a number printed by `toString` gives the number back. This holds for the finite prices and integer stocks the form shows. Typed text is read by a parser given as a parameter: `parseFloat` for the price and `parseInt` for the stock. Their JavaScript definitions (prefix reading, truncation, exponents) are not modelled.
- Inventory.InventoryPage.HandleSubmit: the refetch after a save is returned as the selection to fetch. The fetch itself is a separate call of FetchProductsByCategory.
- Categories.CategoriesPage.HandleSubmit: the refetch after a save is returned as a flag. The fetch itself is a separate call of FetchCategories.
- Categories.CategoriesPage.HandleDelete, Inventory.InventoryPage.HandleDelete, Inventory.InventoryPage.HandleSubmit and Sales.SalesPage.HandleSubmit are each one atomic step on the state current at the call. Two things are not modelled:
  - The source computes the new list after an `await`, from the list its closure captured at render time, so a stale-closure write can undo another update.
  - The source does not await its refetches, so overlapping requests can land in any order, and the later `set…` overwrites the other. For example, a category delete that returns after a create and its refetch drops the new category from the screen.
