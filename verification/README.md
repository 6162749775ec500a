# Business rules of a small-shop management app, in Dafny

The application keeps products, stock movements, sales and expenses for a
small shop. It is a set of web pages over a hosted SQL store. This project
models the rules its pages apply before they write to the store, and the
figures they compute from what they read:

- **Stock movements** (`StockMovements`). Three handlers accept or refuse a
  movement before it is written:
  - the stand-alone movement form checks required fields, then a positive
    quantity, then stock for an outbound movement (`saida`);
  - the stock page's dialog checks stock only;
  - the edit action checks a changed movement with an "undo the old
    movement, apply the new one" formula.
- **Sales** (`SaleForm`). The new-sale dialog edits a list of lines and
  keeps each line's subtotal and the sale total up to date. It refuses an
  empty sale and any line asking for more than its product's stock. It then
  writes one sale row and one item row per line.
- **Monthly reporting** (`Reporting`). The dashboard and the annual report
  fold sales (with the cost prices of their items) and expenses into twelve
  month buckets. Each bucket has revenue, cost, expense, profit and gross
  margin. The pages then take totals and margins over the buckets. The
  dashboard keeps only the selected year; the report buckets by month alone.
- **Product deletion and the product form** (`Products`). Before deleting a
  product, the page looks for sale items and movements that refer to it,
  and blocks the delete with a message if there are any. The store's
  foreign-key error blocks it the same way. A successful delete drops the
  product from the page's list. The product form writes an update or an
  insert: an update never writes the stock column, and an insert writes a
  stock of 0.
- **List filters and totals** (`ListFilters`). The stock page filters
  movements by a search term and a type. The expenses page filters by
  description, totals what it shows, and drops a deleted expense.

Supporting modules:
- `Domain`: the records and `FindProduct`;
- `Seqs`: sums and filters over sequences;
- `Text`: ASCII lower-casing, substring search, white-space trimming.

Modelling conventions:
- Money is in integer cents and margins are `real` percentages.
- A date is reduced to its year and month.
- The store is never called. What a page read is an input (a snapshot of
  products, the rows a lookup returned, `None` when a lookup failed). What
  it would write is the result (the row to insert, the page state after
  the response).

Two behaviours of the code a reader may not expect:
- A sale's stock check looks at each line on its own. Two lines for the same
  product are not added up (`SaleForm.SharedProductCheckedPerLine`).
- The edit formula for a movement is exactly "undo the original, apply the
  new `saida`" for both original types (`StockMovements.EditAllowanceIsUndoThenApply`).
  What it misses is an `entrada` edited down; see Findings.

## Model

| member | source | states |
|---|---|---|
| Domain.FindProduct | components/vendas/venda-form.tsx:114 | The lookup returns a product of that id from the snapshot, and returns nothing exactly when no product has that id. |
| Domain.FindProductFirst | components/estoque/movimentacao-form.tsx:72 | When several products share the id, the first one in the snapshot is the one found. |
| StockMovements.ManualReason | components/estoque/nova-movimentacao-form.tsx:76 | The reason stored by the stand-alone form is "Entrada manual de estoque" exactly for an `entrada` and "Saída manual de estoque" exactly for a `saida`. |
| StockMovements.ValidateNewMovement | components/estoque/nova-movimentacao-form.tsx:90-123 | Missing fields are refused exactly when a field is empty. A non-positive quantity is refused exactly when the fields are filled and the quantity is at most 0. Insufficient stock is refused exactly for a positive `saida` of a known product that would take the stock below 0, and reports that stock. An accepted movement is inserted with the form's values and the manual reason. |
| StockMovements.NewMovementStockBoundary | components/estoque/nova-movimentacao-form.tsx:113-123 | A filled `entrada` is never refused for stock. A `saida` of exactly the stock on hand is accepted. A product missing from the snapshot is not checked. |
| StockMovements.AfterNewMovementSubmit | components/estoque/nova-movimentacao-form.tsx:134-139 | The form is cleared only after an accepted and saved movement; a refusal or a failed save keeps it as typed. |
| StockMovements.SubmitMovementDialog | components/estoque/movimentacao-form.tsx:66-91 | The dialog refuses exactly a `saida` of a known product that would take the stock below 0. Otherwise it inserts the typed product, type and quantity, with an empty reason stored as null and any other reason verbatim. |
| StockMovements.EditMovement | components/estoque/movimentacao-actions.tsx:85-147 | A non-positive quantity is refused exactly when it is at most 0. A positive edit is refused exactly when it is a `saida`, the stock is known, and undoing the original and applying the new movement gives less than 0. An accepted edit changes only quantity and type. |
| StockMovements.EditAllowance | components/estoque/movimentacao-actions.tsx:111-114 | The handler's bound is the stock as it would be without the original movement: applying the original again gives back the loaded stock. |
| StockMovements.EditAllowanceIsUndoThenApply | components/estoque/movimentacao-actions.tsx:110-115 | The handler's bound is crossed exactly when undoing the original and applying the new `saida` would take the stock below 0, for either original type. |
| StockMovements.EditMovementGuarded | components/estoque/movimentacao-actions.tsx:103-124 | The corrected edit check: a positive edit of either new type is refused exactly when the stock is known and undoing the original and applying the edit gives less than 0, so an accepted edit never goes below 0. It agrees with the handler on every `saida` and on every edit it accepts. |
| StockMovements.EditEntradaCanDriveStockNegative | components/estoque/movimentacao-actions.tsx:103 | An `entrada` of 10, with 5 units on hand, edited down to 1 is accepted by the handler although the stock then nets to -4; the corrected check refuses it. |
| SaleForm.TotalOfConsistentItems | components/vendas/venda-form.tsx:98 | When every line's subtotal is quantity times unit price, the total is the sum of quantity times unit price. |
| SaleForm.Total | components/vendas/venda-form.tsx:98 | `valorTotal` is 0 with no lines, and with no negative subtotal it is at least every line's subtotal and never negative. |
| SaleForm.AddItem | components/vendas/venda-form.tsx:65-75 | Adding a line appends one blank line (no product, quantity 1, price 0) and keeps every earlier line. |
| SaleForm.AddItemKeepsTotal | components/vendas/venda-form.tsx:65-75 | Adding a line leaves the total unchanged and keeps every line consistent. |
| SaleForm.RemoveItem | components/vendas/venda-form.tsx:77-79 | Removing a line drops exactly the line at that index and shifts the later ones down by one; an index outside the list removes nothing. Consistent lines stay consistent. |
| SaleForm.RemoveItemTotal | components/vendas/venda-form.tsx:77-79 | Removing a line takes exactly its subtotal off the total. |
| SaleForm.UpdateItem | components/vendas/venda-form.tsx:81-96 | Only the edited line changes. Setting the quantity or the unit price changes that field and sets the subtotal to the new quantity times the line's price (or the line's quantity times the new price); product id and the other field are kept. Choosing a known product sets its id and sale price and the subtotal to quantity times that price. Choosing an unknown id changes only the id. |
| SaleForm.UpdateItemKeepsTotalsRight | components/vendas/venda-form.tsx:81-98 | Every edit moves the total by exactly the change in the edited line's subtotal and keeps all lines consistent. |
| SaleForm.ItemRows | components/vendas/venda-form.tsx:144-150 | One item row per line, in line order, each carrying the new sale's id and that line's product, quantity, price and subtotal. |
| SaleForm.FirstShortage | components/vendas/venda-form.tsx:113-123 | The stock loop finds nothing exactly when every line fits its product's stock; otherwise it returns the first line that does not fit. |
| SaleForm.SubmitSale | components/vendas/venda-form.tsx:103-150 | An empty sale is refused and is the only case with that error. The sale is written exactly when it has lines and every line fits. A stock refusal names the product of the first line that does not fit. The written rows carry the date, the payment method, the total of the lines, and one item row per line. |
| SaleForm.SharedProductCheckedPerLine | components/vendas/venda-form.tsx:113-123 | Two lines of one product, each within its stock alone, pass the check although together they exceed it. |
| Reporting.ItemCost | app/page.tsx:205-208 | An item's cost is quantity times its product's cost price, or 0 when the cost price is missing. |
| Reporting.SaleCost | app/page.tsx:204-208 | A sale without items costs 0, and with no negative item cost the sale's cost is at least every item's cost and never negative. |
| Reporting.SaleCostAddItem | app/page.tsx:204-208 | The per-item loop adds up: one more item raises the sale's cost by exactly that item's cost, and an item with no cost price adds nothing. |
| Reporting.MonthSumAppend | app/page.tsx:197-218 | One more record raises a bucket's sum by its value exactly when its date falls in that bucket, and leaves the sum unchanged otherwise. |
| Reporting.MonthsPartitionScope | app/page.tsx:187-232 | Adding up the twelve month sums counts each record in scope exactly once. |
| Reporting.Margin | app/page.tsx:222 | The margin times the revenue is the base times 100 when the revenue is positive, and the margin is 0 otherwise. |
| Reporting.MarginBounds | app/relatorios/page.tsx:95 | With positive revenue and non-negative cost the gross margin is at most 100, and it is negative exactly when the cost exceeds the revenue. |
| Reporting.MonthBucket | app/page.tsx:189-232 | The bucket of a month carries that month's label. Its revenue, cost and expense are the sums over the records dated in that month and scope. Its profit is revenue minus cost minus expense, and its margin is the gross margin of its own revenue and cost. |
| Reporting.BucketAddSale | app/page.tsx:197-208 | One more sale raises a bucket's revenue and cost by the sale's total and cost, and leaves its expense, exactly when the sale is dated in that bucket; otherwise the bucket is unchanged. |
| Reporting.BucketAddExpense | app/page.tsx:214-218 | One more expense raises a bucket's expense by its amount, and leaves revenue and cost, exactly when it is dated in that bucket; otherwise the bucket is unchanged. |
| Reporting.MonthlyBuckets | app/relatorios/page.tsx:60-105 | Twelve buckets labelled Jan to Dez. Bucket i holds the sums of sale totals, item costs and expense amounts dated in month i+1 (and the selected year, for the dashboard). Profit is revenue minus cost minus expense. The margin is the gross margin of the bucket's own revenue and cost, 0 unless the revenue is positive. |
| Reporting.DashboardSaleContribution | app/page.tsx:197-208 | On the dashboard a sale adds its total and cost to bucket i exactly when it is dated in the selected year and month i+1; any other sale leaves the bucket unchanged. |
| Reporting.DashboardExpenseContribution | app/page.tsx:214-218 | On the dashboard an expense adds its amount to bucket i exactly when it is dated in the selected year and month i+1; otherwise the bucket is unchanged. |
| Reporting.ReportSaleContribution | app/relatorios/page.tsx:70-81 | In the report a sale lands in the bucket of its month whatever its year. |
| Reporting.Summarize | app/page.tsx:285-290 | The totals are the column sums over the buckets. Total profit is revenue minus cost minus expense. Both margins are 0 without positive revenue and are otherwise the base over revenue times 100. |
| Reporting.ProfitTotalIsSumOfProfits | app/relatorios/page.tsx:120-123 | The total profit equals the sum of the buckets' profits. |
| Reporting.TotalsCountScope | app/page.tsx:285-287 | The totals over the buckets equal the sums over every record in scope. |
| Reporting.ReportTotalsCountEverything | app/relatorios/page.tsx:120-123 | The report's totals are the sums over all fetched sales and expenses, whatever their year. |
| Reporting.DashboardTotalsCountYear | app/page.tsx:285-288 | The dashboard's totals are the sums over the fetched sales and expenses of the selected year. |
| Reporting.NoRecordsGiveZeroBuckets | app/page.tsx:221-222 | With no records every bucket is zero with a zero margin. |
| Reporting.TotalStock | app/page.tsx:157 | The stock card is 0 for no products, and with no negative stock it is at least every single product's stock. |
| Reporting.TotalStockAppend | app/page.tsx:157 | The stock card is additive: one more product raises it by exactly that product's stock, and two lists together give the sum of their cards (so, with the empty case, it is the sum of all stocks). |
| Products.FirstReferring | app/produtos/page.tsx:72-76 | The one-row lookup returns a row referring to the product, and returns nothing exactly when no row does. |
| Products.CheckReferences | app/produtos/page.tsx:69-97 | If either lookup fails, the check reports no references. Otherwise it reports sales exactly when some sale item refers to the product, and movements exactly when some movement does. |
| Products.BlockLines | app/produtos/page.tsx:107-110 | The message has three lines plus one per kind of reference found: the header first, then the sales bullet exactly when sales refer to the product, then the movements bullet exactly when movements do, then a blank line and the footer. |
| Products.BlockMessage | app/produtos/page.tsx:106-113 | There is no message exactly when nothing refers to the product; otherwise the appended message equals the message lines joined by line breaks. |
| Products.AppendedMessage | app/produtos/page.tsx:107-110 | The message appended piece by piece equals its lines joined by line breaks: the header, the bullets present, a blank line, the footer. |
| Products.JoinBlockLines | app/produtos/page.tsx:107-110 | The page's piece-by-piece string equals the joined lines for every combination of references. |
| Products.DeleteClick | app/produtos/page.tsx:99-116 | Clicking delete selects the product and opens the dialog, keeps the list, and sets the blocking message of its references: exactly `BlockMessage(refs)`, present exactly when something refers to the product. |
| Products.ConfirmDelete | app/produtos/page.tsx:118-150 | Without a selection, or with a message set, nothing happens. A foreign-key error sets the fixed message and changes nothing else. Any other error changes nothing. A success keeps exactly the products of another id, clears the selection, closes the dialog and leaves the blocking message unset. |
| Products.ConfirmDeleteKeepsOrder | app/produtos/page.tsx:135 | After a delete the remaining products keep their order, and confirming again changes nothing. |
| Products.BlockedDeleteStaysBlocked | app/produtos/page.tsx:119 | After a click on a product with references, or after the store refused the delete with a foreign-key error, the next confirmation sends nothing. |
| Products.FilterByName | app/produtos/page.tsx:152 | The list keeps exactly the products whose name contains the term ignoring case, in the list's order, and an empty term keeps the whole list. |
| Products.ProductFormWrite | components/produtos/produto-form.tsx:55-77 | Editing writes an update of that product's id and a new product writes an insert. Both carry the name as typed, both prices and the trimmed category. The update has no stock column and the insert has stock 0. |
| Products.ProductFormKeepsStock | components/produtos/produto-form.tsx:57-73 | Saving an edit keeps the stored stock and id. A new product is stored with stock 0. The stored category has no white space at either end. |
| Text.IncludesIffOccurs | app/produtos/page.tsx:152 | The substring test holds exactly when the term occurs at some position of the text. |
| Text.TrimSpec | components/produtos/produto-form.tsx:61 | The trimmed text is a slice of the original cut only at white space, with no white space left at either end. |
| Text.TrimIdempotent | components/produtos/produto-form.tsx:72 | Trimming an already trimmed category changes nothing. |
| ListFilters.FilterMovements | app/estoque/page.tsx:64-73 | A movement is shown exactly when the term occurs in its product's name, category or non-empty reason, ignoring case, and the type selector is "todos" or its type; no search with "todos" shows the whole list. |
| ListFilters.FilterMovementsKeepsOrder | app/estoque/page.tsx:64-73 | The shown movements keep the page's order, and a movement without a reason is shown only if its name or category matches. |
| ListFilters.TypeFiltersPartition | app/estoque/page.tsx:70 | Under one search, the `entrada` list and the `saida` list together have exactly as many movements as the "todos" list. |
| ListFilters.FilterExpenses | app/despesas/page.tsx:88-90 | The list keeps exactly the expenses whose description contains the term ignoring case, in the list's order; an empty term keeps them all. |
| ListFilters.ShownTotalBounds | app/despesas/page.tsx:92 | With no negative amounts the shown total is between 0 and the total of all expenses, and equals it with no search. |
| ListFilters.ShownTotal | app/despesas/page.tsx:92 | `totalDespesas` is 0 with no expenses and is the total of all expenses with an empty search; with `ShownTotalAppend` it is the sum of the amounts of exactly the expenses the search shows. |
| ListFilters.ShownTotalAppend | app/despesas/page.tsx:88-92 | One more expense raises the shown total by its amount exactly when its description contains the search term ignoring case, and leaves it unchanged otherwise. |
| ListFilters.DeleteExpense | app/despesas/page.tsx:63-86 | The busy flag and the pending expense are cleared either way. A successful delete keeps exactly the expenses of another id; a failed one keeps the list. |
| ListFilters.DeleteExpenseEffect | app/despesas/page.tsx:70 | A delete keeps the other expenses in order. It changes nothing when no expense has that id, and with no negative amounts it never raises the sum. |

## Left out

- Every call to the store (queries, inserts, updates, deletes), its row-level security and its cascades. What a page reads is an input and what it writes is an output.
- The database trigger that applies a movement to `produtos.quantidade_estoque`. It is not part of the application code this model covers, so stock is only ever a snapshot here.
- The query filters that bound what is fetched: the dashboard's date interval and the report's current-year range. The model folds whatever list it is given.
- A sale written without its items when the item insert fails after the sale insert. There is no transaction in the code, and the model describes only the rows of a full write.
- Date parsing, time zones and `date-fns` presets. A date is its year and month, taken as given. The dashboard's string comparison of `getFullYear().toString()` with the selected year is modelled as comparing integer years.
- `parseInt`/`parseFloat`, `NaN` and two-decimal formatting. Quantities and prices arrive as integers and cents. A `NaN` quantity would slip through the `<= 0` and stock comparisons; the inputs are number fields, so this is left out.
- CSV export, charts, toasts, navigation, authentication and layout.
- Thin files: the sales list (app/vendas/page.tsx), the sale details view, the expense form (components/despesas/despesa-form.tsx) and the route wrapper of the stand-alone movement form. They only read, or insert form fields as typed.
- Deleting a movement from the movement actions. It is a single store call with no rule in front of it.
- Text.Lower: only ASCII letters are lower-cased, not full Unicode case folding as `toLowerCase` does.
- Text.Trim: only ASCII white space (space, tab, line feed, carriage return, vertical tab, form feed) is trimmed, not the full Unicode set of `trim`.
- SaleForm.UpdateItem: the edits are the three the dialog sends (product, quantity, unit price); a direct edit of the subtotal key is never sent by the page. The index must be a line of the list, as it always is when the page calls it.
- StockMovements.SubmitMovementDialog: the dialog's handler has no check for empty fields or a non-positive quantity. It relies on the browser's `required` and `min="1"` on its inputs, which are not modelled.
- The dashboard's net margin (`margemLiquida`) is computed by `Reporting.Summarize` for both pages, but the annual report does not show it.

## Findings

| source | as written | input that shows it | evidently intended | confidence | as-written member | corrected member |
|---|---|---|---|---|---|---|
| components/estoque/movimentacao-actions.tsx:103-124 | Only a new `saida` is checked against stock, so an edit whose new type is `entrada` is never checked. Shrinking an `entrada` can take the stock below 0. Turning a `saida` into an `entrada` only raises the stock. | Stock 5 after an `entrada` of 10 and a `saida` of 5; edit the `entrada` to 1. Undoing 10 and applying 1 leaves -4, and the edit is accepted. | Undo the original movement, apply the edited one, and refuse whenever the result would be below 0, for either new type. | medium, not executed | StockMovements.EditMovement, StockMovements.EditEntradaCanDriveStockNegative | StockMovements.EditMovementGuarded |
