# ArximiaBackend: stock engine and account rules in Dafny

ArximiaBackend is the server of a small retail application. Club owners use it to keep a
catalogue of products, the stock of each product in each of their clubs (shops), sales,
expenses, clients, employees and a paid subscription. This project models the part of it that
keeps stock and the rules around accounts and subscriptions.

- **The stock engine.** For each (product, club) pair an inventory record holds a count of
  sealed units and a preparation sub-record (containers, portions per container, portions
  left). Every stock event also appends a movement to a log. Three handlers change stock, each
  with its own rules:
  - the general movement handler (`POST /movement` in `routes/inventory.js`);
  - the sale handler's `registerMovement` (`routes/sales.js`);
  - the purchase path of the expense handler (`routes/expenses.js`).

  Product creation seeds the record (`routes/products.js`). `Ledger.Store` holds the records,
  the log and the other collections. Its ghost state records which log entries reached a
  stored balance. The invariant `Ledger.Consistent` states the exact relation between the log
  and the balances: every stored balance is its first stored value with the *effective*
  entries of its key replayed. Rejected sales and purchases without a price leave entries
  that never reached a balance. `Ledger.NaiveReadingDiverges` shows that the naive fold of the
  log is then wrong.
- **Reports.** These are the in-code steps applied to the results of database aggregations:
  - the dashboard's critical-stock rule and its sales-vs-expenses buckets (`routes/dashboard.js`);
  - the sales trend, cash flow, breakdown, pagination and expense totals of `routes/reportRoutes.js`;
  - the expense KPIs (`routes/expenses.js`) and client KPIs (`routes/clients.js`).
- **Accounts.**
  - The pre-save hooks that turn a plan into limits and a price (`models/User.js`, `models/Subscription.js`).
  - Plan changes, cancellation and the 30-day renewal (`routes/subscription.js`, `routes/payment.js`).
  - The password-change lockout (`routes/user.js`).
  - The employee and club capacity checks and the club settings merge (`routes/employee.js`, `routes/club.js`).
  - Onboarding (`routes/onboarding.js`).
  - Registration checks and password reset (`routes/auth.js`).
  - The token middleware (`middlewares/auth.js`).
  - Client validation and history (`routes/clients.js`).

There is one Dafny module per source file. Shared modules are:
- `Common`: optional values and sums;
- `JsStrings`: JavaScript whitespace, `trim`, number printing and `parseInt`;
- `ObjectKeys`: the order in which `Object.keys` lists an object's properties;
- `InventorySchema`, `StockEffect` and `Documents`: the documents and the effect of a movement;
- `Ledger`: the store;
- `Buckets`: period bucket labels;
- `UserModel` and `Accounts`: the user document and the collections the account routes change.

The database is a set of fields of `Ledger.Store` or `Accounts.Directory`.
The handlers with state are methods that change those fields. Each method's postcondition
gives the whole new state as a function of the old one, and lemmas prove the properties of
those functions. The store's ghost bookkeeping (the record each stock balance started from and
whether each movement's effect was applied) is pinned the same way. Money and counts are `int`.
Times are integers in milliseconds. bcrypt, jwt and random tokens are parameters: a boolean
"password matches" (optional in the password change, where an absent answer means the comparison
throws), a verdict function, a given token.
In the sale handler a write that can fail is modelled with an explicit fault parameter that says
which write fails. Elsewhere a save fails only through schema validation, a hook's refusal or the
unique e-mail index, and those outcomes follow from the state.

The model follows the code, not its description, wherever the two differ. The points where
this matters are:
- The user schema's plan enum is `basico`, `medio`, `superior`, `prueba`. Mongoose validates
  before it runs the pre-save hook, so `Accounts.Directory.SaveUser` refuses `intermedio`, `premium`
  and `personalizado` before the hook's branches for those plans can run.
- `findByIdAndUpdate` and `findOneAndUpdate` run neither hooks nor validators, and the model
  calls neither.
- The search endpoint reads a `stock` field that no product has, so every search row carries
  the zero stock object.
- The top expense category is the *last* category with the largest total, in `Object.keys` order.
  The reduction keeps the earlier key only when its total is strictly greater (`>`).
  `Object.keys` lists integer-like category names (array indices such as `"5"`) first, in
  ascending numeric order, and then the other names in the order they were first seen.
- An expense without a category is totalled under the property name `undefined`, which is
  what indexing an object with an undefined key does.

## Model

| member | source | states |
|---|---|---|
| InventorySchema.DefaultRecord | models/Inventory.js:5-19 | a record created for a (product, club) pair has sealed, units, portionsPerUnit and currentPortions all 0, no portion price or size, and the creation time as updatedAt |
| InventorySchema.ParseType | models/Movement.js:8 | only the four enum texts venta, uso, compra, ajuste are accepted, each as its own kind |
| InventorySchema.ParseUnit | models/Movement.js:10 | only sealed and portion are accepted |
| InventorySchema.EnumRoundTrip | models/Movement.js:8-10 | every movement kind and unit passes its enum validator, so enum text and kind are in bijection |
| InventorySchema.ValidateMovement | models/Movement.js:5-14 | a movement is stored iff product, clubId, type, quantity, unit and user are present and type and unit lie in their enums; the stored entry carries exactly the given fields (any sign of quantity, optional description) dated now |
| StockEffect.PortionFactor | routes/inventory.js:71 | `portionsPerUnit \|\| 1` is never 0 and equals portionsPerUnit whenever that is non-zero |
| StockEffect.Effect | routes/inventory.js:53-99 | one movement changes only the balances: the unit selects the axis (sealed or preparation), only additions touch the container count, portionsPerUnit, key and stamp are kept, and a sealed uso changes nothing |
| StockEffect.EffectIsTranslation | routes/inventory.js:65-97 | each balance moves by a delta that depends only on (type, unit, quantity) and portionsPerUnit: +q / -q on sealed, +q×factor / -q on portions, +q on containers for additions of portions |
| StockEffect.EffectAdditive | routes/inventory.js:65-97 | two movements of one kind equal one movement carrying the summed quantity |
| StockEffect.EffectCommutes | routes/inventory.js:65-97 | the order in which two movements are applied does not matter |
| StockEffect.EffectMonotone | routes/inventory.js:65-97 | with q ≥ 0, compra and ajuste never lower any balance and venta and uso never raise one |
| StockEffect.ReplaySnoc | routes/inventory.js:43-101 | replaying one more movement applies its effect to the replay of the others |
| StockEffect.ReplayIsSum | routes/inventory.js:65-97 | replaying a log adds up the per-movement deltas on sealed and portions, and leaves key, stamp and portionsPerUnit unchanged |
| StockEffect.ReplayAppend | routes/inventory.js:43-101 | replaying two logs one after the other is replaying their concatenation |
| StockEffect.PurchasesFromFresh | routes/inventory.js:43-74 | on a fresh record, a run of purchases leaves sealed equal to the sum of sealed quantities and currentPortions equal to the sum of portion quantities (factor 1, since a fresh record has portionsPerUnit 0) |
| Ledger.Effective | models/Movement.js:5-14 | the effective entries of a key are a selection of the log, never longer than it |
| Ledger.EffectiveSnoc | routes/inventory.js:41 | logging an entry extends the effective list of its key exactly when the entry took effect |
| Ledger.EffectiveEmpty | routes/inventory.js:41 | a key none of whose entries took effect has an empty effective list |
| Ledger.LogPreservesConsistent | routes/inventory.js:32-41 | saving a movement that has not yet touched a record keeps every balance equal to the replay of its effective entries |
| Ledger.MarkLastEffective | routes/inventory.js:100-101 | marking the last entry effective changes only its own key's effective list |
| Ledger.MarkLastPreservesConsistent | routes/inventory.js:43-101 | saving the record produced by applying the last logged entry to the looked-up (or fresh) record keeps the ledger consistent, with a fresh record's origin being its zero default |
| Ledger.UnchangedPreservesConsistent | routes/inventory.js:100-101 | saving a record whose balances no entry changed (a new record, or only a new updatedAt) keeps the ledger consistent |
| Ledger.LookupIn | routes/inventory.js:43-51 | a handler works on the stored record of the pair, or on the zero default record when there is none |
| Ledger.Store.Lookup | routes/inventory.js:43-51 | `findOne({ product, clubId })` or `new Inventory(...)`, read from the store's current records |
| Ledger.Store.SaveMovement | routes/inventory.js:41 | `movement.save()` appends the entry to the log, not yet effective, and keeps the ledger consistent |
| Ledger.Store.SaveEffect | routes/inventory.js:100-101 | `inventory.save()` of the effect of the last entry stores the record under its key and marks that entry effective; a key stored for the first time starts from the zero record; the ledger stays consistent |
| Ledger.Store.SaveUnchanged | routes/inventory.js:100-101 | `inventory.save()` of a record with unchanged balances stores it, leaves every entry's effective flag as it was, adds the record as its own starting point when its key is new, and keeps the ledger consistent |
| Ledger.EffectiveAllApplied | routes/inventory.js:32-101 | when every entry took effect, the effective entries of a key are all of that key's entries, so the naive reading is then exact |
| Ledger.NaiveReadingDiverges | routes/inventory.js:53-74 | a purchase of 3 sealed units without a price: the naive replay of the log gives 3 while the stored balance, the replay of the effective entries, stays 0 |
| InventoryRoutes.Precheck | routes/inventory.js:24-30 | the request passes iff productId, clubId, a non-empty type and unit are present and quantity is present and > 0; a missing or zero quantity is "missing data", a negative one "must be > 0" |
| InventoryRoutes.StockStepRejectsIff | routes/inventory.js:75-88 | the dispatch rejects iff a sealed venta exceeds sealed, or a venta/uso of portions exceeds currentPortions; "Stock insuficiente" iff the sealed case |
| InventoryRoutes.StockStepNoOp | routes/inventory.js:53 | a compra without a price keeps the record, and a sealed uso applies no change (also routes/inventory.js:85) |
| InventoryRoutes.StockStepNonNegative | routes/inventory.js:75-88 | from non-negative balances with q > 0, an accepted step keeps all three balances non-negative |
| InventoryRoutes.AjusteOnlyIncreases | routes/inventory.js:28-30 | an ajuste is never rejected, has the effect of a priced compra, and with q > 0 only increases stock (also routes/inventory.js:89-98) |
| InventoryRoutes.PurchaseExpense | routes/inventory.js:54-64 | a priced purchase writes an expense of category producto, amount quantity × price, the movement's club, product and user, described "Compra de inventario: " followed by the description (or `undefined`) |
| InventoryRoutes.Dispatch | routes/inventory.js:53-99 | the in-place if/else dispatch on (type, unit) computes exactly the step of the specification function |
| InventoryRoutes.PostMovement | routes/inventory.js:21-108 | a failed precheck answers 400 with no write. A movement the schema refuses answers 500 with no write. Otherwise the movement is logged first; a priced compra also logs its expense; then a rejected step leaves every record unchanged, a no-op only restamps the record, and an applied step stores the effect stamped now. Exactly the applied step's entry is marked effective, and a new key starts from the zero record. The ledger stays consistent throughout |
| InventoryRoutes.ApplyLogged | routes/inventory.js:43-101 | the steps after the movement is saved: expense, lookup or creation, dispatch and save, with the same outcomes and the same effective flag as above |
| InventoryRoutes.ProductMovements | routes/inventory.js:122 | the history holds only entries of the product and every entry of the product, from any club |
| InventoryRoutes.MovementHistory | routes/inventory.js:111-128 | 404 iff the record does not exist; otherwise the product's entries |
| InventoryRoutes.HistorySpansClubs | routes/inventory.js:120-122 | the history of a record also lists another club's entries for the same product |
| SalesRoutes.Entry | routes/sales.js:55-64 | the entry logged by registerMovement carries the sold product, club, kind, quantity, unit, description and user, dated now |
| SalesRoutes.CastItem | models/Sale.js:5-13 | an item fits the schema iff product id, quantity and unit price are present and the type is sealed or prepared; the cast item keeps those values |
| SalesRoutes.CastItems | models/Sale.js:17 | a list of items fits iff every item does, and the cast list is item by item |
| SalesRoutes.CastGroup | models/Sale.js:15-18 | a group fits iff its name is present and non-empty and all its items fit |
| SalesRoutes.CastGroups | models/Sale.js:21 | the groups fit iff every group does, and the cast list is group by group |
| SalesRoutes.SavedGroups | models/Sale.js:21 | the saved sale holds one group per request group, or none when the request has no groups |
| SalesRoutes.SaleStepAgreesWhenAccepted | routes/sales.js:77-83 | a sale subtracts what the general handler would have stored, and also stores the results the general handler rejects |
| SalesRoutes.SaleStepBalances | routes/sales.js:77-84 | registerMovement leaves the balances unchanged for any kind other than venta; a venta subtracts exactly q from the unit's axis with no floor |
| SalesRoutes.SaleCanGoNegative | routes/sales.js:66-83 | selling one sealed unit of a fresh record stores sealed = -1, a step the general handler rejects |
| SalesRoutes.RegisterMovement | routes/sales.js:54-86 | the movement is saved before the record; when the first write fails nothing changes, when the second fails only the log grows (with an entry that is not effective), otherwise the record of (product, club), or a zero one, is stored with the venta subtracted and stamped now, and its entry is effective; the ledger stays consistent |
| SalesRoutes.FlatItemsAppend | routes/sales.js:30-36 | the items of two runs of groups, in group-then-item order, are the items of the first run followed by those of the second |
| SalesRoutes.UnitOf | routes/sales.js:33 | the unit is sealed iff the item type is sealed, and portion otherwise |
| SalesRoutes.ItemEntries | routes/sales.js:30-36 | one entry per item |
| SalesRoutes.AfterItemsBalance | routes/sales.js:30-36 | after the items, a record some item touches holds its stored (or zero) balance minus the sealed and portion quantities sold to it, with no floor; every other record is untouched (also routes/sales.js:66-85) |
| SalesRoutes.UntouchedTakesNothing | routes/sales.js:30-36 | items of other records take nothing from a record |
| SalesRoutes.ItemsDone | routes/sales.js:30-36 | the items completed before a failing write are those before the failing one, or all of them when no write fails |
| SalesRoutes.NewSale | routes/sales.js:19-27 | the sale is stored with status completed, the given groups, total, client, club and the caller as employee |
| SalesRoutes.ClientsAfterSale | routes/sales.js:39-44 | only a client with the given id and the sale's club gains total_spent += total and a last purchase; no client is added or removed and visitCount is untouched |
| SalesRoutes.ItemAt | routes/sales.js:30-36 | item i of group g sits in the flat order right after the items of the earlier groups and the earlier items of g |
| SalesRoutes.GroupSlice | routes/sales.js:30-36 | group g occupies the flat positions after the items of the groups before it |
| SalesRoutes.GroupDone | routes/sales.js:30-36 | finishing group g completes the flat items of the first g + 1 groups |
| SalesRoutes.RegisterItem | routes/sales.js:31-35 | one registerMovement call of the loop either advances the ledger past its item or stops the sale at that item |
| SalesRoutes.RegisterGroup | routes/sales.js:31-35 | the inner loop runs registerMovement for the items of one group, in order, until the first failing write |
| SalesRoutes.RegisterItems | routes/sales.js:30-36 | registerMovement runs exactly once per item in group-then-item order until the first failing write; the log then holds one effective entry per completed item (plus the non-effective entry of a half-written item), the records hold the effects of the completed items, and each new key starts from the zero record |
| SalesRoutes.OriginAfterSeedsDefaults | routes/sales.js:66-75 | the sale loop only adds starting records, each the zero record of a key first touched by the sale, and keeps every existing one |
| SalesRoutes.PostSale | routes/sales.js:11-51 | no clubId answers 400; no total or a group or item that fails the sale schema answers 500; neither writes anything. Otherwise the sale is stored as completed before any item is processed, as `SalesRoutes.SaveSale` states |
| SalesRoutes.SaveSale | routes/sales.js:18-51 | the sale is stored as completed before any item is processed. A missing item list then fails with the sale already saved, and a failing write leaves the sale and the earlier items' effects in place, with the effective flags and starting records of the completed items. Only full success updates the client and answers 201 |
| ExpensesRoutes.Precheck | routes/expenses.js:27-37 | the request passes iff clubId, a non-empty category and a non-zero amount are present and, for category purchase, productId, type, unit and a quantity > 0 are too; a non-purchase can only fail the first check |
| ExpensesRoutes.DescriptionCarriesAmount | routes/expenses.js:45 | the movement description ends in `$` followed by the printed amount, and parsing that suffix gives the amount back |
| ExpensesRoutes.ExpenseDoc | routes/expenses.js:73-82 | the expense carries clubId, amount, category, description and user of the request dated now, and a product exactly when a productId was given |
| ExpensesRoutes.PurchaseStepAgrees | routes/expenses.js:58-67 | a purchase of kind compra has the effect of the general handler's priced compra (sealed += q, or units += q and currentPortions += q × factor); any other kind leaves the record unchanged |
| ExpensesRoutes.ApplyPurchase | routes/expenses.js:51-69 | the looked-up (or fresh) record is stored with the purchase step applied, stamped now, its entry marked effective exactly when the step is a compra, keeping the ledger consistent |
| ExpensesRoutes.PostExpense | routes/expenses.js:24-89 | a failed check answers 400 with no write. A purchase whose movement the schema refuses answers 500 with no write. Every accepted request appends exactly one expense; a purchase first logs its movement and stores its record, and only that entry's effective flag and the new key's zero starting record are added |
| ExpensesRoutes.CategoriesExact | routes/expenses.js:141-148 | the keys of categoryTotals are distinct and are exactly the categories that occur |
| ExpensesRoutes.AbsentCategoryTotal | routes/expenses.js:141-148 | a category that does not occur totals 0 |
| ExpensesRoutes.TotalsPartition | routes/expenses.js:135 | the category totals add up to the month total: no amount is lost or counted twice (also routes/expenses.js:141-148) |
| ExpensesRoutes.TotalsSnoc | routes/expenses.js:142-147 | one more expense adds its amount to its own category's total, creating the key the first time; the other totals are unchanged |
| ExpensesRoutes.CategoryTotals | routes/expenses.js:141-148 | the forEach loop creates the properties in the order the categories are first seen, and each one's total is the sum of that category's amounts |
| ExpensesRoutes.TopKey | routes/expenses.js:151-153 | the reduction picks one of the keys |
| ExpensesRoutes.TopIndex | routes/expenses.js:151-153 | the position the reduction ends on lies within the keys |
| ExpensesRoutes.TopKeyIsLastMax | routes/expenses.js:151-153 | the chosen key has a total ≥ every key's, and every key after it has a strictly smaller total (ties go to the last) |
| ExpensesRoutes.CategoriesNonEmpty | routes/expenses.js:150-153 | a month with expenses has a key, so the reduction has a value to start from |
| ExpensesRoutes.TieOfTwoGoesToSecond | routes/expenses.js:151-153 | of two keys with equal totals the reduction ends on the second |
| ExpensesRoutes.TopCategory | routes/expenses.js:150-153 | the reduction over the totals, in `Object.keys` order, ends on one of the month's categories |
| ExpensesRoutes.ExpenseKpis | routes/expenses.js:111-168 | totals are the sums of the two months' amounts; topCategory is N/A when the month total is not positive, and otherwise the reduction over the category totals in `Object.keys` order |
| ExpensesRoutes.TopCategoryIsMax | routes/expenses.js:149-156 | the top category's total is at least every other category's |
| ExpensesRoutes.TieGoesToWordAfterIndex | routes/expenses.js:151-153 | when a word is seen first and an integer-like category second, with equal totals, the top category is the word, although the second one is last in creation order |
| ObjectKeys.InsertPosSplits | routes/expenses.js:151 | the insertion point separates the keys ranked no higher than the new key from those ranked higher |
| ObjectKeys.InsertBySorted | routes/expenses.js:151 | insertion keeps the index keys sorted and adds exactly the new key |
| ObjectKeys.SortBy | routes/expenses.js:151 | the index keys come out in ascending numeric order, as a permutation of the input |
| ObjectKeys.SelectPermutes | routes/expenses.js:151 | splitting the keys into array indices and other names loses and adds nothing |
| ObjectKeys.OwnKeysPermutes | routes/expenses.js:151 | `Object.keys` lists every created property exactly once |
| ObjectKeys.OwnKeysOrder | routes/expenses.js:151 | `Object.keys` lists the array indices first, ascending, then the other names in creation order |
| ObjectKeys.NoIndexKeepsOrder | routes/expenses.js:151 | with no integer-like name, `Object.keys` is the creation order |
| ObjectKeys.IndexKeyListedFirst | routes/expenses.js:151 | an integer-like name created after a word is listed before it |
| ObjectKeys.IntegerKeyFirst | routes/expenses.js:151 | with "renta" created before "5", `Object.keys` gives "5" then "renta" |
| ProductsRoutes.ValidateProduct | models/Product.js:5-23 | a product is stored iff its type lies in sealed/prepared/both and a name, a category and a purchase price are given; it is stored unarchived with the caller as owner, dated now |
| ProductsRoutes.SeedRecord | routes/products.js:50-83 | the record seeded for a new product has every balance 0; a sealed product gets the zero preparation, a prepared or both product gets portionsPerUnit = portions or 0 and the product's portion price and size |
| ProductsRoutes.SeedIsZeroStock | routes/products.js:50-83 | the seed is the fresh default record, apart from its portion data at most; for a sealed product it is exactly the default record |
| ProductsRoutes.CreateProduct | routes/products.js:9-90 | no clubId answers 400 and a product the schema refuses answers 500, both with no write. Otherwise exactly one product and one record for (new id, clubId) are written, the seeded record is also that key's starting point, the ledger stays consistent and no movement is logged |
| ProductsRoutes.SearchRefusedIff | routes/products.js:97-101 | the search answers 400 iff clubId is missing or the query is absent or all whitespace |
| ProductsRoutes.SearchRowOf | routes/products.js:114-121 | a search row carries the product's id, name, type and purchase price, a flavor only when one is set, and always the zero stock (the selected `stock` field is not in the schema) |
| ProductsRoutes.Matching | routes/products.js:104-108 | exactly the non-archived products of the club whose name matches are kept: every kept one is such a product and every such product is kept |
| ProductsRoutes.MatchingAppend | routes/products.js:104-108 | filtering keeps the database order: the matches of a concatenation are the matches of each part, concatenated |
| ProductsRoutes.Search | routes/products.js:92-132 | refused with 400 iff the precheck fails; a trimmed query that is not a valid regular expression answers 500; otherwise the first min(10, matching) matching products, each formatted as its row |
| ProductsRoutes.SearchStockIsAlwaysZero | routes/products.js:109 | every row of an answered search reports zero stock, whatever is stored (also routes/products.js:120) |
| ProductsRoutes.StockInfoOf | routes/products.js:172-193 | with a record, the stored sealed, units and currentPortions; without one, zeros |
| ProductsRoutes.SalesRowReportsLedger | routes/products.js:165-203 | the sales search reports the stored (or fresh zero) balance of the product's record in the requested club, negative balances included |
| ProductsRoutes.ProductWithStock | routes/products.js:217-259 | 404 iff the product does not exist; otherwise the product with the stock of its record in its own club, or the zero stock when there is none |
| ProductsRoutes.Archived | routes/products.js:301-313 | 404 iff the product does not exist; otherwise only that product changes, to archived |
| ProductsRoutes.ArchiveIdempotent | routes/products.js:301-307 | archiving twice is archiving once |
| ProductsRoutes.ArchiveProduct | routes/products.js:301-318 | the product map becomes the archived map, and the archived product is returned |
| Buckets.IndexName | routes/dashboard.js:190-199 | `names[n - 1]` is the n-th name inside the table and the key `undefined` outside it |
| Buckets.WeekNameInjective | routes/dashboard.js:195 | two week labels are equal iff their numbers are, so different weeks never share a bucket (also routes/dashboard.js:237-238) |
| Buckets.LastTotalSomeIff | routes/dashboard.js:186-202 | a label has a last total exactly when some aggregate row is filed under it |
| Buckets.LabelsSnoc | routes/dashboard.js:186-202 | the labels of the rows are those of all but the last row plus the last row's label |
| Dashboard.CriticalOf | routes/dashboard.js:70-76 | a record is listed iff it belongs to the club and has sealed < 5 or currentPortions < 10; storage order is kept |
| Dashboard.ProductLabel | routes/dashboard.js:80-82 | a dangling product is "Producto desconocido"; otherwise the name, extended (by " (flavor)") exactly when the flavor is a non-empty string |
| Dashboard.StockLabelReadsBack | routes/dashboard.js:83 | the label ends in " unidades" iff sealed < 5, and its number parses back to sealed then, and to currentPortions otherwise |
| Dashboard.CountLabel | routes/dashboard.js:83 | a printed count followed by its unit word parses back to the count and ends in that unit word |
| Dashboard.SuffixOfConcat | routes/dashboard.js:83 | the last characters of a concatenation are those of its second part |
| Dashboard.CriticalItems | routes/dashboard.js:79-84 | one item per critical record, in order, with its product label and stock label |
| Dashboard.GrowthOf | routes/dashboard.js:60-65 | the growth is 0 iff the previous value is not positive; otherwise it is the change over a positive base, and base + change is the current value |
| Dashboard.DashboardKpis | routes/dashboard.js:13-99 | 400 iff no clubId; otherwise net profit = sales - expenses, the critical count equals the number of listed items and of critical records, each item's stock label is its record's, and each growth is 0 when its previous value is not positive |
| Dashboard.SalesPassMeaning | routes/dashboard.js:186-202 | after the sales pass a label has a bucket iff some sales row is filed under it, holding the last such total and expenses 0 |
| Dashboard.ExpensePassMeaning | routes/dashboard.js:205-224 | after the expense pass a bucket keeps its sales and takes the last expense total filed under its label; a new label starts with sales 0 |
| Dashboard.PassesBuildMerged | routes/dashboard.js:183-224 | the two passes build exactly the reference bucket map: one bucket per label among sales and expense rows, with the last totals and 0 where there is none |
| Dashboard.MergeBuckets | routes/dashboard.js:183-224 | the two forEach loops that fill `map` build the reference bucket map |
| Dashboard.FixedRows | routes/dashboard.js:228-234 | one row per name of the fixed order, in that order, with the bucket's sales and expenses or 0 (also routes/dashboard.js:243-249) |
| Dashboard.PresentWeeks | routes/dashboard.js:237-241 | exactly the weeks among 1..n that have a bucket, strictly ascending |
| Dashboard.WeekRows | routes/dashboard.js:240 | one row per listed week |
| Dashboard.MonthlyRows | routes/dashboard.js:235-242 | the loop over weeks 1..5 pushes exactly the rows of the present weeks, in ascending order |
| Dashboard.SalesVsExpenses | routes/dashboard.js:101-257 | a missing or empty clubId or period answers "clubId y period son requeridos"; an unknown period "Periodo inválido"; weekly, monthly and annual give the rows of the merged buckets in their fixed layout |
| Dashboard.WeeklyShape | routes/dashboard.js:228-234 | weekly output has exactly 7 rows, Lunes to Domingo, each with that day's last sales and expense totals or 0 |
| Dashboard.AnnualShape | routes/dashboard.js:243-249 | annual output has exactly 12 rows, Enero to Diciembre, each with that month's last totals or 0 |
| Dashboard.MonthlyShape | routes/dashboard.js:235-242 | a week among 1..5 is listed iff some sales or expense row falls in it |
| Reports.Breakdown | routes/reportRoutes.js:382-393 | sales categories come first, labelled "Ventas - name" with both amounts unchanged, then expense categories labelled "Gastos - category" (or "Sin categoría" when absent or empty) with both amounts negated; nothing else is listed |
| Reports.SumNegated | routes/reportRoutes.js:390-391 | negating every amount negates their sum |
| Reports.BreakdownNetsToProfit | routes/reportRoutes.js:382-393 | the signed breakdown amounts add up to the sales-category sums minus the expense-category sums; each sale's total is summed once per item group (also routes/reportRoutes.js:286-292), so with multi-group sales these exceed the period's total sales |
| Reports.AsWrittenGrouping | routes/reportRoutes.js:576-589 | as written, only the custom period fails to label a row: its test reads `daysDiff`, which is declared inside the switch and is out of scope there |
| Reports.TrendGrouping | routes/reportRoutes.js:517 | with `daysDiff` in scope, week, month and year label as written, and custom labels by month only beyond 31 days (also routes/reportRoutes.js:576-589) |
| Reports.ProcessPassMeaning | routes/reportRoutes.js:573-601 | after one processData call a bucket exists for every old key and every label among the rows; its own field holds the last total filed under it, and the other field keeps its value, or 0 for a new bucket |
| Reports.ProcessBuildsMerged | routes/reportRoutes.js:570-604 | processing the sales and then the expenses builds the reference bucket map |
| Reports.TrendAgreesWithChart | routes/reportRoutes.js:570-604 | the sales trend and the dashboard chart file the same rows into the same buckets |
| Reports.ProcessData | routes/reportRoutes.js:573-601 | the forEach either throws (a labelling that fails, on a non-empty aggregate) or performs exactly one processing pass |
| Reports.WithProfit | routes/reportRoutes.js:610-636 | each chart row keeps its name, sales and expenses and gains profit = sales - expenses |
| Reports.OrderedRows | routes/reportRoutes.js:606-637 | week: 7 rows, Monday first; month: the present weeks 1..5 in order; year: 12 rows; each with its profit; custom: no ordered rows |
| Reports.SalesTrend | routes/reportRoutes.js:421-647 | as written: a missing clubId or period is 400, no owner or no clubs is 404, an unknown period is 400, and a custom period fails with 500 as soon as either aggregate has a row; the other periods give their ordered rows of the reference bucket map |
| Reports.SalesTrendCorrected | routes/reportRoutes.js:421-647 | with `daysDiff` in scope, every known period, custom included, answers with its ordered rows (none for custom) |
| Reports.IntParamOr | routes/reportRoutes.js:729-730 | `parseInt(param) \|\| fallback`: an absent, unparsable or zero parameter gives the fallback, any other parsed value is kept, and a non-zero fallback never yields 0 |
| Reports.PageQueryOf | routes/reportRoutes.js:729-731 | page defaults to 1, limit to 7, and skip = (page - 1) × limit |
| Reports.TotalPages | routes/reportRoutes.js:779 | `Math.ceil(total / limit)`: the smallest n with n × limit ≥ total, 0 for no items |
| Reports.Slice | routes/reportRoutes.js:760-761 | `$skip` then `$limit` returns at most limit items |
| Reports.LowRotationPage | routes/reportRoutes.js:728-782 | the page fails iff skip is negative or limit not positive (the database refuses them); otherwise the skip/limit slice of the looked-up rows (at most limit of them), while totalItems and totalPages come from the separate count of the club's inventory records taken before the lookup, and currentPage is the requested page |
| Reports.PagesArePrefix | routes/reportRoutes.js:731 | pages 1..n together are the first n × limit items (also routes/reportRoutes.js:760-761) |
| Reports.PagesCoverAll | routes/reportRoutes.js:760-761 | walking pages 1 to totalPages lists every item exactly once, in order (also routes/reportRoutes.js:779) |
| Reports.GroupTotal | routes/reportRoutes.js:871-872 | with no group of the requested flag the total is 0 |
| Reports.GroupTotalIsFirst | routes/reportRoutes.js:871-872 | the total is that of the first group with the requested flag |
| Reports.ExpenseReportTotals | routes/reportRoutes.js:871-872 | totalExpenses comes from the non-previous group and previousTotalExpenses from the previous one |
| Reports.SplitOfTwoGroups | routes/reportRoutes.js:871-872 | on every shape the flag grouping can return (one group per flag in either order, one group, none), each total comes from its own group and an absent group gives 0 |
| Reports.FreshTable | routes/reportRoutes.js:1028-1045 | one zero entry per day of the range |
| Reports.IndexOf | routes/reportRoutes.js:1049 | `cashFlowMap.get(day)` finds an entry iff the day is in the range, and the entry found is that day's (also routes/reportRoutes.js:1059) |
| Reports.IndexOfDistinct | routes/reportRoutes.js:1034-1035 | with distinct day keys, each day finds its own entry |
| Reports.InflowPass | routes/reportRoutes.js:1048-1056 | the sales pass keeps the number of days |
| Reports.OutflowPass | routes/reportRoutes.js:1058-1066 | the expense pass keeps the number of days |
| Reports.DayTable | routes/reportRoutes.js:1028-1066 | one entry per day of the range |
| Reports.InflowPassMeaning | routes/reportRoutes.js:1048-1056 | a day of the range takes the amount and count of the last sales row for it and is marked as having data; without such a row it is unchanged, and rows for other days are ignored |
| Reports.OutflowPassMeaning | routes/reportRoutes.js:1058-1066 | the same on the outflow side |
| Reports.PassesBuildDayTable | routes/reportRoutes.js:1028-1066 | the two passes over the fresh table give each day the last sales and expense rows filed under it, zero otherwise |
| Reports.Nets | routes/reportRoutes.js:1071 | one net flow per day |
| Reports.WithBalances | routes/reportRoutes.js:1068-1076 | one entry per day, unchanged apart from its balance |
| Reports.BalanceRecurrence | routes/reportRoutes.js:1069-1076 | the first balance is the first day's net flow and each later balance adds that day's inflow - outflow to the previous one |
| Reports.RunningBalance | routes/reportRoutes.js:1069-1076 | the map that accumulates runningBalance gives day i the sum of inflow - outflow over days 0..i |
| Reports.CashFlow | routes/reportRoutes.js:1028-1093 | the data is the day table with running balances; totalInflow and totalOutflow sum only rows whose day is in the range, and netCashFlow = totalInflow - totalOutflow |
| Reports.DayAmounts | routes/reportRoutes.js:1048-1066 | one amount per day |
| Reports.LastRowNone | routes/reportRoutes.js:1049-1050 | with no row for a day, the day gets none |
| Reports.SumOfZeros | routes/reportRoutes.js:1030-1031 | a run of zeros sums to 0 |
| Reports.InRangeTotalIsDaySum | routes/reportRoutes.js:1048-1066 | with one row per day (as a per-day group gives), the in-range total is the sum of the table's column |
| Reports.SumDifferences | routes/reportRoutes.js:1071 | the sum of differences is the difference of the sums |
| Reports.NetsOfDayTable | routes/reportRoutes.js:1071 | a day's net flow is its sales amount minus its expense amount |
| Reports.FinalBalanceIsNet | routes/reportRoutes.js:1069-1093 | with one row per day, the last running balance equals netCashFlow, the in-range inflow minus the in-range outflow |
| JsStrings.TrimStart | routes/products.js:97 | the leading run of whitespace is removed and nothing else: the result is a suffix, not starting with whitespace, after only whitespace |
| JsStrings.TrimEnd | routes/products.js:97 | the trailing run of whitespace is removed and nothing else |
| JsStrings.TrimEmptyIff | routes/products.js:97 | `trim()` gives the empty string exactly when every character is whitespace (also routes/products.js:145) |
| JsStrings.NatToString | routes/dashboard.js:83 | a number prints as a non-empty run of digits with no leading zero |
| JsStrings.DecimalOfNatToString | routes/dashboard.js:83 | the printed digits of n have the value n |
| JsStrings.ParseIntOfIntToString | routes/reportRoutes.js:729-730 | `parseInt` reads back every integer `String` writes |
| JsStrings.ParseIntOfIntToStringThen | routes/dashboard.js:83 | a printed integer followed by text that cannot continue a numeral still parses back to that integer |
| UserModel.DefaultSuscripcion | models/User.js:5-15 | an empty subscription sub-document takes the schema defaults: a `prueba` plan starting now, with no expiry, 1 club, 2 employees, price 0 and the trial unused |
| UserModel.NewUser | models/User.js:17-38 | a new user has the given name, e-mail, password and subscription, no clubs or employees, no lock, `inventarioIdeal` 5 and onboarding not completed |
| UserModel.PlanRule | models/User.js:41-76 | the hook writes only the expiry, the limits and the price; a used trial and a plan without a branch are left alone; every other plan loses its expiry; an unused trial runs three days with the basic limits at no charge |
| UserModel.PlanTable | models/User.js:51-73 | the limits and monthly price of `basico`, `intermedio`, `premium` and the custom plan |
| UserModel.PlanRuleIdempotent | models/User.js:41-76 | running the hook twice gives what running it once gives |
| UserModel.EnumPlansReachOnlyTwoBranches | models/User.js:6 | a document that passes the plan enum can only reach the `prueba` and `basico` branches, so the in-memory `clubsExtra` never changes the outcome (also models/User.js:41-76) |
| UserModel.HookKeepsValid | models/User.js:17-38 | the hook never turns a valid document into an invalid one (also models/User.js:41-76) |
| UserModel.Saved | models/User.js:17-76 | what a successful save writes is a stored document (valid and a fixed point of the hook) that differs from the input only in its subscription |
| UserModel.SavedUnchangedSubscription | models/User.js:41-76 | re-saving a stored user whose subscription was not touched writes exactly the new field values |
| Accounts.ScheduleOf | models/Tienda.js:12-30 | a club's schedule has exactly the seven week days, each the supplied one or the default open 00:00-00:00 day |
| Accounts.ContactOf | models/Tienda.js:36-39 | a club's contact has exactly phone and e-mail, each the supplied value or "" |
| Accounts.Directory.SaveUser | models/User.js:17-76 | a user save succeeds exactly when the document validates and its e-mail is unused by another user; it then stores the hooked document, otherwise nothing changes; the collections stay valid |
| Accounts.Directory.SaveUserFields | models/User.js:17-76 | saving a stored user with the same subscription and e-mail cannot fail and stores exactly the new document |
| Accounts.Directory.SaveTienda | models/Tienda.js:17-43 | a club save succeeds exactly when it has a name and only enum payment methods; a failed save writes nothing |
| Accounts.Directory.SaveEmployee | models/Employee.js:5-21 | an employee save succeeds exactly when the required fields are present and the e-mail is unused by another employee |
| Accounts.Directory.SavePayment | models/Payment.js:5-11 | a payment save succeeds exactly when invoice id and amount are present and the status is `paid` or `failed`; it then appends the payment |
| SubscriptionModel.PreSaveRule | models/Subscription.js:50-83 | the hook refuses exactly a used trial; otherwise it changes only the limits, the price and, for a trial alone, the expiry (three days from the start) |
| SubscriptionModel.FixedPlans | models/Subscription.js:61-72 | the limits and price of the three fixed plans |
| SubscriptionModel.PreSaveIdempotent | models/Subscription.js:50-83 | a second save after an accepted one changes nothing |
| SubscriptionModel.CustomPlanDefaultCosts | models/Subscription.js:34-37 | with the default extra costs a custom plan costs 100 plus 50 per extra club plus 20 per extra employee (also models/Subscription.js:73-81) |
| SubscriptionModel.Subscription.PreSave | models/Subscription.js:50-83 | the hook on the document: it reports an error and changes nothing exactly when the rule refuses, and otherwise leaves the rule's terms |
| SubscriptionModel.NewTrial | models/Subscription.js:18-60 | saving a fresh subscription always succeeds and starts a three-day trial with the defaults |
| AuthMiddleware.FirstSegment | middlewares/auth.js:19 | the longest space-free prefix of the text after `Bearer `, which is the element `split(' ')[1]` picks |
| AuthMiddleware.TokenOf | middlewares/auth.js:19 | the token is the first segment after `Bearer `, or the whole header without that prefix |
| AuthMiddleware.BearerRoundTrip | middlewares/auth.js:19 | `Bearer t` yields `t` for every space-free token |
| AuthMiddleware.Authenticate | middlewares/auth.js:9-57 | no header gives NO_TOKEN; an expired token TOKEN_EXPIRED; any other verify error INVALID_TOKEN; a token for an unknown user USER_NOT_FOUND; otherwise the request passes with that user's id and e-mail |
| AuthMiddleware.PassMeansKnownUser | middlewares/auth.js:24-57 | a request passes exactly when its token decodes to a stored user, and then under that user's id |
| AuthMiddleware.PrefixDoesNotMatter | middlewares/auth.js:19 | a space-free token gives the same decision with or without the `Bearer ` prefix |
| SubscriptionRoutes.OrZero | routes/subscription.js:44-45 | `x \|\| 0` on a number: 0 when the field is missing, the value otherwise |
| SubscriptionRoutes.Requested | routes/subscription.js:36-55 | the subscription handed to `save()` carries the requested plan and starts now; a trial is marked used and keeps the previous expiry; any other plan loses its expiry; only the custom plan takes the requested extra employees; limits and price are carried over from the current (or default) subscription |
| SubscriptionRoutes.Update | routes/subscription.js:25-63 | unknown user gives 404; a trial asked by a user whose trial is used gives 400; a plan outside the user enum makes the save fail (500) and nothing is stored; otherwise the hooked subscription is stored and returned, and nothing else changes |
| SubscriptionRoutes.UpdateToBasico | routes/subscription.js:42-57 | switching to `basico` starts now with no expiry, 1 club, 2 employees and price 110 (also models/User.js:51-55) |
| SubscriptionRoutes.UpdateToUnpricedPlan | routes/subscription.js:42-57 | `medio` and `superior` pass the enum but have no branch in the hook, so they keep the previous limits and price (also models/User.js:6, models/User.js:41-76) |
| SubscriptionRoutes.TrialGrantSkipsHook | routes/subscription.js:49-51 | a trial granted here is marked used before the save, so the hook's trial branch never runs and the previous expiry, limits and price stay (also models/User.js:43-50) |
| SubscriptionRoutes.Cancel | routes/subscription.js:67-81 | a user without a subscription gives 404; otherwise the subscription with the expiry set to now, as the hook leaves it, is stored and returned |
| SubscriptionRoutes.CancelOutcomeByPlan | routes/subscription.js:74-75 | a cancellation takes effect only on a used trial and on plans without a branch; on `basico` the expiry is cleared again, on an unused trial it is put back to three days after the start (also models/User.js:41-76) |
| SubscriptionRoutes.CancelLostOnBasico | routes/subscription.js:74-75 | a concrete `basico` subscription that is cancelled and still has no expiry (also models/User.js:51-52) |
| SubscriptionRoutes.CancelCorrectedTakesEffect | routes/subscription.js:74-75 | with a hook that derives terms only when the plan changes, a cancellation sets exactly the expiry, and every plan change is priced as before (also models/User.js:41-76) |
| PaymentRoutes.StatusOr | routes/payment.js:19 | `status \|\| 'paid'`: a missing or empty status becomes `paid`, any other is kept |
| PaymentRoutes.Renewal | routes/payment.js:29-37 | the new expiry is 30 days after the current one when it has not passed, otherwise 30 days after now; it is never earlier than 30 days from now |
| PaymentRoutes.Create | routes/payment.js:10-49 | the payment is recorded exactly when it validates (otherwise 500 and nothing is written); only a paid payment by a user with a subscription then touches that user, storing the renewed subscription as the hook leaves it |
| PaymentRoutes.RenewalByPlan | routes/payment.js:25-41 | the extension survives the save on a used trial and on plans without a branch; on `basico` the hook clears it, on an unused trial it puts back the trial end (also models/User.js:41-76) |
| PaymentRoutes.TwoRenewals | routes/payment.js:29-37 | two payments made while the subscription is live extend it by 60 days |
| UserRoutes.Attempt | routes/user.js:63-99 | while locked an attempt is refused and nothing moves; a right password clears counter and lock; a wrong one counts (from 0 after an expired lock), is answered 400 below five failures and 429 with a five-minute lock at the fifth |
| UserRoutes.FiveFailuresLock | routes/user.js:80-91 | from a clear state four wrong passwords are each answered 400 and leave no lock; the fifth is answered 429 and locks for five minutes from its own time |
| UserRoutes.UnlockFirst | routes/user.js:71-76 | clearing an expired lock before the password check gives the same response and document as not clearing it |
| UserRoutes.ChangePassword | routes/user.js:53-107 | mismatched new passwords give 400 and an unknown user 404, with nothing written; otherwise the response and the stored user are those the attempt machine decides, a throwing comparison included |
| UserRoutes.ChangeFound | routes/user.js:63-100 | on a found user the handler's response and stored document are those the attempt machine decides; when the comparison throws, the expired lock it cleared stays saved |
| UserRoutes.CheckCurrent | routes/user.js:78-100 | on an unlocked user, the password check and its counter update give the attempt machine's outcome; a throwing comparison or a hashing failure gives 500 and leaves the stored user unchanged |
| UserRoutes.CompareErrorCountsNothing | routes/user.js:78-79 | when the comparison throws, the answer is 500 (429 while locked), the password is kept and no attempt is counted; only an expired lock is cleared, with its counter |
| UserRoutes.UpdateProfile | routes/user.js:112-129 | name, e-mail and main club are overwritten with the request's values; a missing or empty name or e-mail, or an e-mail another user holds, makes the save fail and nothing changes |
| EmployeeRoutes.CheckLimit | routes/employee.js:60-84 | an unknown owner gives 401 and an owner without a subscription a server error; otherwise the report counts the owner's employees against the plan's maximum plus its extras and flags the limit exactly when the count has reached it |
| EmployeeRoutes.FinalRole | routes/employee.js:115-122 | role `nuevo` is replaced by the requested new role; any other role is kept |
| EmployeeRoutes.Refusal | routes/employee.js:105-122 | a request is accepted exactly when name, e-mail, role and club are given, the club is one of the owner's, and the final role is not empty |
| EmployeeRoutes.Create | routes/employee.js:86-156 | unknown owner 401; no subscription 500; an owner at the limit 400 before any field is looked at; a refused request 400 with its message; a taken e-mail 500; otherwise the employee is stored with the hashed temporary password, its id is appended to the owner's list, and the plain password is returned; nothing else changes (also models/Employee.js:5-29) |
| EmployeeRoutes.StatusOf | routes/employee.js:165 | an employee is shown `Pendiente` exactly when it has never signed in and never changed its password, and `Activo` otherwise |
| EmployeeRoutes.TempPasswordOf | routes/employee.js:176-195 | only the owner sees an employee's temporary password, and only until the employee has changed it |
| EmployeeRoutes.GoalOf | routes/employee.js:287 | `salesGoal \|\| 10000`: a zero or missing goal shows as 10000, any other goal as itself |
| EmployeeRoutes.NewEmployeeDefaults | routes/employee.js:128-139 | a newly created employee is pending and shows the schema's default goal of 1000 (also routes/employee.js:165, routes/employee.js:287, models/Employee.js:15-18) |
| ClubRoutes.CreateClub | routes/club.js:23-63 | a missing user or subscription gives 500; a user at the club limit (plan maximum plus extra clubs) gets 403; unparsable JSON fields or a club failing its validators give 500 with nothing written; otherwise the club is stored with the schema defaults, appended to the user's clubs, and made principal only when the user had none (also models/Tienda.js:17-43) |
| ClubRoutes.ClubSummary | routes/club.js:116-145 | a club the user does not own gives 404; otherwise sales and expenses are the group totals (0 when there is no row) and the net total is their difference |
| ClubRoutes.Overwrite | routes/club.js:167-168 | a missing or empty value keeps the field; any other value replaces it |
| ClubRoutes.MergeContact | routes/club.js:171-174 | the merged contact keeps exactly phone and e-mail; supplied keys win and the others keep their stored value (also models/Tienda.js:36-39) |
| ClubRoutes.DayOf | routes/club.js:180-189 | a supplied day keeps its `closed` flag and has ranges only when it is open and gives some |
| ClubRoutes.ApplyDaysMeaning | routes/club.js:179-191 | the day loop keeps the club's set of days and rewrites exactly the days named so far; days the club has no entry for are ignored |
| ClubRoutes.ApplyAllDays | routes/club.js:179-191 | whatever order the request's days come in, the loop builds the same schedule |
| ClubRoutes.UpdateSchedule | routes/club.js:177-192 | the loop computes the merged schedule: each stored day the request names is rewritten, the others stay |
| ClubRoutes.FilterMethods | routes/club.js:195-198 | the filter never grows the list, keeps exactly the enum payment methods that were given (and a list of only enum values unchanged) |
| ClubRoutes.FilterMethodsAppend | routes/club.js:197 | the filter keeps order: filtering a concatenation is concatenating the filtered parts |
| ClubRoutes.UpdateClub | routes/club.js:151-213 | a club the user does not own gives 404 and nothing changes; a contact or schedule that fails to parse, or payment methods that fail to parse or are not an array, give 500 with nothing saved; otherwise the stored club is replaced by the updated one and only the club collection changes |
| OnboardingRoutes.StrOr | routes/onboarding.js:24-27 | `s \|\| fallback` on a string: the fallback for a missing or empty value, the value otherwise |
| OnboardingRoutes.IntOr | routes/onboarding.js:33 | `n \|\| fallback` on a number: the fallback for a missing or zero value, the value otherwise (also routes/onboarding.js:50) |
| OnboardingRoutes.PreferenceDefaults | routes/onboarding.js:23-28 | with nothing given, the preferences are MXN, 09:00-18:00, no notifications and the light theme |
| OnboardingRoutes.InventarioIdealOf | routes/onboarding.js:33 | the inventory target is the requested number of days, or 5 when it is missing or zero |
| OnboardingRoutes.PrincipalOf | routes/onboarding.js:40-60 | the principal club comes from step 1 for `principal`, from the additional club's data for `adicional` with such data, and there is none otherwise |
| OnboardingRoutes.Onboard | routes/onboarding.js:12-109 | no store name gives 400; an unknown user 404; a missing step 2 a server error, all with nothing written; no principal club choice 400; when the principal club is saved it stays saved even if a later step refuses (no room for the additional club gives 400, an invalid club or inventory target 500); on success the user gets the principal club, the new clubs appended, the answers and the completion flag |
| OnboardingRoutes.Finish | routes/onboarding.js:68-90 | after the principal club, the additional club is refused when the plan allows a single club, and otherwise both clubs are appended and the onboarding marked complete, provided the user still validates |
| OnboardingRoutes.AdicionalPrincipalDuplicates | routes/onboarding.js:52-59 | choosing `adicional` as principal builds the principal from the same data as the additional club, so that club is created twice when the plan allows more (also routes/onboarding.js:74-84) |
| AuthRoutes.FirstLine | routes/auth.js:15 | the part of a string the lookaheads `(?=.*x)` can look at: the longest prefix free of line terminators |
| AuthRoutes.ValidPasswordSingleLine | routes/auth.js:14-17 | on a single line the password rule is at least 8 characters with a digit and one of `!@#$%^&*` anywhere |
| AuthRoutes.SecondLineDoesNotCount | routes/auth.js:15-16 | a digit and a symbol after a line break do not satisfy the rule |
| AuthRoutes.DotRunMeaning | routes/auth.js:51 | the scan after an `@` succeeds exactly when a usable `.` follows it within the same non-blank run |
| AuthRoutes.EmailScanMeaning | routes/auth.js:51 | the scan from a position succeeds exactly when the pattern matches with its `@` at or after that position |
| AuthRoutes.EmailScanIsRegex | routes/auth.js:51-52 | the scan decides exactly the unanchored `/\S+@\S+\.\S+/` |
| AuthRoutes.EmailExample | routes/auth.js:51 | `a@b.c` is accepted and `a@.c` refused |
| AuthRoutes.Refusal | routes/auth.js:44-60 | a registration is accepted exactly when both names have at least 2 characters, the e-mail matches, the password follows the rule and the terms are accepted; the first failing check, in that order, gives the message |
| AuthRoutes.RegistrationTrialIsThreeDays | routes/auth.js:69-81 | the requested 7-day trial is stored as the hook's 3-day trial with 1 club, 2 employees and no charge (also models/User.js:43-50) |
| AuthRoutes.Register | routes/auth.js:39-92 | a refused request gives its message; a used e-mail gives 400 only after all four checks pass; otherwise the new user is stored as the hook leaves it; nothing else changes |
| AuthRoutes.Login | routes/auth.js:95-117 | login succeeds exactly when some user has the e-mail and the password matches, and returns that user's id and principal club; an unknown e-mail and a wrong password get the same answer |
| AuthRoutes.ForgotPassword | routes/auth.js:120-140 | an unknown e-mail gives 400 and no token; otherwise a token for that user, expiring in one hour, is stored and returned; a fresh token string keeps the token strings distinct |
| AuthRoutes.WithPassword | routes/auth.js:153 | the update writes the new hash and time to that user alone, without validators or hooks; a missing user is a no-op |
| AuthRoutes.ResetPassword | routes/auth.js:143-161 | an unknown or expired token gives 400; a hashing failure 500, both with nothing written; otherwise the token's user gets the new hash and the token document is deleted, so with distinct strings the same token is refused next time |
| AuthRoutes.UseToken | routes/auth.js:152-155 | the success path writes the password to the token's user and deletes exactly that token document |
| ClientsRoutes.ParseClientType | models/Client.js:9 | each of the three enum strings names its type, and only it |
| ClientsRoutes.Refusal | routes/clients.js:20-28 | a request is accepted exactly when it has a name, an e-mail or a phone, and a club; otherwise the first failing check in that order gives the message (also routes/clients.js:113-121) |
| ClientsRoutes.CreateClient | routes/clients.js:15-47 | a refused request gives its message; a type outside the enum makes the save fail (500); otherwise the new client (type `regular` by default, no spending, no visits, no purchase) is stored under the new id; nothing is written on any refusal (also models/Client.js:4-15) |
| ClientsRoutes.UpdateClient | routes/clients.js:109-140 | a refused request gives its message; a client that does not exist or belongs to another club gives 404; otherwise name, the given contact fields and the given type replace the stored ones |
| ClientsRoutes.Best | routes/clients.js:80-88 | the reduction ends on the first client of largest key when that key is positive, and on the initial `{}` (no winner) exactly when no key is positive |
| ClientsRoutes.CountRegular | routes/clients.js:78 | the number of frequent clients is the number of times `regular` occurs among the clients' types, at most the number of clients |
| ClientsRoutes.CountRegularAppend | routes/clients.js:78 | counting regular clients is additive over concatenation |
| ClientsRoutes.CountRegularAll | routes/clients.js:77-78 | every client counts as frequent exactly when every client is `regular` |
| ClientsRoutes.Latest | routes/clients.js:90-94 | the latest purchase date is one of the clients' dates and no earlier than any of them; there is none exactly when no client has one |
| ClientsRoutes.NoKpiWinner | routes/clients.js:80-100 | with no spending and no visits there is neither a best nor a frequent client |
| ClientsRoutes.TieGoesToFirst | routes/clients.js:81-83 | a client with the same total as an earlier one is never the best client |
| ClientsRoutes.ViewOf | routes/clients.js:177-196 | an item is shown with its product's name and flavour (`Sin sabor` when the flavour is empty or missing), or as `Desconocido` when the product is missing |
| ClientsRoutes.ViewsOf | routes/clients.js:190-196 | the labelled items are the items, one for one, in order |
| ClientsRoutes.ViewsOfAppend | routes/clients.js:188-199 | labelling distributes over concatenation |
| ClientsRoutes.RestrictedLookup | routes/clients.js:162-183 | looking products up only among the ids the sales name changes no label |
| ClientsRoutes.FlattenSale | routes/clients.js:186-200 | the nested loops produce the labelled items of every group, in order |
| ClientsRoutes.History | routes/clients.js:185-207 | each sale of the history is shown with its own flattened, labelled items, in the order the sales were found |
| ClientsRoutes.HistoryCountsItems | routes/clients.js:186-200 | a sale shows as many items as its groups hold together |

## Left out

- `services/reportGenerators.js` (PDF and spreadsheet rendering) is not part of this model; it
  only formats data the report routes already computed.
- MongoDB aggregation pipelines (`aggregate`, `$group`, `$lookup`) are not modelled. Their
  results are inputs of the functions that post-process them.
- Calendar and time-zone arithmetic is not modelled, because it depends on the server's clock
  and `Date` library. This covers `getWeekDates` and `getPeriodDates` (`routes/reportRoutes.js:43-123`),
  the cash-flow period offsets (`routes/reportRoutes.js:899-927`) and the dashboard's weekly
  bounds (`routes/dashboard.js:114-131`). The windows and day lists they produce are inputs.
- ExpensesRoutes.CategoryTotals: a category named after a property that every object inherits
  from `Object.prototype` (`constructor`, `toString`, `__proto__` and the like) is not modelled.
  There `!categoryTotals[cat]` is false, so `+=` concatenates onto the inherited value, and
  assigning to `__proto__` loses the amount. The model adds every category as an own numeric
  property, as it does for any other name.
- Floating point is not modelled: the growth ratios (beyond the zero case), `inflowChange`,
  `outflowChange`, `averageExpense` and the top category's percentage are left out.
- InventoryRoutes.PurchaseExpense: the purchase amount is `quantity * parseFloat(purchasePrice)`; the
  model takes the price as an integer, so a fractional price is not modelled.
- bcrypt, `jwt.sign`, `jwt.verify` and `crypto.randomBytes` are parameters (a boolean, a verdict
  function, a given token). Cryptographic strength is out of scope.
- AuthRoutes.Login: the password comparison is a plain boolean, so a `bcrypt.compare` that throws
  at login (answered with 500) is not modelled; the password change models that case.
- The tokens that login, registration and onboarding return are not modelled; they come from `jwt.sign`.
- Concurrency is not modelled. Handlers run one at a time, so the model does not capture the
  lost updates their read-modify-write sequences allow under concurrent requests.
- `server.js` (wiring, CORS, database connection) is not part of this model.
- The image upload of `routes/club.js:11-21` (multer) is not modelled; the image is an optional
  string. Its filename callback uses `path` without importing it.
- Invalid ObjectIds (Mongoose `CastError`, answered with 500) are not modelled, because ids are abstract values.
- Populated references (`populate`) are modelled only where a handler reads a populated field;
  elsewhere a dangling reference is not modelled. The low-rotation page's `$lookup` drops
  records whose product is gone while its pagination count includes them; the model takes the
  rows after the lookup and the count as two inputs.
- ClientsRoutes.UpdateClient: `findOneAndUpdate` stores `type` without enum validation; the model
  types it as `ClientType`, so an out-of-enum type stored this way is not modelled.
- ClientsRoutes.UpdateClient: a field left out of the request keeps its stored value, which
  assumes Mongoose 7 or later, where the update casting strips `undefined` from `$set`; older
  versions write `null` to such a field, and that behaviour is not modelled.
- ClientsRoutes.History: the date filter of `routes/clients.js:153-158` is applied by the
  database; the model takes the already filtered sales as input.
- AuthRoutes.ResetPassword: `findOne` with two equal live tokens picks one of them; the model
  picks any matching entry and states the exact result only under `TokensDistinct`.
- AuthRoutes.Refusal: lengths count Unicode scalar values, while JavaScript's `length` counts
  UTF-16 code units, so the two differ on characters outside the Basic Multilingual Plane.
- SalesRoutes.PostSale: a request group without an `items` array is not modelled; every group
  carries a list. In the source the sale is then saved with an empty group, and the loop throws
  on `group.items` with 500 after the earlier groups' items were processed.
- ProductsRoutes.Search: which trimmed queries are valid regular expressions, and which names they
  match, is a parameter, because regular-expression syntax and case-insensitive matching are not modelled.
- The payment history of `models/Subscription.js` is not modelled; no core handler reads it.
- UserModel.PlanRule: the `personalizado` branch's arithmetic on an unset `clubsExtra` (NaN) is
  not modelled, because the enum makes that branch unreachable.
- The inventory collection has no unique index on (product, club); the model keys records by
  that pair and so does not capture duplicate records.
- Assigning `undefined` to a path is modelled as unsetting it, as Mongoose 6 does on save.
- Read-only handlers are not modelled. They return stored documents with no logic of their own:
  - `GET /me` in `routes/auth.js:19`, `routes/user.js:10`, `routes/subscription.js:9` and `routes/club.js:65`;
  - `GET /clubs` and `GET /:userId` (`routes/user.js:31`, `routes/user.js:133`);
  - the lists `routes/clients.js:51`, `routes/payment.js:53`, `routes/club.js:81`, `routes/expenses.js:91`;
  - `routes/employee.js:31` (clubs), `routes/employee.js:197` (sales);
  - `routes/employee.js:158`, of which only the status mapping is modelled;
  - `routes/employee.js:275` (performance), of which only the goal default is modelled;
  - the club goal reads `routes/club.js:215` and `routes/club.js:232`;
  - `routes/dashboard.js:259` (recent sales), `routes/expenses.js:172` (chart data);
  - `routes/inventory.js:9` (inventory of a club);
  - `routes/products.js:285` (products of a club), `routes/products.js:321-382` (expense search);
  - `routes/reportRoutes.js:15` (clubs), `routes/reportRoutes.js:125` (financial summary);
  - the `GET` handlers of `routes/sales.js:88`, `routes/sales.js:115` and `routes/sales.js:158`.
- Of `routes/reportRoutes.js`, the products report beyond its pagination and the expenses report
  beyond its totals split are not modelled; the rest of both is aggregation.
- Update handlers that copy the request body into a document with no rule of their own are not
  modelled: the second `PUT /me` (`routes/user.js:150-168`), which the first one shadows; the
  employee `PATCH` (`routes/employee.js:242`, `Object.assign`); the employee goal `PATCH`
  (`routes/employee.js:330`); the product `PUT` (`routes/products.js:262`); the club goal `PUT`
  (`routes/club.js:249`), which writes `metaMensual` with `findByIdAndUpdate` and checks neither
  the caller's ownership of the club nor the value.

## Findings

| source | as written | input that shows it | evidently intended | confidence | as-written member | corrected member |
|---|---|---|---|---|---|---|
| routes/reportRoutes.js:517, routes/reportRoutes.js:584 | `daysDiff` is declared inside `case 'custom'` of the switch and read outside it, so the grouping step throws a `ReferenceError` and the response is 500 | `period=custom` and one sales row | a custom period answers without error; because the result-building step has no custom branch, the answer is an empty trend | not executed | `Reports.SalesTrend` | `Reports.SalesTrendCorrected` |
| routes/subscription.js:74-75, models/User.js:51-52 | the cancel handler saves the user, the save re-runs the plan hook, and on `basico` the hook resets the expiry, so the cancellation is lost | a `basico` subscription cancelled at time 1000 | cancelling sets the expiry to the cancellation time | not executed | `SubscriptionRoutes.CancelLostOnBasico` | `SubscriptionRoutes.CancelCorrectedTakesEffect` |
