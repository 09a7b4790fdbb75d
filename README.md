# Inventory production planner — a Dafny model

The system keeps raw materials with a stock count and products with a price and a recipe
(the `composition`: a list of material and per-unit quantity pairs). It plans production
by visiting products from the most to the least valuable and building as many units of
each as the remaining stock allows. The plan is computed twice, by two separate programs:

- the web client's **production simulator** (`ProductionSimulator.tsx`). It works on the
  product list as normalized by `useProducts.ts`. It seeds a stock dictionary from the
  material records nested in the products, drops products without a recipe and sorts the
  rest by value. For each product it takes the minimum of `floor(available / required)`
  over the recipe lines, then subtracts what it builds;
- the server's **`ProductionService.calculateProduction`**. It sorts the products by value
  and loads every material's stock into a map. Then it builds one unit at a time for as
  long as every recipe line has a material and enough stock.

The model also covers:

- `Product.addMaterial`, the only way a recipe grows;
- the dashboard figures: totals, the low-stock alerts and the five-entry lists;
- the two Redux reducers that hold the client's material and product lists.

## Layout

| file | module | contents |
|---|---|---|
| `optional.dfy` | `Optional` | `Option` for the values that may be `undefined` or `null` |
| `sequences.dfy` | `Sequences` | filter, map, the subsequence relation and a stable descending sort |
| `allocation.dfy` | `Allocation` | the allocator both programs implement: `Limit` (min of floors, `Unbounded` for Infinity), `Quantity`, `Consume`, `Plan`/`Run` over a product sequence, and `Allocate` (filter, sort, plan) |
| `use_products.dfy` | `UseProducts` | the normalizer in `useProductsWithMaterials` |
| `production_simulator.dfy` | `ProductionSimulator` | the simulator as methods with loops, proved equal to `Allocate`; the unit total, badges and empty-state message |
| `product.dfy` | `InventoryModel` | the server entities; `Product` is a class whose `AddMaterial` appends in place |
| `production_service.dfy` | `ProductionService` | the server planner as methods with loops; its unit-at-a-time loop is proved equal to the min of floors, and its whole plan equal to `Allocate` |
| `dashboard.dfy` | `Dashboard` | the dashboard expressions |
| `materials_slice.dfy`, `products_slice.dfy` | `MaterialsSlice`, `ProductsSlice` | each reducer as a class with `list`/`status` fields and a `Reduce` method, plus lemmas over whole action histories |

Prices are integer cents and stock and per-unit quantities are integers. The
simulator's stock dictionary and the service's `stockMap` are both `map<int, int>`. A
missing entry reads as 0, as `|| 0` and `getOrDefault(…, 0)` do.

Each method is proved against a function. `Simulate` computes
`MapSeq(Schedule(ps), SuggestionOf)`, where `Schedule` is `Allocate` over the normalized
products and the dictionary seeded from them. `CalculateProduction` computes
`ServiceItems` over the sorted products. The lemma `ServiceMatchesAllocator` shows that
these items are `Allocate` over the server's own inputs (its product records and the
stock map loaded from the material records) whenever every recipe is clean: positive
quantities, no null material, no material twice. So each program is the same allocator,
each applied to its own inputs; no lemma relates the server's inputs to the client's
normalized products and seeded dictionary.

### Preconditions and why

- **Per-unit quantities are at least 1.** This is `UsableRow` on the client and
  `PositiveComposition` on the server. A line of quantity 0 behaves differently on the two
  sides. The server always sends `quantityRequired` (a `double`, 0 when unset) and never
  sends `quantity`. So on the client the falsy 0 falls back to the missing `quantity` and
  arrives as `undefined` (`QuantityFieldNames`). Then `floor(stock / undefined)` is `NaN`,
  `Math.min` passes the `NaN` on, and the product is never suggested, whatever the stock.
  On the server, such a line passes the check and takes nothing, so it never limits the
  count. The loop still ends as soon as another line runs short. It runs forever only
  when every line passes the check while none takes any stock.
- **Undefined material ids are kept.** A client row without a nested material has an
  undefined `raw_material_id`, so it is filed under the dictionary key `"undefined"`,
  which is `UndefinedKey` here. `UnlinkedSkipped` shows that such a product is never
  suggested when no unlinked row carries a stock, which is the case for everything the
  normalizer produces (`NormalizeUnlinked`).
- **Distinct materials within one recipe.** This is needed only for the lemmas about
  stock staying non-negative and for the agreement of the two programs. With a repeated
  material, both programs check each line against the same stock and can then drive it
  negative. They also diverge: the client takes the floor of each line separately, while
  the server re-checks after every unit.
- **A consistent snapshot.** All nested copies of a material carry the same stock. This
  is needed only by `SeedExact`, because the seeding keeps the first non-zero copy.
- **Infinity.** `Math.min(Infinity, …)` is modelled by `Bound.Unbounded`. It arises only
  for an empty recipe, which the filter removes before the loop.

## Model

| member | source | states |
|---|---|---|
| Allocation.Limit | web/src/pages/ProductionSimulator.tsx:54-59 | Unbounded exactly when the recipe is empty; otherwise a value no larger than any line's `floor(available / required)` and equal to one of them, so it is the minimum of floors, with an absent material counting as 0 |
| Allocation.LimitPositive | web/src/pages/ProductionSimulator.tsx:58-68 | for a non-empty recipe, the minimum of floors is at least 1 exactly when every line's stock covers its quantity |
| Allocation.Quantity | web/src/pages/ProductionSimulator.tsx:68 | the producible count is positive exactly when the recipe is non-empty and every line is covered, and it then equals the minimum of floors |
| Allocation.ConsumeAvailable | web/src/pages/ProductionSimulator.tsx:69-72 | after subtracting k units, each material has lost (sum of its quantities in the recipe) × k, and a material outside the recipe keeps its stock |
| Allocation.ConsumeKeys | web/src/pages/ProductionSimulator.tsx:69-72 | subtracting adds exactly the recipe's materials to the dictionary's keys |
| Allocation.ConsumeAdd | api/src/main/java/br/com/brunoeloi/inventory/service/ProductionService.java:56-59 | taking a units and then b units leaves the same stock as taking a + b units at once |
| Allocation.LimitShift | api/src/main/java/br/com/brunoeloi/inventory/service/ProductionService.java:38-61 | when every line's material drops by exactly its quantity, the minimum of floors drops by exactly 1 |
| Allocation.UsedDistinct | web/src/pages/ProductionSimulator.tsx:69-72 | in a recipe without repeated materials, a line's material is used by exactly that line's quantity |
| Allocation.ConsumeDistinct | web/src/pages/ProductionSimulator.tsx:69-72 | with distinct materials, every listed material loses exactly quantity × k, and all other materials are unchanged |
| Allocation.Maximal | web/src/pages/ProductionSimulator.tsx:54-72 | after building the computed count, one more unit cannot be built |
| Allocation.StepNonNegative | web/src/pages/ProductionSimulator.tsx:58-72 | with distinct materials and non-negative stock, building the computed count leaves every stock non-negative |
| Allocation.Plan | web/src/pages/ProductionSimulator.tsx:53-83 | every planned build has a positive recipe and at least one unit, and its count equals the minimum of floors over the stock at the moment it is planned |
| Allocation.RunStep | web/src/pages/ProductionSimulator.tsx:68-72 | visiting one more product moves each material's stock by its use in that recipe times the units built: a skipped product changes nothing, and a built one changes only the materials its recipe names |
| Allocation.DepletedMaterial | web/src/pages/ProductionSimulator.tsx:57-72 | a material with no positive stock keeps its stock through the whole pass, and no planned build names it in its recipe |
| Allocation.PlanSubseq | web/src/pages/ProductionSimulator.tsx:53-83 | the planned products are a subsequence of the visited products, in visiting order |
| Allocation.Conservation | web/src/pages/ProductionSimulator.tsx:69-72 | each material's final stock is its initial stock minus what all planned builds consume of it |
| Allocation.RunNonNegative | web/src/pages/ProductionSimulator.tsx:69-72 | with distinct materials per recipe and non-negative initial stock, no stock goes negative over a whole plan |
| Allocation.StockSuffices | web/src/pages/ProductionSimulator.tsx:53-83 | with distinct materials per recipe, what the whole plan consumes of a material never exceeds its initial stock |
| Allocation.PlanMaximal | web/src/pages/ProductionSimulator.tsx:54-72 | every planned build is maximal: the stock it leaves cannot build one more unit of it |
| Allocation.PlanSkipsEmpty | web/src/pages/ProductionSimulator.tsx:47-48 | removing the products without a recipe first changes neither the plan nor the final stock |
| Allocation.AllocateOrder | web/src/pages/ProductionSimulator.tsx:47-49 | suggestions come in non-increasing price order, and products of equal price keep their input order |
| Allocation.PrioritizedFromInput | web/src/pages/ProductionSimulator.tsx:47-48 | every product that reaches the loop is an input product with a non-empty recipe |
| Allocation.AllocateFromInput | web/src/pages/ProductionSimulator.tsx:47-83 | every suggestion is for an input product with a non-empty recipe, and its count is at least 1; an empty recipe never yields a suggestion |
| Allocation.TotalNonNegative | web/src/pages/ProductionSimulator.tsx:85 | with non-negative prices the grand total is non-negative |
| Allocation.ScenarioSingleProduct | web/src/pages/ProductionSimulator.tsx:53-85 | a 100.00 product needing 2 of a material with 20 in stock gets 10 units and a total of 1000.00 |
| Allocation.ScenarioSharedMaterial | web/src/pages/ProductionSimulator.tsx:47-83 | two products sharing a material: the more valuable one takes all of it (5 units) and the cheaper one gets no suggestion |
| Allocation.ScenarioMissingMaterial | web/src/pages/ProductionSimulator.tsx:57 | a material absent from the dictionary reads as 0, so its product gets no suggestion |
| Sequences.SortSorted | web/src/pages/ProductionSimulator.tsx:49 | the value sort is a permutation of its input and is ordered by non-increasing value |
| Sequences.SortStable | api/src/main/java/br/com/brunoeloi/inventory/service/ProductionService.java:19 | the value sort keeps the input order among products of equal value |
| Sequences.SortFilter | web/src/pages/ProductionSimulator.tsx:47-49 | filtering before sorting gives the same list as sorting before filtering |
| UseProducts.NormalizeShape | web/src/hooks/useProducts.ts:51-67 | the normalized list has the input's length and order; id, name, code and value are copied; each row is the normalized form of the chosen recipe entry at the same position |
| UseProducts.RecipeFieldNames | web/src/hooks/useProducts.ts:56 | a recipe under `materials` or under `composition` normalizes the same; an empty `materials` array is truthy and hides `composition`; with neither field the recipe is empty |
| UseProducts.QuantityFieldNames | web/src/hooks/useProducts.ts:59 | a non-zero quantity under `quantityRequired` or under `quantity` normalizes the same; a `quantityRequired` of 0 is falsy and falls back to `quantity`; a positive `quantityRequired` is kept |
| UseProducts.MaterialFields | web/src/hooks/useProducts.ts:60-65 | the row's material id, nested id, name and stock come from `rawMaterial` and are all undefined when it is missing; `active` is never set |
| UseProducts.NormalizeServerRecord | web/src/hooks/useProducts.ts:51-67 | normalizing the record the server sends for a product gives back that product |
| ProductionSimulator.ItemsOfSorted | web/src/pages/ProductionSimulator.tsx:47-49 | filtering and sorting the normalized products, then reading them as allocator input, equals reading them first and then filtering and sorting |
| ProductionSimulator.SeedExact | web/src/pages/ProductionSimulator.tsx:38-45 | with a consistent snapshot, the seeded dictionary holds each mentioned material's stock, and an unmentioned material reads as 0 |
| ProductionSimulator.TrackerKey | web/src/pages/ProductionSimulator.tsx:41-42 | two rows share a dictionary entry exactly when their material ids are equal, an undefined id included, and only an undefined id is filed under the "undefined" key |
| ProductionSimulator.NormalizeUnlinked | web/src/hooks/useProducts.ts:60-64 | the normalizer leaves the stock undefined on every row whose material id is undefined |
| ProductionSimulator.AllRowsFrom | web/src/pages/ProductionSimulator.tsx:39-40 | every row the seeding visits belongs to one of the products |
| ProductionSimulator.SeedUndefined | web/src/pages/ProductionSimulator.tsx:38-45 | when no unlinked row carries a stock, the seeded "undefined" entry reads as 0 |
| ProductionSimulator.UnlinkedSkipped | web/src/pages/ProductionSimulator.tsx:56-68 | when no unlinked row carries a stock, no suggestion is made for a product that has a row without a nested material |
| ProductionSimulator.SeedProduct | web/src/pages/ProductionSimulator.tsx:40-44 | the inner loop over one product's rows seeds exactly as the seeding function describes, starting from the dictionary it is given |
| ProductionSimulator.SeedTracker | web/src/pages/ProductionSimulator.tsx:38-45 | the nested loops seed the dictionary as the seeding function describes: a row writes its stock unless the entry already holds a non-zero number |
| ProductionSimulator.Capacity | web/src/pages/ProductionSimulator.tsx:54-66 | the loop over the recipe computes the minimum of floors (Unbounded for an empty recipe) and the material breakdown, reading an unlinked row's entry under the "undefined" key |
| ProductionSimulator.Subtract | web/src/pages/ProductionSimulator.tsx:69-72 | the loop subtracts quantity × count for every recipe line |
| ProductionSimulator.SumValues | web/src/pages/ProductionSimulator.tsx:85 | the reduce adds up the suggestions' total values into the plan's grand total |
| ProductionSimulator.Simulate | web/src/pages/ProductionSimulator.tsx:35-88 | no products gives no suggestions and total 0; otherwise the suggestions are the allocator's schedule over the normalized products, and the total is the sum of their values |
| ProductionSimulator.UsesOfIndex | web/src/pages/ProductionSimulator.tsx:56-66 | the breakdown has one entry per recipe line, carrying the line's name, its quantity and the stock available before the product is built |
| ProductionSimulator.SuggestionOfBuild | web/src/pages/ProductionSimulator.tsx:74-81 | a suggestion's count is at most every line's `floor(available / required)` and equals one of them |
| ProductionSimulator.SuggestionsSound | web/src/pages/ProductionSimulator.tsx:68-81 | every suggestion has at least one unit, a total value of units × price and a non-empty breakdown, and its count is the minimum of floors over its breakdown |
| ProductionSimulator.SuggestionsOrdered | web/src/pages/ProductionSimulator.tsx:47-49 | suggestions come in non-increasing product value order |
| ProductionSimulator.BadgeOfSuggestion | web/src/pages/ProductionSimulator.tsx:229 | for a suggestion whose count is the minimum of floors, each material's displayed amount (quantity × count) is positive and at most the stock shown for it |
| ProductionSimulator.BadgeWithinAvailable | web/src/pages/ProductionSimulator.tsx:229 | across all suggestions, every displayed material amount is positive and at most the stock shown beside it |
| ProductionSimulator.TotalUnitsAtLeastCount | web/src/pages/ProductionSimulator.tsx:134 | the total-units card is at least the number of suggestions |
| ProductionSimulator.EmptyStateSound | web/src/pages/ProductionSimulator.tsx:252-256 | the no-products and needs-materials messages are chosen only when there can be no suggestion; the stock message is chosen for a loaded list exactly when some product has a recipe |
| ProductionSimulator.ScenarioExpensiveProduct | web/src/pages/ProductionSimulator.test.tsx:47-80 | one product at 100.00 needing 2 of a material with 10 in stock yields one suggestion of 5 units worth 500.00 |
| ProductionSimulator.ScenarioNoProducts | web/src/pages/ProductionSimulator.test.tsx:82-93 | an empty product list yields no suggestion and the no-products message |
| InventoryModel.Product.constructor | api/src/main/java/br/com/brunoeloi/inventory/model/Product.java:15-21 | a new product has a null name and code, a value of 0 and an empty composition |
| InventoryModel.Product.AddMaterial | api/src/main/java/br/com/brunoeloi/inventory/model/Product.java:23-29 | appends exactly one entry, owned by this product, with the material and quantity as given; earlier entries and the other fields are unchanged |
| InventoryModel.AddTwice | api/src/main/java/br/com/brunoeloi/inventory/model/Product.java:23-29 | adding the same material twice gives two identical entries; there is no de-duplication |
| InventoryModel.CakeRecipe | api/src/test/java/br/com/brunoeloi/inventory/service/ProductionServiceTest.java:40-45 | two `addMaterial` calls give the two entries in call order |
| ProductionService.StockMapLast | api/src/main/java/br/com/brunoeloi/inventory/service/ProductionService.java:22-25 | a material's planned stock is that of the last record with its id |
| ProductionService.StockMapAbsent | api/src/main/java/br/com/brunoeloi/inventory/service/ProductionService.java:45 | an id that no material record carries reads as 0 |
| ProductionService.LoadStock | api/src/main/java/br/com/brunoeloi/inventory/service/ProductionService.java:21-25 | the loop builds the stock map described by `StockMap` |
| ProductionService.UnitPossibleMeans | api/src/main/java/br/com/brunoeloi/inventory/service/ProductionService.java:39-51 | the check passes exactly when no line has a null material and every line's stock covers its quantity |
| ProductionService.CheckUnit | api/src/main/java/br/com/brunoeloi/inventory/service/ProductionService.java:39-51 | the loop that breaks at the first null material or insufficient stock returns true exactly when one unit is possible |
| ProductionService.TakeUnit | api/src/main/java/br/com/brunoeloi/inventory/service/ProductionService.java:56-59 | taking one unit subtracts each line's quantity from its material and touches no other material |
| ProductionService.ReserveDrops | api/src/main/java/br/com/brunoeloi/inventory/service/ProductionService.java:38-61 | with quantities of at least 1, each unit built lowers the first line's remaining stock, so the loop ends |
| ProductionService.ProduceNull | api/src/main/java/br/com/brunoeloi/inventory/service/ProductionService.java:40-43 | a recipe with a null material builds nothing and leaves the stock unchanged |
| ProductionService.QuantityStep | api/src/main/java/br/com/brunoeloi/inventory/service/ProductionService.java:38-61 | with distinct materials, taking one unit lowers the minimum of floors by exactly 1 |
| ProductionService.ProduceMatchesQuantity | api/src/main/java/br/com/brunoeloi/inventory/service/ProductionService.java:38-61 | with distinct materials and no null material, the unit-at-a-time loop builds exactly the minimum of floors and leaves the stock that subtracting them all at once leaves |
| ProductionService.ProduceProduct | api/src/main/java/br/com/brunoeloi/inventory/service/ProductionService.java:35-61 | the while loop computes the unit count and the stock the `Produce` function describes |
| ProductionService.PlanProduct | api/src/main/java/br/com/brunoeloi/inventory/service/ProductionService.java:31-61 | a null or empty composition is skipped with 0 units; otherwise the product is produced as `Produce` describes |
| ProductionService.ValidSorted | api/src/main/java/br/com/brunoeloi/inventory/service/ProductionService.java:19 | sorting keeps every record's composition, so records that qualified still do |
| ProductionService.ServiceItemsChosen | api/src/main/java/br/com/brunoeloi/inventory/service/ProductionService.java:30-67 | item i carries the name and value of the i-th product that built a unit, and those products are a subsequence of the visited ones, for every composition the server accepts |
| ProductionService.CalculateProduction | api/src/main/java/br/com/brunoeloi/inventory/service/ProductionService.java:16-71 | the items are the plan over the products sorted by value with the loaded stock, and the total is the sum of the subtotals |
| ProductionService.ServiceItemsSound | api/src/main/java/br/com/brunoeloi/inventory/service/ProductionService.java:63-66 | every item has at least one unit and a subtotal of quantity × unit value |
| ProductionService.SubtotalSumNonNegative | api/src/main/java/br/com/brunoeloi/inventory/service/ProductionService.java:65 | with non-negative subtotals the total value is non-negative |
| ProductionService.StepMatches | api/src/main/java/br/com/brunoeloi/inventory/service/ProductionService.java:31-61 | for a clean record, the server's step builds the allocator's count and subtracts what the allocator subtracts |
| ProductionService.ServiceMatchesPlan | api/src/main/java/br/com/brunoeloi/inventory/service/ProductionService.java:30-68 | for clean records visited in a given order, the server's items and final stock are the allocator's plan and final stock |
| ProductionService.ServiceMatchesAllocator | api/src/main/java/br/com/brunoeloi/inventory/service/ProductionService.java:16-71 | for clean records, the server's items are the allocator's schedule (filter, stable sort by value, plan) over the server's own records and stock map |
| ProductionService.ServiceOrdered | api/src/main/java/br/com/brunoeloi/inventory/service/ProductionService.java:19-66 | for every composition the server accepts, items come out in non-increasing unit value, and the products behind items of equal value keep their list order |
| ProductionService.ScenarioOrder | api/src/main/java/br/com/brunoeloi/inventory/service/ProductionService.java:19 | listed either way round, the cake (50.00) is visited before the bread (5.00) |
| ProductionService.ScenarioCakeUnits | api/src/test/java/br/com/brunoeloi/inventory/service/ProductionServiceTest.java:28-45 | from flour 100 and egg 5, the cake recipe (40 flour, 2 eggs) builds 2 units and leaves flour 20 and egg 1 |
| ProductionService.ScenarioBreadUnits | api/src/test/java/br/com/brunoeloi/inventory/service/ProductionServiceTest.java:47-51 | from the 20 flour left, the bread recipe (10 flour) builds 2 units |
| ProductionService.ScenarioCakeAndBread | api/src/test/java/br/com/brunoeloi/inventory/service/ProductionServiceTest.java:62-71 | with the products listed bread first or cake first, the result is the cake × 2 followed by the bread × 2 |
| Dashboard.LowStock | web/src/pages/Dashboard.tsx:19-20 | every listed material has fewer than 10 units |
| Dashboard.LowStockExact | web/src/pages/Dashboard.tsx:19-20 | a material is listed exactly when it is in the input and has fewer than 10 units, and the list keeps the input order |
| Dashboard.LowStockStrict | web/src/pages/Dashboard.tsx:20 | a material with exactly 10 units is not low, and one with 9 is |
| Dashboard.AbsentData | web/src/pages/Dashboard.tsx:17-20 | while nothing is fetched, both counts and the total are 0 and the low-stock list is empty |
| Dashboard.FirstFive | web/src/pages/Dashboard.tsx:126 | at most five entries are listed |
| Dashboard.FirstFivePrefix | web/src/pages/Dashboard.tsx:162 | the listed entries are the first min(5, n) of the list, in order |
| Dashboard.SumValuesAppend | web/src/pages/Dashboard.tsx:17-18 | the sum of a concatenation is the sum of the parts |
| Dashboard.TotalIsSum | web/src/pages/Dashboard.tsx:17-18 | the total of an empty list is 0, and a list's total is its first value plus the total of the rest |
| Dashboard.TotalBoundsEach | web/src/pages/Dashboard.tsx:17-18 | with non-negative values the total is at least each product's value |
| Dashboard.ScenarioDashboard | web/src/pages/Dashboard.test.tsx:17-49 | two products and four materials give counts 2 and 4 and one alert, and only "Chip" is listed |
| MaterialsSlice.Slice.constructor | web/src/store/slices/materialsSlice.ts:16-19 | the store starts with an empty list and status idle |
| MaterialsSlice.Slice.Reduce | web/src/store/slices/materialsSlice.ts:38-50 | the new list and status are the transition of the old state under the action: pending fetch sets loading, fulfilled fetch sets idle and replaces the list, fulfilled add appends, anything else changes nothing |
| MaterialsSlice.NeverFailed | web/src/store/slices/materialsSlice.ts:13 | after any history of actions the status is not `failed` |
| MaterialsSlice.RunWithoutFetch | web/src/store/slices/materialsSlice.ts:40-49 | without a fulfilled fetch, the list gains the added materials in order, and the status turns loading once a fetch is pending and stays loading |
| MaterialsSlice.ListAfterFetch | web/src/store/slices/materialsSlice.ts:43-49 | the list is the payload of the last fulfilled fetch followed by the materials added after it, and the status is loading exactly when a fetch was dispatched after it |
| MaterialsSlice.ListWithoutFetch | web/src/store/slices/materialsSlice.ts:47-49 | before any fulfilled fetch, the list holds exactly the added materials, in order |
| MaterialsSlice.StuckLoading | web/src/store/slices/materialsSlice.ts:39-49 | a pending fetch that is rejected and never fulfilled leaves the status loading |
| ProductsSlice.Slice.constructor | web/src/store/slices/productsSlice.ts:22-25 | the store starts with no products and status idle |
| ProductsSlice.Slice.Reduce | web/src/store/slices/productsSlice.ts:44-52 | a fulfilled fetch replaces the products, a fulfilled add appends, and anything else changes nothing |
| ProductsSlice.AlwaysIdle | web/src/store/slices/productsSlice.ts:18 | no history of actions changes the status from idle |
| ProductsSlice.RunWithoutFetch | web/src/store/slices/productsSlice.ts:49-51 | without a fulfilled fetch, the products gain the added products in order |
| ProductsSlice.ListAfterFetch | web/src/store/slices/productsSlice.ts:46-51 | the products are the payload of the last fulfilled fetch followed by the products added after it |
| ProductsSlice.ListWithoutFetch | web/src/store/slices/productsSlice.ts:49-51 | before any fulfilled fetch, the products are exactly the added ones, in order |

## Left out

- Floating point: prices, totals and the Java `double` quantities are integers here (cents, whole units). Rounding, `NaN` and `toLocaleString`/`toFixed` formatting are not modelled.
- Fractional quantities and the server's `(int)` cast are not modelled. A quantity between 0 and 1 is checked against the stock but subtracts 0, like a quantity of 0. The model takes quantities of at least 1.
- A quantity of 0 or less is excluded by the preconditions above, and there the two programs disagree. On the client a zero sent by the server arrives as `undefined` after normalization, so the product is never suggested. On the server the zero line never limits the count, so the product can still be built, and the loop runs forever only when no line of the recipe takes any stock. `Simulate` and `CalculateProduction` do not model such lines.
- I/O and framework: `Product.listAll`/`RawMaterial.listAll` become parameters of `CalculateProduction`. The HTTP calls, React Query hooks, `createAsyncThunk` bodies, `useMemo` caching and Immer drafts are not modelled; each reducer is a class updated in place.
- The database's product order is not known, so the lemmas hold for every input order.
- UI rendering, skeletons and the JSX of every page. Only the values they display are modelled: the unit total, the badges, the empty-state choice, the dashboard counts and lists.
- Dashboard.TotalProductsValue: the trailing `|| 0` turns the `undefined` of `products?.reduce` into 0 while the data is absent, which the model states as `TotalProductsValue(None) == 0`. Its other use, turning a `NaN` sum into 0, is not modelled, because integer cents cannot produce `NaN`.
- ProductionService.ServiceMatchesAllocator: stated only for clean records. With a null material or a repeated material the two programs can differ, and the server's own behaviour for those records is still modelled by `CalculateProduction`.
- ProductionSimulator.SeedExact: stated only for a consistent snapshot; the seeding itself is modelled for every input.
- `Product.composition` is a field of the `Product` class. Persistence, cascading, orphan removal and JSON back-references are not modelled.
