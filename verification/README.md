# Sub-group expansion of point-of-sale orders

This project models `PosOrder._order_fields` of the `pos_product_groups`
Odoo module, and proves what it does to a submitted order.

A point-of-sale client submits each order line as a command `(0, 0, data)`.
Some lines buy a *sub-group*: a priced variant of a "big group" product that
is made of a recipe of components (say "Meal for 2" = 2 × Chapati + 1 × Tea).
A line buys a sub-group when its `product_sub_group_id` is set. If that field
is empty and the line's product is a big group's product, the line buys the
active sub-group of that group whose price equals the line's `price_unit`;
the first one in the database's order wins.

The expansion replaces every such line with the sub-group's components:

1. **Apportion.** The line charges `price_unit × qty`. Every component gets a
   share of that charge in proportion to its base value, which is its list
   price times its quantity per sub-group. A component with no positive base
   value, or any component when the base values add up to nothing, is charged
   its own list price for its quantity instead. The base values are stored
   by product, so a product listed twice in one recipe is read back with
   the base value of its last occurrence (see Findings).
2. **Merge.** The components of all the order's sub-group lines are added into
   one component map keyed by product. The map keeps the insertion order. The
   first occurrence of a product stores its line dictionary and unit price.
   Every occurrence adds its quantity and its share, and records the
   sub-group's name.
3. **Reconcile.** Each map entry becomes one create command `(0, 0, data)`.
   Its `price_unit` is the component's list price when that is positive.
   Otherwise it is the allocated amount divided by the quantity, when both are
   positive, and 0 in any other case. `discount` is 0. The three totals are
   `round(price_unit × qty, 2)`.

These lines are kept unchanged:

- lines that are not commands;
- lines that buy no sub-group;
- lines whose sub-group does not exist or has no components.

The output is the kept lines, in input order, followed by the generated
component lines, in the order their products were first met.

## Structure

- `values.dfy` (`Values`): the loosely typed line payload. A dictionary is
  `map<string, Value>`, Python truthiness is explicit, and a submitted line is
  a `Command` or `Malformed`.
- `rounding.dfy` (`Rounding`): `round(x, 2)` on exact reals.
- `catalog.dfy` (`ProductCatalog`): the read-only catalog. It holds products,
  sub-groups with their recipes, and the order in which a search returns
  sub-groups.
- `apportionment.dfy` (`Apportionment`): the shares of one sub-group line.
  The second pass over a recipe reads each component's base value back in
  one of two ways (`Reading`):
  - `Keyed`, as the source does: from the dictionary keyed by product that
    the first pass built (`BaseValues`, `PortionAsWritten`);
  - `PerComponent`, the evidently intended reading: the component's own
    base value (`PortionOf`).

  The two agree when no product occurs twice in a recipe (see Findings).
- `aggregation.dfy` (`Aggregation`): the insertion-ordered component map and
  its reference definitions (first-seen products, summed quantities and
  amounts).
- `reconciliation.dfy` (`Reconciliation`): one output line per map entry.
- `expansion.dfy` (`Expansion`): the whole operation as functions. `Classify`
  decides whether a line is kept or expanded, `Kept` and `AllContributions`
  split the order, and `Expand` gives the output. `AllContributions` takes
  the reading; `Expand` uses the source's, `Keyed`.
- `pos_order.dfy` (`PosOrder`): the source's loops as methods. There is the
  pass over the lines with its component map, the two passes over a recipe,
  and the pass over the map. Each method is proved to compute a function:
  `TotalBaseValue` gives `Apportionment.BaseValues` and `TotalBase`,
  `ComponentShare` gives `Apportionment.PortionAsWritten`, `AddComponent`
  gives `Aggregation.Merge`, `ComponentLines` gives
  `Reconciliation.FlushLines`, and `MergeSubGroupLine` and `OrderFields`
  give `Expansion`'s `LineContributions` merged and `Expand`.
- `properties.dfy` (`OrderProperties`): what the output satisfies:
  - its shape and order;
  - the fields of a generated line;
  - every ordered unit of a component reaches its line;
  - a product with a positive list price is sold at it;
  - the stored amounts add up to the charges;
  - the returned lines are the same under both readings;
  - a second expansion changes nothing.

Prices and quantities are exact `real` numbers.

A line that buys a product directly and a generated line for the same
product are not merged. The code only merges components with each other.

The allocated amount decides a generated line's price only when the
component's list price is not positive. Otherwise it is advisory
(`Reconciliation.AllocationAdvisory`). The generated subtotals are list
price × quantity and need not add up to what the sub-group lines charged.

## Model

| member | source | states |
|---|---|---|
| PosOrder.OrderFields | pos_product_groups/models/pos_order.py:24-313 | The loop over the submitted lines, and then over the component map, produces exactly `Expand`: the kept lines in input order, then one generated line per component product, with the shares as the source reads them |
| PosOrder.TotalBaseValue | pos_product_groups/models/pos_order.py:100-116 | The first pass over a recipe builds `component_base_values`, keyed by product, where a product listed twice keeps the base value of its last occurrence (`BaseValues`), and `total_base_value` = Σ list price × quantity per sub-group over every component (`TotalBase`) |
| PosOrder.ComponentShare | pos_product_groups/models/pos_order.py:147-173 | A component's quantity `component.quantity × qty`, its own list price, and its share of the line's charge read from the base value stored for its product, 0 when none is stored (`PortionAsWritten`) |
| PosOrder.AddComponent | pos_product_groups/models/pos_order.py:181-236 | Adding one component to the map is `Merge`: an existing entry adds quantity and amount and appends the sub-group name; a new product is appended to the key order with its line dictionary, quantity, amount, unit price and `[name]` |
| PosOrder.MergeSubGroupLine | pos_product_groups/models/pos_order.py:92-238 | Expanding one sub-group line merges its components' contributions, in recipe order, into the map, with the shares read from the dictionary keyed by product (`MergeAll` of `LineContributions(..., Keyed)`) |
| PosOrder.ComponentLines | pos_product_groups/models/pos_order.py:253-305 | The pass over the map yields `FlushLines`: one `(0, 0, data)` per key, in insertion order, with the reconciled prices |
| ProductCatalog.FirstMatchFrom | pos_product_groups/models/pos_order.py:58-62 | The position found matches (same group, same price, active), and no earlier position does |
| ProductCatalog.FindByPrice | pos_product_groups/models/pos_order.py:58-66 | A sub-group found by price is of the product's group, has exactly that price, and is active |
| ProductCatalog.FindByPriceComplete | pos_product_groups/models/pos_order.py:58-68 | The search finds nothing if and only if no stored sub-group matches |
| ProductCatalog.FindByPriceFirstInOrder | pos_product_groups/models/pos_order.py:58-62 | Of several matches, `limit=1` returns one with the smallest sequence; which of those with equal sequence and price is left to the database |
| Rounding.Round2 | pos_product_groups/models/pos_order.py:288 | `round(x, 2)` is a whole number of cents, within half a cent of `x`, and leaves an amount already in cents unchanged |
| Apportionment.ApportionAt | pos_product_groups/models/pos_order.py:147-162 | Portion `k` is component `k`'s product, with quantity `component.quantity × qty` and the product's list price as unit price |
| Apportionment.ApportionAllAtRate | pos_product_groups/models/pos_order.py:168-173 | With non-negative base values and a positive total, the per-component shares charge every component at the one rate charge / total base |
| Apportionment.ApportionSumsToCharged | pos_product_groups/models/pos_order.py:93-114 | With non-negative base values and a positive total, the per-component shares add up to exactly `price_unit × qty` |
| Apportionment.ApportionProportional | pos_product_groups/models/pos_order.py:168-170 | In the per-component shares, a component with positive base value is charged base value × (price_unit × qty / total base) |
| Apportionment.ApportionUnweighted | pos_product_groups/models/pos_order.py:171-173 | In the per-component shares, when the total or the component's own base value is not positive, its amount is list price × its quantity |
| Apportionment.ApportionAsWrittenUnweighted | pos_product_groups/models/pos_order.py:166-173 | In the source's shares, when the total or the base value stored for the component's product is not positive, its amount is list price × its quantity |
| Apportionment.StoredBaseOfUnweighted | pos_product_groups/models/pos_order.py:100-114 | With no negative quantity in the recipe, a component with a positive quantity and no positive base value of its own has no positive stored base value either, so the source charges it list price × its quantity too |
| Apportionment.ApportionWithoutWeights | pos_product_groups/models/pos_order.py:171-173 | In the per-component shares, with no positive total, the line is not split: the components together cost `qty` × the total base value, whatever the line charged |
| Apportionment.AsWrittenAgreesWithoutWeights | pos_product_groups/models/pos_order.py:100-173 | With no positive total, the source's shares equal the per-component ones, whatever the recipe repeats, and together cost `qty` × the total base value |
| Apportionment.AsWrittenAgreesWhenDistinct | pos_product_groups/models/pos_order.py:100-170 | When no product occurs twice in a recipe, the source's apportionment equals the corrected one |
| Apportionment.UnpricedPortion | pos_product_groups/models/pos_order.py:166-173 | A component whose product has no positive list price, in a recipe with no negative quantity, is charged its list price × its quantity under both readings of the base values |
| Apportionment.RepeatedProductOverAllocates | pos_product_groups/models/pos_order.py:113-170 | A recipe with one product twice (quantities 1 then 2, list price 10) sold at 30: the source allocates 40, the per-component apportionment 30 |
| Apportionment.RepeatedProductUnderAllocates | pos_product_groups/models/pos_order.py:113-170 | The same recipe with quantities 2 then 1: the source allocates 20, the per-component apportionment 30 |
| Aggregation.Merge | pos_product_groups/models/pos_order.py:181-236 | Adding a contribution keeps the map well formed: every key listed once, and the listed keys are the stored ones |
| Aggregation.MergeAll | pos_product_groups/models/pos_order.py:181-236 | Adding contributions one after the other keeps the map well formed |
| Aggregation.MergeAllFromEmpty | pos_product_groups/models/pos_order.py:181-236 | Merging contributions into an empty map gives one entry per distinct product, keyed in first-seen order, holding the first contribution's line dictionary and unit price, the summed quantity and amount, and the sub-group names in order |
| Aggregation.AbsentProduct | pos_product_groups/models/pos_order.py:182-212 | A product has a first contribution if and only if it was contributed; otherwise its quantity and amount are 0 and it has no sub-groups |
| Aggregation.FirstSeenFacts | pos_product_groups/models/pos_order.py:223-228 | The first-seen list has no repeats and holds exactly the contributed products |
| Aggregation.FirstSeenPrefix | pos_product_groups/models/pos_order.py:253-257 | The first-seen list of an earlier part of the order is a prefix of the whole one: products met earlier are flushed earlier |
| Reconciliation.ReconcilePriced | pos_product_groups/models/pos_order.py:265-284 | The line's quantity is the summed quantity; its unit price is never negative, and is positive if and only if the component has a positive unit price or a positive amount over a positive quantity |
| Reconciliation.WithPricesFields | pos_product_groups/models/pos_order.py:288-301 | The written line has the quantity, the unit price, discount 0, and the one rounded subtotal in all three totals |
| Reconciliation.WithPricesKeepsOtherFields | pos_product_groups/models/pos_order.py:258-301 | Writing the prices keeps every other field and adds no other |
| Reconciliation.GeneratedLineOf | pos_product_groups/models/pos_order.py:257-303 | An entry's line is `(0, 0, data)` with the reconciled price fields, and every other field of the entry's stored dictionary |
| Reconciliation.AllocationAdvisory | pos_product_groups/models/pos_order.py:265-276 | With a positive unit price the line is priced at it, and the allocated amount has no influence on the line |
| Reconciliation.AllocationRecovered | pos_product_groups/models/pos_order.py:278-280 | Without a positive unit price, price × quantity gives back exactly the allocated amount |
| Expansion.Classify | pos_product_groups/models/pos_order.py:72-90 | A line that is expanded is a command whose sub-group exists and has components |
| Expansion.ExplicitReferenceUsed | pos_product_groups/models/pos_order.py:40-49 | An explicit sub-group reference is used as it is; the search by price does not run |
| Expansion.FallbackResolvesByPrice | pos_product_groups/models/pos_order.py:49-68 | A line with no sub-group that sells a big group's product at a numeric price resolves to a stored sub-group if and only if an active sub-group of that group has that price, and then to such a sub-group |
| Expansion.PlainProductKept | pos_product_groups/models/pos_order.py:241-244 | A line with no sub-group whose product is not a big group's product is kept |
| Expansion.DegenerateLineKept | pos_product_groups/models/pos_order.py:82-90 | A line whose sub-group does not exist or has no components is kept unchanged and contributes no component |
| Expansion.KeptAppend | pos_product_groups/models/pos_order.py:241-249 | The kept lines of two consecutive parts of an order are those of the first part followed by those of the second |
| Expansion.AllContributionsAppend | pos_product_groups/models/pos_order.py:124-238 | The contributions of two consecutive parts of an order are those of the first part followed by those of the second |
| Expansion.KeptIsFilter | pos_product_groups/models/pos_order.py:84-90 | Every kept line is an input line that is not expanded, and every input line that is not expanded is kept |
| Expansion.NothingToExpand | pos_product_groups/models/pos_order.py:241-249 | An order with nothing to expand is handed on unchanged |
| Expansion.ComponentLineDataFields | pos_product_groups/models/pos_order.py:126-145 | A component's stored dictionary names its product, quantity, list price and name, marks it as a component, names the sub-group and the group, drops the removed fields and keeps every other field of the sub-group line |
| Expansion.ComponentLineDataStripped | pos_product_groups/models/pos_order.py:130-145 | A component's stored dictionary has none of the removed fields |
| Expansion.ContributionsFromPortions | pos_product_groups/models/pos_order.py:124-173 | The contributions of a recipe carry, in order, the portions of the apportionment: the source's when the base values are read from the dictionary, the per-component one otherwise |
| Expansion.LinePortions | pos_product_groups/models/pos_order.py:92-173 | A sub-group line's portions are `ApportionAsWritten` of its charge over its recipe when keyed, and `Apportion` when per component |
| Expansion.LineAllocatesCharged | pos_product_groups/models/pos_order.py:93-173 | With a weighted recipe, a sub-group line's per-component shares add up to `price_unit × qty` |
| Expansion.LineReadingsAgree | pos_product_groups/models/pos_order.py:100-170 | When no product occurs twice in the recipe, a sub-group line makes the same contributions under both readings of the base values |
| Expansion.LineAllocatesChargedAsWritten | pos_product_groups/models/pos_order.py:93-173 | With a weighted recipe that lists no product twice, the shares the source computes add up to `price_unit × qty` |
| OrderProperties.FlushedShape | pos_product_groups/models/pos_order.py:253-303 | Kept lines followed by the flushed map are one line per distinct product, in first-seen order, built from the first contribution with the summed quantity and amount |
| OrderProperties.ExpandShape | pos_product_groups/models/pos_order.py:241-303 | The output is the kept lines, unchanged and in input order, then exactly one generated line per distinct component product, in first-seen order |
| OrderProperties.ComponentContributionShaped | pos_product_groups/models/pos_order.py:214-222 | A component's contribution names its product, is marked as a component, and has no sub-group reference |
| OrderProperties.ContributionsFromShaped | pos_product_groups/models/pos_order.py:124-222 | Every contribution of a recipe prefix is so shaped |
| OrderProperties.AllContributionsShaped | pos_product_groups/models/pos_order.py:124-238 | Every contribution of an order is so shaped |
| OrderProperties.MergedLineFields | pos_product_groups/models/pos_order.py:257-303 | A generated line is `(0, 0, data)` with `is_component` true, no sub-group reference, the product, the summed quantity, the reconciled unit price, discount 0 and the rounded subtotal in all three totals |
| OrderProperties.ContributionsFromStripped | pos_product_groups/models/pos_order.py:130-145 | No contribution of a recipe carries a removed field |
| OrderProperties.AllContributionsStripped | pos_product_groups/models/pos_order.py:130-145 | No contribution of an order carries a removed field |
| OrderProperties.GeneratedLineStripped | pos_product_groups/models/pos_order.py:130-301 | A generated line carries no id, uuid, sub-group or group reference, attribute values, lots or skip flag |
| OrderProperties.GeneratedLineAt | pos_product_groups/models/pos_order.py:253-303 | Output line `|kept| + j` is the line generated for the `j`-th product first met |
| OrderProperties.GeneratedLineKept | pos_product_groups/models/pos_order.py:130-131 | A generated line is not expanded again when its product is not a big group's product |
| OrderProperties.OutputKept | pos_product_groups/models/pos_order.py:130-131 | When no component product is a big group's product, no line of the output is expanded again |
| OrderProperties.ExpandIdempotent | pos_product_groups/models/pos_order.py:130-131 | Expanding the output again changes nothing |
| OrderProperties.RecipeUnitsScale | pos_product_groups/models/pos_order.py:148 | `qty` units of a recipe hold `qty` times the recipe's units of each product |
| OrderProperties.ContributedQty | pos_product_groups/models/pos_order.py:148-185 | A recipe contributes to each product the units it holds of it for the line's quantity |
| OrderProperties.MergedQuantity | pos_product_groups/models/pos_order.py:182-225 | The summed quantity of a product is Σ `component.quantity × line qty` over all its occurrences in the expanded lines |
| OrderProperties.GeneratedQuantity | pos_product_groups/models/pos_order.py:257-295 | A generated line's `qty` is every unit of its product that the expanded sub-group lines contain |
| OrderProperties.AllContributionsListPriced | pos_product_groups/models/pos_order.py:160-227 | Under either reading, every contribution of an order carries its product's list price as its unit price |
| OrderProperties.EntryPriced | pos_product_groups/models/pos_order.py:265-301 | The line of an entry whose first contribution carries its positive list price sells the summed quantity at that list price, with list price × quantity rounded to cents in all three totals |
| OrderProperties.GeneratedLinePriced | pos_product_groups/models/pos_order.py:257-301 | The generated line of a product with a positive list price has that list price as `price_unit`, and list price × every unit of it the order's sub-group lines contain, rounded to cents, as its three totals |
| OrderProperties.EntryAmountsMerge | pos_product_groups/models/pos_order.py:182-226 | Adding a contribution adds its amount to its product's entry and changes no other entry's amount |
| OrderProperties.MergeAddsAmount | pos_product_groups/models/pos_order.py:182-236 | Adding a contribution adds exactly its amount to the map's total amount |
| OrderProperties.MergeAllAddsAmounts | pos_product_groups/models/pos_order.py:182-236 | Adding contributions adds exactly their shares to the map's total amount |
| OrderProperties.AllocatedByLine | pos_product_groups/models/pos_order.py:124-238 | The order's shares add up, line by line, to what each line's shares add up to |
| OrderProperties.LineChargeAllocated | pos_product_groups/models/pos_order.py:93-173 | With weighted recipes, each line's per-component shares add up to what the line charges |
| OrderProperties.AllocatedIsCharged | pos_product_groups/models/pos_order.py:93-173 | With weighted recipes, the order's per-component shares add up to what its sub-group lines charge |
| OrderProperties.ComponentMapAmounts | pos_product_groups/models/pos_order.py:181-236 | With weighted recipes, a component map built from the per-component shares stores amounts that add up to exactly what the sub-group lines charged |
| OrderProperties.ReadingsAgreeOnDistinctRecipes | pos_product_groups/models/pos_order.py:100-170 | When no recipe lists a product twice, the order's contributions are the same under both readings of the base values |
| OrderProperties.ComponentMapAmountsAsWritten | pos_product_groups/models/pos_order.py:100-236 | With weighted recipes none of which lists a product twice, the amounts the source's component map stores add up to exactly what the sub-group lines charged |
| OrderProperties.OrderTwins | pos_product_groups/models/pos_order.py:100-238 | With no negative component quantity, the two readings give an order contributions that differ at most in the amounts of products with a positive list price |
| OrderProperties.TwinLines | pos_product_groups/models/pos_order.py:265-301 | Two entries that differ at most in the amount of a product priced at its positive list price give the same line |
| OrderProperties.ReadingsAgreeOnLines | pos_product_groups/models/pos_order.py:100-305 | With no negative component quantity, the lines the source returns are the lines the per-component shares give |

## Left out

- Logging: the `_logger` calls have no effect on the result.
- The wrapper around the expansion: a `ui_order` that is not a dictionary, the copy of `ui_order` with the new line list, and the call to the inherited `_order_fields`. An order with no lines is the empty list, which `Expand` hands on unchanged.
- The `try`/`except` around the search by price: the catalog is a map, and lookups do not fail.
- The `sub_group_unit_prices` audit list of each map entry, and `total_distributed_price`: the output never reads them.
- The warning on unequal unit prices for one product (lines 188-193): the first unit price is kept, and the warning does not change that.
- Components without a product (lines 105-106 and 152-154): a component in the catalog always names a product.
- The ORM and the database: `browse`, `exists`, `search` and `component_ids` are read-only maps. The search order is a list of sub-group ids, sorted by sequence, then price; rows equal on both may come in any order.
- Inputs on which the source raises out of `_order_fields`: a sub-group reference that is not an integer, a list entry whose third item is not a dictionary, or an expanded line whose `qty` or `price_unit` is not a number. The model keeps a line whose sub-group reference is not an integer, and reads a non-numeric `qty` or `price_unit` as its default. A list entry whose third item is not a dictionary has no `Command` form; read as `Malformed`, it is kept.
- Floating point: prices and quantities are exact reals, and `round(x, 2)` rounds the exact value half to even. The tolerances of 0.01 belong only to the log messages.
- `PosOrderLine._is_field_accepted`: it only declares an extra accepted field.
- OrderProperties.ExpandIdempotent: is proved for catalogs where no component product is a big group's own product. Otherwise a generated line can be expanded again by the search by price.
- Apportionment.ApportionAllAtRate: is stated for the per-component shares (`Apportion`). The source's shares (`ApportionAsWritten`) are the same when the recipe lists no product twice (`Apportionment.AsWrittenAgreesWhenDistinct`); otherwise a repeated product is charged at the rate of its last occurrence's base value.
- Apportionment.ApportionSumsToCharged: is stated for the per-component shares (`Apportion`). The source's shares are the same when the recipe lists no product twice (`Apportionment.AsWrittenAgreesWhenDistinct`); otherwise they need not add up to the charge (Findings).
- Apportionment.ApportionProportional: is stated for the per-component shares (`Apportion`), proportional to a component's own base value. The source's shares are the same when the recipe lists no product twice (`Apportionment.AsWrittenAgreesWhenDistinct`); otherwise a repeated product's share follows its last occurrence's base value.
- Expansion.LineAllocatesCharged: is stated for the per-component shares. For the shares the source computes it holds when the recipe lists no product twice (`Expansion.LineAllocatesChargedAsWritten`); otherwise they need not add up to the charge (Findings).
- OrderProperties.LineChargeAllocated: is stated for the per-component shares. For the source's shares it holds when no recipe lists a product twice (`OrderProperties.ReadingsAgreeOnDistinctRecipes`).
- OrderProperties.AllocatedIsCharged: is stated for the per-component shares. For the source's shares it holds when no recipe lists a product twice (`OrderProperties.ReadingsAgreeOnDistinctRecipes`).
- OrderProperties.ComponentMapAmounts: is stated for a map built from the per-component shares. For the source's map it holds when no recipe lists a product twice (`OrderProperties.ComponentMapAmountsAsWritten`).
- OrderProperties.ReadingsAgreeOnLines: is proved for catalogs where no component has a negative quantity. A negative quantity can make a dictionary base value positive for a product without a positive list price, and that product's line is priced from its amount.
- OrderProperties.GeneratedLinePriced: covers products with a positive list price. A product without one is priced from its summed amount over its summed quantity (`Reconciliation.ReconcilePriced`, `Reconciliation.AllocationRecovered`).
- OrderProperties.ComponentMapAmounts: is proved for weighted recipes only, where every base value is non-negative and a non-empty recipe has a positive total. Otherwise components are charged their list value, `Apportionment.ApportionWithoutWeights` states what that adds up to, and nothing ties it to the charge.

## Findings

| source | as written | input that shows it | evidently intended | confidence | as-written member | corrected member |
|---|---|---|---|---|---|---|
| pos_product_groups/models/pos_order.py:113-170 | The first pass stores each component's base value in a dictionary keyed by product id, while `total_base_value` adds every component's. When a recipe lists one product twice, the second pass reads the last stored base value for both occurrences. The shares can then differ from what the line charged, whenever the occurrences' base values differ. The difference stays in the map's `total_price`, which is only logged when the product has a positive list price; with no negative component quantity it never reaches the returned lines (`OrderProperties.ReadingsAgreeOnLines`). | A product with list price 10 listed twice in a sub-group sold once at 30. With quantities 1 then 2, both occurrences read base value 20 of total 30, so 20 + 20 = 40 is allocated. With quantities 2 then 1, both read 10, so 10 + 10 = 20 is allocated (`Apportionment.RepeatedProductUnderAllocates`). | Each component is charged in proportion to its own base value, and the shares add up to `price_unit × qty`. | not executed | Apportionment.RepeatedProductOverAllocates | OrderProperties.ComponentMapAmounts |
