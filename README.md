# Shopping list state engine

A Dafny model of the list state held by the `ShoppingList` React component of a
two-person shopping list app (`src/components/ShoppingList.jsx`). The component keeps
an array of items in React state. Each handler replaces that array with a new one:
appending a product found by the search, changing an item's category, toggling its
"bought" flag, or deleting it. An effect then writes the whole array to the browser's
local storage. On every render the component derives three things:

- the view for the active category filter;
- an estimated total, which parses each Brazilian-format price string;
- the "N de M itens comprados" stats line.

Modules:

- `Wrappers` (`wrappers.dfy`): `Option`, for absent prices, images, stores and an empty storage slot.
- `Seqs` (`seqs.dfy`): `Select`, the order-preserving filter that `Array.prototype.filter` and the price clean-up regex both perform. It comes with a subsequence predicate and lemmas characterising the filter.
- `Price` (`price.dfy`): `parsePrice`, written as the source's three-step pipeline. It is proved equal to an independent "Brazilian reading" of the digits.
- `ListOps` (`list_ops.dfy`): the `Item` and `Product` records, the four list transformations, the category view, the `reduce` total, the completed count, the seed list and the initial-state choice.
- `ListProperties` (`list_properties.dfy`): lemmas relating the operations to one another and to the views.
- `ShoppingListComponent` (`shopping_list.dfy`): the component as a class. It has `items`, `selectedCategory` and `filterCategory` fields and a `Storage` object for the local-storage slot. Its handler methods assign the new list and rewrite the slot.

Behaviour the model follows from the code:

- There is no remote or real-time store. Local storage is the only persistence.
- New items are appended at the end of the list.
- A category is a plain string. New items default to "Geral", which is not one of the five offered categories, and `updateCategory` stores whatever it is given.
- Every handler writes its own whole list over the storage slot. Two mounted instances over one slot, as two open tabs are, lose each other's updates: the last writer wins.
- Ids come from the clock and are never checked for uniqueness. Every operation is therefore stated for lists where several items may share an id.
- The estimated total is taken over the whole list, not over the filtered view. `ShoppingList.EstimatedTotal` reads no filter, `SetFilterCategory` proves the shown total unchanged by a filter change, and `TotalCoversEveryView` and `TwoItemScenario` relate it to the view. The reading in which the displayed total follows the filter does not match the code.
- A dot-decimal price such as "12.50" reads as 1250, because dots are removed as thousands separators. Only the first comma acts as a decimal point.

Prices are exact reals. Floating-point rounding in `parseFloat` and in the sum is not modelled.

## Model

| member | source | states |
|---|---|---|
| Seqs.Select | src/components/ShoppingList.jsx:125-127 | `Array.prototype.filter` (also at lines 136 and 324) never returns more elements than it is given; `SelectMembers` and `SelectIsOrderedRestriction` pin down which |
| Seqs.SelectIsOrderedRestriction | src/components/ShoppingList.jsx:125-127 | a filter result is a subsequence of its input, every kept element satisfies the predicate, and each satisfying element is kept with its full multiplicity |
| Seqs.SelectIdempotent | src/components/ShoppingList.jsx:125-127 | filtering twice by the same predicate equals filtering once |
| Seqs.SelectAppend | src/components/ShoppingList.jsx:125-127 | filtering distributes over list concatenation |
| Seqs.SumFrom | src/components/ShoppingList.jsx:117-123 | the `reduce` that sums amounts from the left never drops below its starting accumulator when no amount is negative |
| Seqs.SumFromMovesStart | src/components/ShoppingList.jsx:117-123 | any part of the starting accumulator can be taken out of the fold and added afterwards |
| Seqs.SumFromAppend | src/components/ShoppingList.jsx:117-123 | the sum over a concatenation is the sum of the two sums |
| Seqs.SumFromSplit | src/components/ShoppingList.jsx:117-123 | splitting a list by a predicate and its negation splits its sum |
| Seqs.SumFromSameAmounts | src/components/ShoppingList.jsx:117-123 | lists with equal amounts, position by position, have equal sums |
| Price.Cleaned | src/components/ShoppingList.jsx:110 | after `replace(/[^\d,]/g, '')` only ASCII digits and commas remain |
| Price.ReplaceFirst | src/components/ShoppingList.jsx:110 | `.replace(',', '.')` with a string pattern keeps the length and changes exactly the character at the first comma, to a dot; every other character is kept |
| Price.ParseFloat | src/components/ShoppingList.jsx:111 | `parseFloat` on the cleaned string: a non-negative number whose integer part is the leading digits; it yields a number whenever the string starts with a digit, and NaN when it starts with neither a digit nor a dot |
| Price.ReadNumber | src/components/ShoppingList.jsx:111 | `parseFloat(numbers) \|\| 0`: NaN becomes 0, a parsed number is returned as is, and the result is never negative |
| Price.ParsePrice | src/components/ShoppingList.jsx:105-115 | never fails and never negative; an absent or empty price is 0 |
| Price.ParsePriceIsBrazilianReading | src/components/ShoppingList.jsx:107-111 | the clean, replace-first-comma and parse pipeline equals the digits before the first comma as the integer part plus the digits after it (up to any further comma) as decimals |
| Price.ParsePriceIntegerPart | src/components/ShoppingList.jsx:108-111 | the floor of a parsed price is the number formed by the digits before the first comma |
| Price.ParsePriceWithoutDigits | src/components/ShoppingList.jsx:110-111 | a price string containing no digit parses to 0 |
| Price.CleanedAppend | src/components/ShoppingList.jsx:110 | the global clean-up works character by character: the clean-up of a concatenation is the concatenation of the clean-ups |
| Price.CleanedOfNoise | src/components/ShoppingList.jsx:110 | a string with no digit and no comma, such as the "R$ " prefix, is removed entirely |
| Price.ParsePriceOfAmount | src/components/ShoppingList.jsx:110-111 | a price whose digits and commas are "w,f" with one comma parses to w + 0.f |
| Price.ParsePriceOfReais | src/components/ShoppingList.jsx:105-115 | a price written as a currency prefix followed by "w,f", as in "R$ 29,90", parses to w + 0.f |
| Price.ParsePriceOfGroups | src/components/ShoppingList.jsx:108-111 | a price written as a prefix, digit groups split by a separator, a decimal comma and decimals, as in "R$ 1.200,50", parses to the joined groups plus the decimals |
| Price.ParsePriceOfDotted | src/components/ShoppingList.jsx:110-111 | a price with a dot but no comma, as in "12.50", loses its separator and parses to the integer formed by the digits on both sides |
| Price.ParsePriceIgnoresLaterCommas | src/components/ShoppingList.jsx:110-111 | only the first comma is a decimal point: "w,f,rest" parses to w + 0.f whatever digits and commas follow the second comma |
| Price.ParsePriceThousands | src/components/ShoppingList.jsx:108 | the example "R$ 1.200,50" parses to 1200.5 |
| Price.ParsePriceFirstCommaOnly | src/components/ShoppingList.jsx:110 | "1,2,3" parses to 1.2 |
| Price.ParsePriceDotDecimal | src/components/ShoppingList.jsx:110 | "12.50" parses to 1250, not 12.5 |
| ListOps.Appended | src/components/ShoppingList.jsx:82-94 | the list grows by one with the old items unchanged and in order; the new last item carries the given id and category, is not completed, and copies name, image and price from the product and its store from `brands` |
| ListOps.WithCategory | src/components/ShoppingList.jsx:99-103 | length and order kept; items with the id get the new category and keep every other field; all other items are untouched |
| ListOps.Toggled | src/components/ShoppingList.jsx:129-133 | length and order kept; the completed flag flips exactly on items with the id; every other field and item is untouched |
| ListOps.Without | src/components/ShoppingList.jsx:135-137 | never longer than the input; no item with the id remains; every item with another id remains |
| ListOps.Filtered | src/components/ShoppingList.jsx:125-127 | "Todas" gives the whole list; otherwise an item is in the view exactly when it is in the list with that category; never longer than the list |
| ListOps.ItemPrice | src/components/ShoppingList.jsx:122 | the amount one item adds to the estimate is never negative |
| ListOps.Total | src/components/ShoppingList.jsx:117-123 | the estimated total, the sum from 0 of every item's parsed price, is never negative |
| ListOps.CompletedCount | src/components/ShoppingList.jsx:324 | the completed count is at most the list length |
| ListOps.Stats | src/components/ShoppingList.jsx:321-327 | the stats line appears exactly for a non-empty list and shows a completed count not above the list length, which it shows as the second number |
| ListOps.SeedItems | src/components/ShoppingList.jsx:13-41 | the seed list has three items with ids 1, 2 and 3 |
| ListOps.InitialItems | src/components/ShoppingList.jsx:8-42 | a saved list, even an empty one, is used as is; the seed list is used only when nothing is saved |
| ListProperties.TotalOfSamePrices | src/components/ShoppingList.jsx:117-123 | the total depends only on the prices, position by position |
| ListProperties.CompletedOfSameFlags | src/components/ShoppingList.jsx:324 | the completed count depends only on the completed flags, position by position |
| ListProperties.TotalCoversEveryView | src/components/ShoppingList.jsx:117-127 | the total, taken over the whole list, is at least the total of any filtered view |
| ListProperties.AppendedViews | src/components/ShoppingList.jsx:82-127 | appending adds the new price to the total, leaves the completed count unchanged, and puts the new item at the end of the "Todas" view and of its own category's view and in no other view |
| ListProperties.CategoryLastWriteWins | src/components/ShoppingList.jsx:99-103 | a second category change of the same id overrides the first, so repeating a change is idempotent |
| ListProperties.CategoryKeepsTotals | src/components/ShoppingList.jsx:99-103 | a category change moves neither the total nor the completed count |
| ListProperties.CategoryOfMissingId | src/components/ShoppingList.jsx:99-103 | a category change for an id no item carries leaves the list unchanged |
| ListProperties.ToggleInvolution | src/components/ShoppingList.jsx:129-133 | toggling the same id twice gives back the original list |
| ListProperties.ToggleKeepsTotal | src/components/ShoppingList.jsx:129-133 | toggling never moves the total |
| ListProperties.ToggleOfMissingId | src/components/ShoppingList.jsx:129-133 | toggling an id no item carries leaves the list unchanged |
| ListProperties.ToggleMovesCountByOne | src/components/ShoppingList.jsx:129-133 | when exactly one item has the id, the completed count goes down by one if that item was completed and up by one otherwise |
| ListProperties.DeleteIsOrderedRestriction | src/components/ShoppingList.jsx:135-137 | deletion leaves the order-preserving subsequence of items with another id, each with its full multiplicity |
| ListProperties.DeleteIdempotent | src/components/ShoppingList.jsx:135-137 | deleting the same id twice equals deleting it once |
| ListProperties.DeleteOfMissingId | src/components/ShoppingList.jsx:135-137 | deleting an id no item carries leaves the list unchanged |
| ListProperties.DeleteTotal | src/components/ShoppingList.jsx:135-137 | deletion lowers the total by exactly the prices of the removed items |
| ListProperties.FilterIsOrderedRestriction | src/components/ShoppingList.jsx:125-127 | a category view is the order-preserving subsequence of the items in that category, each with its full multiplicity |
| ListProperties.PresetsAreNotCategories | src/components/ShoppingList.jsx:4 | neither the preselected "Geral" nor the "Todas" filter is one of the five offered categories |
| ListProperties.RicePrice | src/components/ShoppingList.jsx:18 | the first seed price "R$ 29,90" parses to 29.9 |
| ListProperties.DetergentPrice | src/components/ShoppingList.jsx:27 | the second seed price "R$ 15,49" parses to 15.49 |
| ListProperties.CoffeePrice | src/components/ShoppingList.jsx:36 | the third seed price "R$ 18,50" parses to 18.5 |
| ListProperties.SeedTotal | src/components/ShoppingList.jsx:13-41 | with nothing saved the estimated total is 63.89 |
| ListProperties.SeedStats | src/components/ShoppingList.jsx:13-41 | with nothing saved the stats line reads 1 of 3 |
| ListProperties.TwoItemScenario | src/components/ShoppingList.jsx:82-127 | after adding two products under two different categories to an empty list, the total is the sum of both prices; the first category's view shows only the first item and sums to its price alone, while the total shown under that filter stays the sum of both |
| ShoppingListComponent.ShoppingList.constructor | src/components/ShoppingList.jsx:8-53 | the initial list is the saved one or the seed list; the selected category starts at "Geral" and the filter at "Todas"; the slot then holds the list |
| ShoppingListComponent.ShoppingList.SaveEffect | src/components/ShoppingList.jsx:45-47 | the slot is overwritten with the whole current list |
| ShoppingListComponent.ShoppingList.AddItemToList | src/components/ShoppingList.jsx:82-97 | the list becomes `Appended` of the old list with the selected category; the selected category and filter are unchanged; the slot holds the new list, whatever it held before |
| ShoppingListComponent.ShoppingList.UpdateCategory | src/components/ShoppingList.jsx:99-103 | the list becomes `WithCategory` of the old list; the selected category and filter are unchanged; the slot holds the new list, whatever it held before |
| ShoppingListComponent.ShoppingList.ToggleItem | src/components/ShoppingList.jsx:129-133 | the list becomes `Toggled` of the old list; the selected category and filter are unchanged; the slot holds the new list, whatever it held before |
| ShoppingListComponent.ShoppingList.DeleteItem | src/components/ShoppingList.jsx:135-137 | the list becomes `Without` of the old list; the selected category and filter are unchanged; the slot holds the new list, whatever it held before |
| ShoppingListComponent.ShoppingList.SelectCategory | src/components/ShoppingList.jsx:239-248 | any string becomes the category for new items, in any state; the list and the slot are untouched, so whether the slot holds the list is unchanged |
| ShoppingListComponent.ShoppingList.SetFilterCategory | src/components/ShoppingList.jsx:253-260 | only the active filter changes, in any state; the list and the slot are untouched, so whether the slot holds the list is unchanged, and the shown total and stats line are the same before and after |
| ShoppingListComponent.ShoppingList.FilteredItems | src/components/ShoppingList.jsx:125-127 | every item shown is an item of the list |
| ShoppingListComponent.ShoppingList.EstimatedTotal | src/components/ShoppingList.jsx:117-123 | the displayed total is never negative |
| ShoppingListComponent.ShoppingList.StatsLine | src/components/ShoppingList.jsx:321-327 | the shown completed count is at most the shown length, which is the list length |
| ShoppingListComponent.Remount | src/components/ShoppingList.jsx:8-12 | because every change is written back, mounting again over the same storage shows exactly the list the previous instance held |
| ShoppingListComponent.TwoTabsLoseUpdate | src/components/ShoppingList.jsx:44-47 | with two instances over one slot that start from the same list, an add in the first followed by a toggle in the second leaves the slot holding the second instance's toggled list, which differs from the first instance's list: the added product is lost from storage |

## Left out

- Rendering: the JSX markup, the details modal and its local `selectedItem` copy, and the click-outside `mousedown` listener. None of these changes the list.
- `handleSearch`, the search input, and the suggestion state cleared by `addItemToList`. The product search is an asynchronous network call, and a found product enters the model as the `Product` parameter.
- `Date.now()`: the new item's id is the `now` parameter of `AddItemToList`.
- Currency formatting with `toLocaleString`, and the floating-point behaviour of `parseFloat` and of the `reduce` sum. Amounts are exact reals.
- `Price.ParseFloat`: it reads only the digits-and-dot form. Signs, whitespace, exponents and "Infinity" cannot survive the preceding clean-up, so they are not modelled.
- `ListOps.InitialItems`: it takes the saved slot as an already-decoded `Option<seq<Item>>`. `JSON.parse` and `JSON.stringify` are not modelled, including `JSON.parse` throwing on a corrupt slot.
- A non-string price. `replace` would throw on it and `parsePrice` would return 0, but prices are modelled as optional strings.
- The React render cycle. Each handler is modelled as one atomic step followed by the persistence effect. Stale closures over `items` when several handlers fire within one render are not modelled.
- `src/services/productApi.js`, `api/search.js`, `vite.config.js` and `src/App.jsx` are not part of this model. They are network clients, an HTTP relay, dev-server configuration and a static wrapper.
