# Digital currency value calculator — Dafny model

This project models the state logic of the `CryptoCalculator` React component in
`src/App.jsx`, a page where a user lists cryptocurrency holdings and sees their value.
Each holding is an amount text and a coin ticker. The page shows the value in US
dollars and, at a fixed rate of 3.5, in Israeli shekels. It also keeps a session
history of saved totals.

The model has four modules:

- **`Coins`** (`coins.dfy`) holds the coin universe and the price table.
  - It defines the ten-entry ticker-to-feed-id table (`CryptoIds`) and the reverse lookup of a feed id (`FindKey`, `KeyFor`).
  - It models the ingestion loop, which turns the market-data records into a symbol-keyed price table (`Ingested` / `Ingest`).
  - It models the custom-coin insert-if-absent (`WithCustomCoin`).
- **`Valuation`** (`valuation.dfy`) holds line values (`Line`), the totals (`Totals`) and the USD accumulator.
  - `TotalUSD` is a sum, filtered item by item, of `parse(amount) × price`.
  - It is proved equal to the plain sum over exactly the eligible lines.
  - Its algebra (concatenation, skipped lines, blank lines, zero-priced coins) is proved alongside.
- **`ListEdits`** (`list_edits.dfy`) holds the list transformations.
  - Delete by index is modelled as a position filter (`Without`).
  - The add-all action is modelled as one blank line per ticker (`AllCryptoLines`).
- **`App`** (`app.dfy`) holds the component itself.
  - `CryptoCalculator` is a class whose fields are the component's state variables: `cryptoData`, `amounts`, `totalValue`, `history`, `isLoading`, `error` and `customCrypto`.
  - It has one method per handler.
  - Line items are heap objects (`LineItem`). The edit handlers write one field of one object in place, as the source does.
  - A history entry holds the very same item objects as the live list, because the source copies the array shallowly. The model therefore reproduces the aliasing between saved entries and later edits (see Findings).

Modelling conventions:
- **Arithmetic:** amounts and prices are exact `real`s.
- **`parseFloat`:** a parameter `parse: string -> real` of the total computation.
- **Date text:** an opaque `string` passed to `SaveToHistory`.
- **Market-data request:** its result is an input, `FetchOutcome`: either the response records or a failure.
- **Recomputation:** the React effect that recomputes totals after every change to `amounts` or `cryptoData` becomes an explicit call of `CalculateTotal`.

What the component does, as the model follows it:
- **Rate:** the shekel rate is the literal 3.5. There is no exchange-rate feed.
- **Refresh:** prices are fetched once, when the component mounts. There is no periodic refresh.
- **Symbols:** fetched symbols are not canonicalised or sorted. An id missing from the ticker table is stored under the key `"undefined"`, which is what a JavaScript property key does with an `undefined` lookup result.
- **Edits:** the edit handlers mutate an item object in place.
- **History:** a history entry shares its item objects with the live list (see Findings).

## Model

| member | source | states |
|---|---|---|
| `Coins.Keys` | src/App.jsx:92 | the keys of the ticker table in declaration order: same length, k-th key is the k-th entry's ticker |
| `Coins.FindKeyFirstMatch` | src/App.jsx:41-43 | the reverse lookup returns nothing exactly when no entry has the id, and otherwise the ticker of the first entry with that id |
| `Coins.FindKeyOfEntry` | src/App.jsx:41-43 | in a table with distinct feed ids, looking up an entry's id returns that entry's own ticker |
| `Coins.SymbolRoundTrip` | src/App.jsx:13-24 | every ticker of the component's table is recovered from its own feed id |
| `Coins.KeyForMeaning` | src/App.jsx:41-44 | a record with a known feed id is stored under its ticker; any other id is stored under "undefined" |
| `Coins.IngestedKeys` | src/App.jsx:39-48 | the ingested price table has exactly one key per record key and no other keys |
| `Coins.IngestedLastWins` | src/App.jsx:39-48 | the entry under each key holds the price and image of the last record stored under that key |
| `Coins.Ingest` | src/App.jsx:39-48 | the ingestion loop returns the table `Ingested(records)` |
| `Coins.WithCustomCoin` | src/App.jsx:82-86 | existing entries are never overwritten; only a non-empty name is added; an added name has price 0 and the placeholder logo |
| `Valuation.EligibleLines` | src/App.jsx:107 | the filtered lines are exactly the lines with an amount, a coin and a coin present in the price table, each counted line kept as many times as it occurs |
| `Valuation.TotalIsPricedSumOfEligible` | src/App.jsx:105-110 | the USD total equals the plain sum of parse(amount) × price over exactly the eligible lines |
| `Valuation.TotalAppend` | src/App.jsx:105-110 | the total of two concatenated lists is the sum of their totals |
| `Valuation.TotalSkipsIneligible` | src/App.jsx:107 | a line without an amount, without a coin, or with an unknown coin contributes exactly 0, wherever it stands |
| `Valuation.TotalOfBlankAmounts` | src/App.jsx:107 | a list whose amounts are all empty totals 0, whatever the prices |
| `Valuation.AppendBlankKeepsTotal` | src/App.jsx:77-79 | appending a blank item leaves the USD total unchanged |
| `Valuation.ZeroPricedCoinAddsNothing` | src/App.jsx:85 | adding an unknown coin at price 0 leaves every total unchanged |
| `Valuation.BasketExample` | src/App.jsx:104-114 | 1 BTC at 50000 and 2 ETH at 2000 total 54000 USD and 189000 ILS |
| `ListEdits.WithoutCutsOne` | src/App.jsx:100 | filtering out an in-range index removes exactly that element and keeps the rest in order; any other index leaves the list unchanged |
| `ListEdits.WithoutShape` | src/App.jsx:100 | after removing index i, the list is one shorter, the elements before i are unchanged, and the later ones shift down by one |
| `ListEdits.RemoveLowersTotalByContribution` | src/App.jsx:99-102 | removing a line lowers the USD total by exactly that line's contribution |
| `ListEdits.BlankLinesFor` | src/App.jsx:92-95 | one line per key, in key order, each with an empty amount and that key as coin |
| `ListEdits.AllCryptoLinesShape` | src/App.jsx:91-97 | add-all gives ten blank-amount lines, BTC first, one per table key in declaration order, totalling 0 |
| `App.NewBlankItems` | src/App.jsx:92-95 | allocates one new, distinct item object per key whose values are the blank lines for those keys |
| `App.CryptoCalculator.constructor` | src/App.jsx:5-11 | initial state: empty price table, one blank item, zero totals, empty history, loading, no error, empty custom name |
| `App.CryptoCalculator.FetchCryptoData` | src/App.jsx:27-55 | on success the price table is replaced wholesale by the ingested records and there is no error; on failure the table is kept and the error message is set; loading ends either way |
| `App.CryptoCalculator.HandleAmountChange` | src/App.jsx:65-69 | the same list of objects; only item `index` gets the new amount; its coin, the length and every other item are unchanged |
| `App.CryptoCalculator.HandleCryptoChange` | src/App.jsx:71-75 | the same list of objects; only item `index` gets the new coin; its amount, the length and every other item are unchanged |
| `App.CryptoCalculator.AddNewCryptoInput` | src/App.jsx:77-79 | the list grows by one new item with empty amount and coin; the old items are an unchanged prefix |
| `App.CryptoCalculator.AddCustomCrypto` | src/App.jsx:81-89 | a non-empty, absent name is inserted at price 0 and the input is cleared; otherwise neither the table nor the input changes |
| `App.CryptoCalculator.AddAllCryptos` | src/App.jsx:91-97 | the list becomes new distinct objects, one blank-amount item per ticker in table order |
| `App.CryptoCalculator.RemoveCryptoInput` | src/App.jsx:99-102 | exactly the item at an in-range index is deleted and the others keep their order; any other index leaves the list unchanged |
| `App.CryptoCalculator.ComputeTotalUSD` | src/App.jsx:104-110 | the accumulator loop returns the filtered sum `TotalUSD` of the current item values under the current price table |
| `App.CryptoCalculator.CalculateTotal` | src/App.jsx:104-115 | the stored USD total is the filtered sum, and the ILS total is that same accumulator times 3.5 |
| `App.CryptoCalculator.SaveToHistory` | src/App.jsx:117-124 | prepends one entry with the given date, the current item objects in order and the current totals; the previous history follows unchanged |
| `App.CryptoCalculator.SaveThenEditAmount` | src/App.jsx:117-124 | after a save and an in-place amount edit, the saved entry reads the new amount beside its old total; it no longer shows what was saved |
| `App.CryptoCalculator.ReplaceAmount` | src/App.jsx:65-69 | corrected edit: item `index` becomes a new object with the new amount; every saved history entry reads exactly what it read before |
| `App.CryptoCalculator.ReplaceCrypto` | src/App.jsx:71-75 | corrected edit: item `index` becomes a new object with the new coin; every saved history entry reads exactly what it read before |
| `App.CryptoCalculator.SaveThenReplaceAmount` | src/App.jsx:117-124 | with the corrected edit, the saved entry keeps exactly the item values of the moment of saving |

## Left out

- The HTTP request to the market-data service: the URL, the query string and the request header (src/App.jsx:31-38). This is network I/O. Its result enters as a `FetchOutcome` value.
- React wiring (`useState`, `useEffect`, src/App.jsx:26-27, 56-63). The fetch is a method call, and recomputing the totals is an explicit `CalculateTotal` call.
- All rendering (src/App.jsx:126-254): the loading and error screens, the item editor, the history table and its logos, and the Hebrew labels. This is UI.
- `CalculateTotal`: stores exact reals, not the two-decimal strings that `toFixed(2)` produces. Floating-point rounding and formatting are not modelled.
- `ComputeTotalUSD`: `parseFloat` is the parameter `parse`. A non-numeric amount gives `NaN` in the source, and NaN propagation is not modelled.
- `SaveToHistory`: the date is an opaque string argument, because `new Date().toLocaleString()` is a clock and locale call.
- `console.error` logging on a failed fetch. This is I/O.
- Lookups keyed by names inherited from JavaScript's object prototype (such as `"constructor"`) are not modelled. The prices map has no such keys.
- A `null` price in the feed's records is not modelled: every record carries a real price.
- HandleAmountChange and HandleCryptoChange: require `index < |amounts|`. In the source an out-of-range index dereferences `undefined` and throws.
- `customCrypto` is never set by anything the component renders, and no button calls `addCustomCrypto`. The model still lets the field be set directly and models the handler.

## Findings

| source | as written | input that shows it | evidently intended | confidence | as-written member | corrected member |
|---|---|---|---|---|---|---|
| src/App.jsx:66-67 | The amount handler copies the array and then writes into the shared item object. The history entry saved at src/App.jsx:120 holds the same objects. | Items `[("1","BTC")]`, save, then change item 0's amount to `"2"`. The saved entry reads `BTC: 2` next to the total computed for 1 BTC. | A saved entry keeps the items as they were at save time. | high, not executed | `App.CryptoCalculator.SaveThenEditAmount` | `App.CryptoCalculator.SaveThenReplaceAmount` |

The coin handler at src/App.jsx:72-73 has the same defect. `App.CryptoCalculator.ReplaceCrypto` is its corrected form. The corrected edits put a new item object at the edited index. They are proved to leave every saved entry's values unchanged.

