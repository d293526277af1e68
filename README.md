# Currency swap form — a Dafny model

This project models the logic of the currency swap form (`CurrencySwapForm`).
The form:

- fetches a feed of price observations and keeps one price per currency;
- turns the result into a catalog of tokens with display names and balances;
- sorts the catalog by price times balance, largest first;
- picks ETH and USDC as the default sides;
- keeps the two amounts in step through an exchange-rate effect.

The handlers for swapping sides, the MAX button, the amount inputs, the token
picker and submitting the form are modelled as well.

The model has five modules:

- `Wrappers`: `Option` and the `|| 0` fallback on an optional number.
- `Prices`: the price-aggregation loop over the feed. The JavaScript `Map` is
  modelled with its insertion order. A separate reference definition picks the
  latest observation, and lemmas relate the loop to it, including two inputs
  where the loop and the reference definition give different prices.
- `Catalog`: the token record, the name table, the catalog entries, the
  in-place sort (on an `array`) and the default selection.
- `Selector`: the token picker's search filter.
- `SwapForm`: the form's state as a value (`FormState`) and as a class
  (`Form`) whose fields the handlers update in place. Each handler is followed
  by one run of the recompute effect (`Form.Recompute`), as React runs the
  effect after the batched setters. Every handler keeps `Settled()`: after the
  effect, running it again would change nothing.

Modelling choices:

- Prices, balances and amounts are reals.
- Dates are integers compared by `>`.
- `parseFloat`, `toFixed(6)` and `Number.prototype.toString` are the fields
  of a `Numbers` value that the form is given, so nothing is assumed about
  them.
- The random demo balance is a parameter `balanceOf`.

Two behaviours of the code are modelled as written:

- The effect runs again after a swap, because both amounts and both tokens
  are among its dependencies (`src/components/CurrencySwapForm.tsx:248`);
  `Form.SwapTokens` runs it.
- A non-numeric amount is not special-cased: the effect writes
  `num.fixed6(num.parse(text) * rate)`, whatever `parse` makes of the text.

## Model

| member | source | states |
|---|---|---|
| Wrappers.OrZero | src/components/CurrencySwapForm.tsx:205 | `x \|\| 0`: a present value is kept, and the result is 0 exactly when the value is missing or 0 |
| Prices.PriceMap.Set | src/components/CurrencySwapForm.tsx:192 | `Map.set`: the map stays well formed, the key now holds the new price, every other key keeps its price, an existing key keeps its place in the insertion order, and a new key goes last |
| Prices.Find | src/components/CurrencySwapForm.tsx:190 | `priceData.find(p => p.currency === c && p.price === v)`: the index of the first observation of `c` at price `v`, or none when no observation matches |
| Prices.Step | src/components/CurrencySwapForm.tsx:189-193 | one callback of the `forEach` keeps the map well formed |
| Prices.Visit | src/components/CurrencySwapForm.tsx:189-193 | the imperative callback (read the stored price, look up its date, maybe set) computes exactly `Step` |
| Prices.AggregatePrices | src/components/CurrencySwapForm.tsx:186-194 | the loop over the feed yields `Aggregate(feed)`, a well-formed map |
| Prices.AggregateMeaning | src/components/CurrencySwapForm.tsx:186-194 | the aggregated map holds exactly the currencies seen in the feed, each with the price of some observation of that currency; when a currency's prices are nonzero and pairwise distinct, it holds the price of that currency's latest observation |
| Prices.AggregateKeys | src/components/CurrencySwapForm.tsx:186-194 | after any prefix of the feed, the map's keys are exactly the currencies observed in that prefix |
| Prices.AggregateFromFeed | src/components/CurrencySwapForm.tsx:186-194 | after any prefix, every stored price is the price of some observation of that currency in the prefix |
| Prices.LatestBefore | src/components/CurrencySwapForm.tsx:186 | the reference "latest price" choice: an index before `n` of an observation of `c` |
| Prices.LatestBeforeIsLatest | src/components/CurrencySwapForm.tsx:186 | the reference choice is none exactly when `c` is not observed; otherwise it has the greatest date, and it is the earliest such index |
| Prices.LatestWins | src/components/CurrencySwapForm.tsx:189-194 | when the currency's prices are nonzero and pairwise distinct, the loop's price after every prefix is the reference latest price |
| Prices.ZeroPriceIsOverwritten | src/components/CurrencySwapForm.tsx:190-192 | a stored price of 0 counts as missing: a later price 0 followed by an older price 7 leaves 7, although the latest price is 0 |
| Prices.RepeatedPriceIsMisdated | src/components/CurrencySwapForm.tsx:190 | the date of a stored price is looked up by value, so a repeated price takes the date of its first occurrence: prices 5 (day 1), 5 (day 3), 7 (day 2) leave 7, although the latest price is 5 |
| Catalog.DisplayName | src/components/CurrencySwapForm.tsx:199 | `TOKEN_NAMES[symbol] \|\| symbol`: the table's name when it has a non-empty one, otherwise the symbol, so a non-empty symbol never gets an empty name |
| Catalog.EntryOf | src/components/CurrencySwapForm.tsx:197-202 | the token built for one map entry has that symbol, its display name, the aggregated price and the supplied balance, and its cap is price times balance |
| Catalog.Entries | src/components/CurrencySwapForm.tsx:197-202 | one token per map entry: the i-th token is the entry of the i-th key in insertion order, symbols distinct, each with its display name, its aggregated price and its balance; every currency of the map has its token |
| Catalog.Cap | src/components/CurrencySwapForm.tsx:205 | the sort key is price times balance, and 0 when either is missing |
| Catalog.SortDescending | src/components/CurrencySwapForm.tsx:205 | the in-place sort leaves the array in non-increasing key order and a permutation of its old contents |
| Catalog.InsertLast | src/components/CurrencySwapForm.tsx:205 | one insertion step makes `a[..i+1]` sorted and a permutation of its old contents, and leaves `a[i+1..]` unchanged |
| Catalog.BuildCatalog | src/components/CurrencySwapForm.tsx:186-205 | the catalog is a permutation of the entries of the aggregated feed, has the same members, and is sorted by `(price \|\| 0) * (balance \|\| 0)`, largest first |
| Catalog.FindSymbol | src/components/CurrencySwapForm.tsx:211 | `tokensArray.find(t => t.symbol === symbol)`: the first index with that symbol, or none when no token has it |
| Catalog.Preferred | src/components/CurrencySwapForm.tsx:211 | `find(...) \|\| tokensArray[fallback]`: a catalog token, the first with the symbol when there is one, the fallback entry otherwise |
| Catalog.DefaultFrom | src/components/CurrencySwapForm.tsx:210-213 | a chosen `from` token is kept; an empty side is filled exactly when the catalog is non-empty: with the first ETH token when there is one, otherwise with `catalog[0]` |
| Catalog.DefaultTo | src/components/CurrencySwapForm.tsx:214-217 | a chosen `to` token is kept; an empty side is filled exactly when the catalog has two or more tokens: with the first USDC token when there is one, otherwise with `catalog[1]` |
| Catalog.DefaultsMayCoincide | src/components/CurrencySwapForm.tsx:210-217 | the defaults can put the same token on both sides: with no ETH and USDC first, both sides get USDC |
| Selector.Lower | src/components/CurrencySwapForm.tsx:81-82 | `toLowerCase` keeps the length and lowercases each character |
| Selector.Includes | src/components/CurrencySwapForm.tsx:81-82 | `s.includes(sub)`: only a string no longer than `s` can occur in it, and a string as long as `s` occurs in it exactly when it equals `s` |
| Selector.MatchesTerm | src/components/CurrencySwapForm.tsx:81-82 | the search test: an empty term matches every token, and a matching term is no longer than the symbol or the name |
| Selector.FilterTokens | src/components/CurrencySwapForm.tsx:79-83 | the picker offers the catalog's tokens in their order, and a token is offered exactly when it is in the catalog, is not the excluded token, and its symbol or name contains the term, ignoring case |
| Selector.IncludesEmpty | src/components/CurrencySwapForm.tsx:81-82 | every string includes the empty search term |
| Selector.EmptyTermKeepsAll | src/components/CurrencySwapForm.tsx:79-83 | with an empty search term every token but the excluded one is offered, and with nothing excluded the list is the catalog itself |
| SwapForm.ExchangeRate | src/components/CurrencySwapForm.tsx:233-236 | the rate is 1 when either price is missing or 0; otherwise rate times the `to` price is the `from` price |
| SwapForm.RateReciprocal | src/components/CurrencySwapForm.tsx:233-236 | for two priced tokens the rates in the two directions multiply to 1 |
| SwapForm.Scaled | src/components/CurrencySwapForm.tsx:241-245 | `(parseFloat(amount) * rate).toFixed(6)`: at rate 1 the amount is only reformatted, and a zero amount or rate gives the formatted 0 |
| SwapForm.Recomputed | src/components/CurrencySwapForm.tsx:238-248 | the effect keeps the tokens, both sides, the edited field and the edited amount; when both sides are chosen and the edited amount is non-empty it writes the converted amount into the other field, and otherwise it changes nothing |
| SwapForm.RecomputeIdempotent | src/components/CurrencySwapForm.tsx:238-248 | a second run of the effect changes nothing, so the effect settles after one run |
| SwapForm.Swapped | src/components/CurrencySwapForm.tsx:250-258 | the swap exchanges the two tokens and the two amounts and keeps the catalog and the edited field |
| SwapForm.SwapInvolution | src/components/CurrencySwapForm.tsx:250-258 | swapping twice restores the state |
| SwapForm.SwapKeepsMovedAmount | src/components/CurrencySwapForm.tsx:238-258 | after a swap and its effect, the amount on the edited side is the one that was on the other side, unchanged |
| SwapForm.FromEdited | src/components/CurrencySwapForm.tsx:349-352 | the `from` input's change sets the `from` amount to the text and marks `from` as edited, leaving the rest |
| SwapForm.ToEdited | src/components/CurrencySwapForm.tsx:401-404 | the `to` input's change sets the `to` amount to the text and marks `to` as edited, leaving the rest |
| SwapForm.EditSurvives | src/components/CurrencySwapForm.tsx:349-352 | what the user types stays in the field they typed into, and that field becomes the edited one, after the effect runs |
| SwapForm.MaxClicked | src/components/CurrencySwapForm.tsx:260-265 | MAX with a nonzero balance puts the balance's text into the `from` amount and marks `from` as edited; without one it changes nothing |
| SwapForm.CanSubmit | src/components/CurrencySwapForm.tsx:268 | the guard of `handleSwap` holds exactly when the effect, with `from` edited, would have work to do: both sides chosen and a non-empty `from` amount |
| SwapForm.Cleared | src/components/CurrencySwapForm.tsx:282-283 | the reset empties both amounts, so the guard no longer holds, and keeps the catalog, the sides and the edited field |
| SwapForm.ClearedIsSettled | src/components/CurrencySwapForm.tsx:282-283 | the effect leaves a form with both amounts cleared as it is |
| SwapForm.Loaded | src/components/CurrencySwapForm.tsx:207-217 | loading installs the catalog, fills the sides through the default rules and keeps the amounts and the edited field |
| SwapForm.ExampleAggregate | src/components/CurrencySwapForm.tsx:186-194 | ETH at 2000 then 2200 on a later day, and USDC at 1, aggregate to ETH 2200 and USDC 1, in that order |
| SwapForm.ExampleEntries | src/components/CurrencySwapForm.tsx:197-202 | those prices become the tokens "Ethereum" and "USD Coin" |
| SwapForm.ExampleConversion | src/components/CurrencySwapForm.tsx:238-242 | typing "2" with ETH at 2200 and USDC at 1 writes `fixed6(parse("2") * 2200)` into the `to` amount |
| SwapForm.MissingPriceExample | src/components/CurrencySwapForm.tsx:233-235 | with no price on the `to` side the amount is converted at rate 1 |
| SwapForm.Form.constructor | src/components/CurrencySwapForm.tsx:162-169 | the form starts with no tokens, no sides, empty amounts, `from` edited, and settled |
| SwapForm.Form.Recompute | src/components/CurrencySwapForm.tsx:238-248 | the effect, run on the fields, leaves the state `Recomputed` describes and a settled form |
| SwapForm.Form.FetchPrices | src/components/CurrencySwapForm.tsx:173-217 | after a successful fetch the catalog is a permutation of the aggregated entries sorted by cap, the sides are filled by the default rules, and the form is settled |
| SwapForm.Form.SelectFromToken | src/components/CurrencySwapForm.tsx:338-343 | picking from the filtered list sets a catalog token on the `from` side that differs from the `to` token, then the effect runs |
| SwapForm.Form.SelectToToken | src/components/CurrencySwapForm.tsx:390-395 | picking from the filtered list sets a catalog token on the `to` side that differs from the `from` token, then the effect runs |
| SwapForm.Form.EditFromAmount | src/components/CurrencySwapForm.tsx:349-352 | typing sets the `from` amount and marks `from` as edited; the effect then writes only the `to` amount |
| SwapForm.Form.EditToAmount | src/components/CurrencySwapForm.tsx:401-404 | typing sets the `to` amount and marks `to` as edited; the effect then writes only the `from` amount |
| SwapForm.Form.SwapTokens | src/components/CurrencySwapForm.tsx:250-258 | the tokens change sides, the amount moved onto the edited side survives the effect that follows, and the form is settled |
| SwapForm.Form.MaxClick | src/components/CurrencySwapForm.tsx:260-265 | the state becomes `MaxClicked` followed by the effect, and the form is settled |
| SwapForm.Form.Submit | src/components/CurrencySwapForm.tsx:267-284 | the form is accepted exactly when both sides are chosen and the `from` amount is non-empty; an accepted form ends with both amounts cleared; a refused one is unchanged |

## Left out

- Fetching, the loading flag, the error message and the `try`/`catch`: the feed reaches `Form.FetchPrices` as a parameter, and a failed fetch is not modelled.
- The random demo balance: `balanceOf` is a parameter.
- Date parsing: dates are integers. An unparseable date, on the item or on the observation `find` returns, makes the `>` of `src/components/CurrencySwapForm.tsx:191` false: that item never replaces a stored non-zero price, and a stored non-zero price with such a date is never replaced. The model cannot express this. Only the `''` fallback after a failed `find` is modelled, as `Find` returning none, which never replaces a price.
- Floating point, `NaN` and `Infinity`: numbers are exact reals. `parseFloat`, `toFixed(6)` and `toString` are the uninterpreted fields of `Numbers`.
- SwapForm.ExchangeRate: a `NaN` price is not modelled, because prices are reals; only a missing price and a 0 price are falsy.
- Form.Submit: it is one atomic step (the guard, then the reset). The `isLoading` flag and the button it disables while set are not modelled, nor are edits made during the two-second delay, which the reset then wipes. The `alert`s are left out as output.
- Slippage: its input is not read by any modelled operation.
- The picker's open state and search-term state: `Form.SelectFromToken` and `Form.SelectToToken` take the term and the chosen entry as parameters.
- The rendering (JSX, icons, balance display).
- Token identity: `!==` on token objects is modelled as value equality. This matches the form, because every token object comes from one catalog whose symbols are distinct.
- Selector.Lower: only ASCII letters are lowercased. Full Unicode case mapping is not modelled.
- Catalog.DisplayName: keys inherited from the object prototype (such as `constructor`) are not in the name table.
- Catalog.SortDescending: the order among tokens with equal keys is not stated. The insertion sort keeps them in order, as a stable sort does, but no contract says so.
