# Portfolio tracker core in Dafny

This project models the core of PortfolioTracker, a small investment tracker.
Users record BUY and SELL transactions for their assets. The tracker reports each open position:
- quantity held;
- average and total cost basis;
- given a market price, the market value and the unrealized profit and loss.

The modelled pieces all come from `src/crud.py`:

- **The position valuator** (`get_portfolio_performance`). It replays one asset's transactions in order.
  - A BUY appends a purchase lot (date, quantity, cost per unit including fees).
  - A SELL cuts an oversell down to the quantity held. It sorts the lots by date and consumes them first in, first out. A lot left with more than the tolerance keeps its date and unit cost; a used-up lot is dropped.
  - Running totals track the quantity held, the money still invested and the realized result.
  - An open position is reported only above the tolerance of 1e-9. With a price, it also reports market value, unrealized P&L and a percentage that is finite, infinite or zero.
  - Modules:
    - `Lots`: the lots and the inner loop.
    - `Valuation`: the replay and the report.
    - `ValuationProperties`: what a replay guarantees.
    - `Portfolio`: the loop over the user's assets.
- **Validation of amounts** (`_validate_and_convert_transaction_data`, module `Validation`). Every input must read as a decimal. Then the quantity must exceed the tolerance and neither the price nor the fees may be negative. A valid triple comes back unchanged.
- **Editing a transaction** (`update_transaction`, module `TransactionUpdate`).
  - The quantity, price and fees the record would end up with are validated together.
  - Every other supplied field is converted on its own: date, transaction type by name or member, owned asset id, stripped notes.
  - Only the supplied fields are then written to the record, one `setattr` at a time. The record is a class whose fields the update sets in place.
- **Creating an asset** (`create_asset`, module `Assets`). The symbol is stripped and upper-cased (module `Text`). An empty result is refused, and so is a symbol the owner already holds (compared upper-cased).

Decimals are exact `real`s. Dates are integers, since only their order matters. `Decimal('inf')` for the P&L percentage is the `Infinite` case of `Percent`.

## Model

| member | source | states |
|---|---|---|
| Validation.ValidateTransactionData | src/crud.py:148-166 | accepted iff all three read as decimals, quantity > 1e-9, price >= 0 and fees >= 0; the values come back unchanged; each refusal reason holds exactly under its condition, checked in the order quantity, price, fees |
| Validation.ValidatedAmountsRevalidate | src/crud.py:148-166 | validated amounts validate again to themselves |
| Text.Strip | src/crud.py:113 | the result is no longer than the input; it is empty iff the input is all white space, and otherwise neither starts nor ends with white space |
| Text.StripSpan | src/crud.py:113 | the strip is exactly the input's characters between its leading and its trailing white space, and everything outside that span is white space |
| Text.TrimmedSpan | src/crud.py:113 | trimming white space from the front and then from the back leaves one contiguous span of the input with only white space around it |
| Text.TrimStart | src/crud.py:113 | the result is a suffix of the input and only white space was removed |
| Text.TrimEnd | src/crud.py:113 | the result is a prefix of the input and only white space was removed |
| Text.StripIdempotent | src/crud.py:113 | stripping twice is stripping once |
| Text.StripOfStripped | src/crud.py:113 | a string without white space at its ends is its own strip |
| Text.UpperChar | src/crud.py:113 | no lower-case letter remains; white space is kept; other characters are untouched |
| Text.Upper | src/crud.py:113 | same length; each character upper-cased |
| Text.UpperIdempotent | src/crud.py:113 | upper-casing twice is upper-casing once |
| Assets.NormalizeSymbol | src/crud.py:113-115 | refused (empty symbol) iff the input is all white space; otherwise the input stripped and upper-cased, a non-empty upper-case symbol without surrounding white space, no longer than the input |
| Assets.StrippedUpper | src/crud.py:113-114 | strip-then-upper is empty iff the input is all white space, and otherwise a normal symbol |
| Assets.NormalSymbolIsStripped | src/crud.py:113 | a normal symbol has no white space to strip |
| Assets.NormalizeSymbolIdempotent | src/crud.py:113-115 | a normalised symbol normalises to itself |
| Assets.NormalizedSymbolQuery | src/crud.py:106-107 | looking up the normalised symbol compares the same as looking up the raw one |
| Assets.CreateAsset | src/crud.py:112-125 | created iff the symbol normalises and the owner has no asset with that symbol (upper-cased); the asset gets the normalised symbol, the stripped name, the owner and the type; an all-white-space symbol is refused as empty, and a taken one as a duplicate naming the normalised symbol |
| Assets.CreateAssetKeepsSymbolsUnique | src/crud.py:116-120 | adding the created asset keeps every owner's upper-cased symbols pairwise different |
| Assets.CreatedSymbolIsNew | src/crud.py:116-119 | the created symbol differs, upper-cased, from each symbol the owner already has |
| Assets.AppendNewSymbol | src/models.py:46 | appending an asset with a new symbol for its owner keeps symbols unique |
| Lots.Min | src/crud.py:343 | the minimum is one of the two and no greater than either |
| Lots.InsertByDate | src/crud.py:336 | the result holds the same lots plus the new one (multiset) |
| Lots.InsertByDateKeepsOrder | src/crud.py:336 | inserting into date-ordered lots keeps them date-ordered |
| Lots.InsertByDateBounded | src/crud.py:336 | insertion adds no date later than a common bound |
| Lots.AppendLatest | src/crud.py:336 | appending a lot dated no earlier than all others keeps date order |
| Lots.SortByDate | src/crud.py:336 | the result is date-ordered and a permutation of the input |
| Lots.SortByDateOfSorted | src/crud.py:336 | the sort leaves date-ordered lots exactly as they were |
| Lots.InsertAfterLatest | src/crud.py:336 | a lot dated no earlier than the last goes at the end |
| Lots.SortedPrefix | src/crud.py:336 | every prefix of date-ordered lots is date-ordered |
| Lots.ConsumeFrom | src/crud.py:338-354 | a sale from lot i on keeps at most the lots from i on |
| Lots.Leftover | src/crud.py:347-352 | a lot leaves at most one reduced lot |
| Lots.SellFromLots | src/crud.py:334-354 | the loop's kept lots and cost basis are those of the FIFO sale `ConsumeFifo` |
| Lots.ConsumeOnwardIsConsumeFrom | src/crud.py:338-354 | running the loop to its end from any state appends the rest of the sale to what was already kept and counted |
| Lots.ConsumeFifoKeepsSuffix | src/crud.py:338-354 | the kept lots are the newest lots, in order and unchanged, except that the oldest kept lot may be reduced: same date and unit cost, more than the tolerance left, and exactly its quantity less what was taken from it, in which case the quantities kept and taken add up exactly to the lots' |
| Lots.ConsumeFifoKeptNewest | src/crud.py:338-354 | the kept lots are the newest lots in order, the oldest of them possibly reduced to more than the tolerance at the same date and unit cost |
| Lots.ConsumeFifoReducedLot | src/crud.py:343-349 | a lot the sale stops inside keeps exactly its quantity less what was taken from it, and then kept plus taken equals what the lots held |
| Lots.ReducedStopsIn | src/crud.py:343-349 | the sale ending inside a lot leaves it holding its quantity less the rest of the sale |
| Lots.ReducedPassesLot | src/crud.py:343-352 | a lot taken in full is dropped and the rest of the sale decides what is kept |
| Lots.ConsumeFifoHead | src/crud.py:338-354 | the kept lots are one lot, unchanged or reduced by exactly what was taken from it, followed by the newest lots unchanged |
| Lots.ConsumeFifoKeepsSettled | src/crud.py:338-354 | a sale keeps date-ordered lots above the tolerance at non-negative unit costs in that shape |
| Lots.KeepNewest | src/crud.py:347-349 | replacing the oldest settled lots by a partly used lot of the same date and cost keeps them settled |
| Lots.SettledAppend | src/crud.py:318 | a new latest lot above the tolerance keeps the lots settled |
| Lots.SettledLater | src/crud.py:318 | settled up to a date is settled up to any later date |
| Lots.ConsumeFifoConservesQuantity | src/crud.py:343-354 | kept quantity plus quantity sold equals the quantity before, up to one dropped remainder of at most the tolerance |
| Lots.ConsumeStep | src/crud.py:343-349 | one step of the sale: what the first lot gives up and keeps, followed by the rest of the sale |
| Lots.LeftoverQuantity | src/crud.py:347-352 | what a lot keeps plus what was taken is its quantity, up to the tolerance |
| Lots.ConsumeFifoSettles | src/crud.py:339-345 | a sale either ends within the tolerance or uses up every lot; the unsold part is never negative |
| Lots.ConsumeFifoConservesCost | src/crud.py:343-349 | at non-negative unit costs, the kept lots' cost plus the cost basis is at most the lots' cost before |
| Lots.LeftoverCost | src/crud.py:344-349 | what a lot keeps costs, with the cost of what was taken, no more than the lot |
| Lots.Taken | src/crud.py:339-345 | one quantity taken per lot from index i on |
| Lots.ConsumeFifoTaken | src/crud.py:343-345 | the cost basis is the sum over the lots of the quantity taken times the unit cost; the quantity sold is the sum of the quantities taken |
| Lots.TakenNothing | src/crud.py:339-341 | once the sale is within the tolerance, nothing more is taken and nothing costs |
| Lots.TakenOldestFirst | src/crud.py:338-345 | a lot is touched only once every older lot was taken in full, and a lot of non-negative quantity gives up between nothing and all it holds |
| Lots.QtySumAppend | src/crud.py:318-319 | appending a lot adds its quantity to the total |
| Lots.CostSumAppend | src/crud.py:318-320 | appending a lot adds its cost to the total |
| Lots.QtySumNonNegative | src/crud.py:338-354 | lots of non-negative quantity hold a non-negative total |
| Lots.CostSumNonNegative | src/crud.py:363-365 | lots with non-negative quantities and unit costs cost a non-negative total |
| Valuation.MissingFeesCountAsZero | src/crud.py:312 | a transaction with NULL fees is valued exactly as one with zero fees |
| Valuation.UnitCost | src/crud.py:315-316 | above the tolerance, unit cost times quantity is price times quantity plus fees (and at least the price); otherwise zero |
| Valuation.SellQuantity | src/crud.py:330-332 | an oversell by more than the tolerance is cut to the quantity held; held minus the result is at least minus the tolerance |
| Valuation.PnlPercent | src/crud.py:375-381 | finite with percent times cost basis equal to 100 times P&L, and of the P&L's sign, when cost basis > tolerance; infinite iff cost basis <= tolerance < market value; zero when both are within the tolerance |
| Valuation.Report | src/crud.py:363-392 | a position iff quantity > tolerance; total cost basis is the investment; average times quantity is the total; market value, P&L and percentage are present iff a price is, and equal quantity times price, value minus cost basis and PnlPercent |
| Valuation.BoughtStep | src/crud.py:314-320 | the BUY branch's updates (a lot at the end costing price times quantity plus fees per unit, quantity and investment grown) are exactly one `Step` of the replay |
| Valuation.SoldStep | src/crud.py:323-358 | the SELL branch's updates (capped quantity, date-sorted lots consumed oldest first, investment reduced by the cost basis, realized result grown by proceeds less that cost) are exactly one `Step` of the replay |
| Valuation.AssetPosition | src/crud.py:302-392 | the imperative loop yields `Report(Replay(transactions), price)` |
| Valuation.ReplayNext | src/crud.py:308 | one more transaction is one more step of the replay |
| ValuationProperties.BuyAppendsLot | src/crud.py:314-320 | a BUY appends exactly one lot and keeps the others; the lot's date and quantity are the transaction's, and its unit cost times quantity is price times quantity plus fees; quantity and investment grow accordingly; the realized result is unchanged |
| ValuationProperties.SellReducesHolding | src/crud.py:323-358 | a SELL lowers the quantity by the cut-down sell quantity, never below minus the tolerance; the realized result grows by proceeds less the investment removed |
| ValuationProperties.SellKeepsNewestLots | src/crud.py:336-354 | a SELL on date-ordered lots keeps only the newest lots, the oldest kept one unchanged or reduced by exactly what was taken from it (then with no remainder dropped) |
| ValuationProperties.SellConservesQuantity | src/crud.py:343-355 | a SELL takes from the lots what it sells, up to one dropped remainder within the tolerance |
| ValuationProperties.SellConservesCost | src/crud.py:343-356 | a SELL lowers the investment by no more than the cost of the lots it gives up |
| ValuationProperties.SellCostBasis | src/crud.py:336-356 | a SELL lowers the investment by the sum of quantity taken times unit cost over the lots, taken oldest first and never more than a lot holds |
| ValuationProperties.ValidHistoryPrefix | src/crud.py:143-146 | a prefix of a validated, date-ordered history is one too |
| ValuationProperties.StepConsistent | src/crud.py:308-358 | a validated transaction keeps lots settled, lot cost within the investment and quantity above minus the tolerance |
| ValuationProperties.StepTracked | src/crud.py:308-358 | a validated transaction keeps the holding consistent and widens the gap between quantity held and quantity in lots by at most the tolerance, and only on a SELL |
| ValuationProperties.ReplayTracked | src/crud.py:308-358 | over a validated, date-ordered history: consistent holding, and the quantity held within the tolerance per SELL of the quantity in the lots |
| ValuationProperties.ReplaySortIsIdentity | src/crud.py:336 | over a validated, date-ordered history the sort before each sale changes nothing |
| ValuationProperties.ReplayCashFlow | src/crud.py:315-358 | investment minus realized result equals net money paid in, for every history |
| ValuationProperties.BuysOnlyExact | src/crud.py:314-320 | BUYs only: one lot per transaction in order; lots hold exactly the quantity and cost exactly the investment; nothing realized |
| ValuationProperties.SoldFromSorted | src/crud.py:336-358 | a SELL from lots already in date order consumes them as they are |
| ValuationProperties.SoldDrift | src/crud.py:330-355 | a SELL from date-ordered lots widens the quantity gap by at most the tolerance |
| ValuationProperties.BuyDrift | src/crud.py:318-319 | a BUY leaves the quantity gap as it was |
| ValuationProperties.SellDrift | src/crud.py:330-355 | the gap after consuming lots for a cut-down sale grows by at most the tolerance |
| ValuationProperties.SaleQuantities | src/crud.py:338-354 | the bounds on kept quantity and unsold part of one sale |
| ValuationProperties.ReportedCostNotNegative | src/crud.py:363-365 | over a validated, date-ordered history the reported total and average cost basis are not negative |
| Portfolio.PortfolioPerformance | src/crud.py:292-397 | the loop over assets yields `Positions(assets)` |
| Portfolio.PositionOfAsset | src/crud.py:363-394 | with distinct symbols, a symbol is in the summary iff its asset holds more than the tolerance, with the position its own transactions and price give |
| Portfolio.PositionsLastSymbol | src/crud.py:387-392 | the last asset decides its symbol's entry when no earlier asset made one |
| Portfolio.PositionsOtherSymbol | src/crud.py:387-392 | the last asset leaves other symbols' entries alone |
| Portfolio.PositionsOnlyOfAssets | src/crud.py:387-392 | every symbol in the summary is some asset's symbol |
| TransactionUpdate.FieldOfKey | src/crud.py:214-243 | a handled key names the field with that key; any other key names none |
| TransactionUpdate.KeyOfField | src/crud.py:214-243 | a key names a field exactly when it is that field's key |
| TransactionUpdate.Get | src/crud.py:254-255 | reading a field gives an assignment to that field |
| TransactionUpdate.Apply | src/crud.py:254-255 | `setattr` sets the one field, changes no other field and keeps id and owner |
| TransactionUpdate.NonDecimalAmountRefused | src/crud.py:196-210 | None, a datetime, a transaction type or unreadable text under an amount key refuses the update as an invalid number |
| TransactionUpdate.Truncate | src/crud.py:236 | `int()` of a number truncates toward zero |
| TransactionUpdate.ConvertField | src/crud.py:219-243 | a date is accepted iff a datetime or text one of the two formats reads, and becomes that date; a type is accepted iff a member (kept as it is) or a name that upper-cases to BUY or SELL; an asset id is accepted iff `int()` of it (truncation of a number, parsing of text) is an owned id, and becomes that id; notes fail iff truthy and not text, with the not-text error naming the key, and are stripped text or None otherwise; any other refusal names the key |
| TransactionUpdate.TransactionRecord.constructor | src/models.py:73-84 | the record holds the given transaction |
| TransactionUpdate.TransactionRecord.Assign | src/crud.py:255 | one `setattr`: the record becomes `Apply` of the assignment |
| TransactionUpdate.TransactionRecord.AssignAll | src/crud.py:254-255 | the `setattr` loop: the record becomes `ApplyAll` of the assignments |
| TransactionUpdate.UpdateTransaction | src/crud.py:196-255 | the result is `UpdatedTransaction` of the old record; on success the record holds it, on refusal the record is unchanged |
| TransactionUpdate.ConvertUpdates | src/crud.py:213-248 | the loop over the dictionary yields `Converted(updates)` |
| TransactionUpdate.ConvertedErrorStays | src/crud.py:244-246 | a refused prefix refuses the whole dictionary with the same error |
| TransactionUpdate.ConvertedOkIff | src/crud.py:213-248 | the other fields convert iff every entry with a handled non-amount key converts |
| TransactionUpdate.ConvertedIgnored | src/crud.py:213-248 | a dictionary without handled keys converts to nothing |
| TransactionUpdate.ConvertedFind | src/crud.py:213-248 | the converted fields hold, for each supplied handled non-amount key, the conversion of its value, and nothing for unsupplied or amount keys |
| TransactionUpdate.AmountAssignmentsFind | src/crud.py:206-208 | the amount assignments hold exactly the supplied amount keys with their validated values |
| TransactionUpdate.ApplyAllFind | src/crud.py:254-255 | after the assignments each field holds the last value assigned to it, or its old value; id and owner kept |
| TransactionUpdate.FindAppend | src/crud.py:254-255 | the last assignment to a field in two runs comes from the second run if it has one |
| TransactionUpdate.SameFields | src/models.py:73-84 | a transaction is determined by id, owner and the writable fields |
| TransactionUpdate.UpdateSetsOnlySuppliedFields | src/crud.py:196-255 | on success id and owner are kept, unsupplied fields keep their values, and each supplied field holds the conversion of its supplied value |
| TransactionUpdate.UpdatedAmounts | src/crud.py:197-208 | on success the amounts are the validated merged ones |
| TransactionUpdate.UpdateKeepsAmountsValid | src/crud.py:197-208 | on success the record has fees and its amounts pass validation |
| TransactionUpdate.ApplyAllTwice | src/crud.py:254-255 | writing the same assignments twice is writing them once |
| TransactionUpdate.UpdateIdempotent | src/crud.py:196-255 | re-submitting accepted changes is accepted and changes nothing more |
| TransactionUpdate.LookupAbsent | src/crud.py:198-200 | a key no entry carries has no value |
| TransactionUpdate.OnlyIgnoredKeysKeepRecord | src/crud.py:250-252 | only unhandled keys and valid stored amounts: nothing to write and the record is returned as it is |
| TransactionUpdate.NullFeesRefuseUpdate | src/crud.py:200-205 | a record with NULL fees is refused unless the update supplies fees |

## Left out

- `get_current_price` (yfinance, network) is not modelled; the market price is an `Option<real>` parameter of each asset.
- Password hashing, and all SQLAlchemy queries, commits, refreshes and rollbacks, are not modelled. The user's assets and each asset's transactions (already in date, then id, order) are input sequences. A failing commit is not modelled.
- `update_transaction` returning None for a missing or foreign transaction is not modelled; the record is given.
- Logging is not modelled; it has no effect on results.
- Text parsing by library code is not modelled: `Decimal(str)`, `int(str)` and `strptime` with its two formats are parameters (`Environment`). The set of owned asset ids stands for the `get_asset` query.
- Decimal context precision, rounding, NaN and infinite inputs are not modelled; decimals are exact reals. So a float NaN as `asset_id` (refused as an invalid field) and a float infinity as `asset_id` (an OverflowError that escapes uncaught) are not modelled either.
- Booleans as inputs are not modelled.
- Upper-casing covers ASCII letters only. Python's `str.upper` also maps other letters; SQLite's `upper` in the symbol lookup is ASCII only.
- `create_transaction`, `delete_transaction`, `get_realized_gains` and the GUI and console front ends are outside the modelled core.
- The realized result of each asset is computed (`Holding.realizedPnl`) but, as in the source, not reported. The `asset` object stored with each position is represented only by its symbol.
- `update_transaction`'s `updates` dictionary is a sequence of (key, value) pairs. A dictionary holds each key once, and sequences that repeat a key are outside the model: `Lookup` takes the last entry, but `Converted` converts every entry, so an earlier unconvertible value would refuse an update that a dictionary (last value wins) accepts.
- `TransactionUpdate.ConvertField`: a truthy non-text `notes` value raises AttributeError in the source, not ValueError. The model reports this as the separate error `NotText`.
- `Lots.SortByDate`: the contract states that the result is sorted and a permutation, but not that the sort is stable (lots with equal dates keep their order), as Python's sort is. A replay only sorts lots that are already in date order, and for those `SortByDateOfSorted` proves the result is the input itself.
- `TransactionUpdate.NullFeesRefuseUpdate`: a stored transaction whose fees are NULL makes the merged fees `Decimal('None')`, so every update that does not supply fees is refused. The model keeps this behaviour.
