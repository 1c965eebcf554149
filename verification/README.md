# fc26 transfer-market automation, modelled in Dafny

This project models the decision logic of a browser extension that automates the FC 26 web app's transfer market, and proves properties about that logic. It has one module per core source file, plus three shared modules:

- **SniperService** (`sniper_service.dfy`): the transfer sniper as a class. Its state is the run state, the search and cycle counters, the filter cursor, the failure streak, the trade ids already seen, and an armed-timer flag. The module also holds the cache-defeat ladders that rewrite the price floors of each search, filter rotation, the result loop that buys each unseen listing once, and the handler for search responses.
- **SniperEngine** (`sniper_engine.dfy`): the older stand-alone engine. It has a random maximum bid, a cycle length with delays picked from lists, and its own start, stop and failure budget.
- **Price** (`price.dfy`): the price ladder: `getValidPrice` and `getNextLowerValidPrice`.
- **UtilService** (`util_service.dfy`): parsing formatted numbers, the break-even maximum buy price, and the buy-price label.
- **ProfitService** (`profit_service.dfy`): profit after the 5% tax, the profit colour, buy and sell suggestions, and the choice of what the panel shows.
- **Filters** (`filter_manager.dfy`): the search page's filter store. Filters are keyed by id, grouped by search bucket, and have per-bucket selections. A filter's readable name comes from how its criteria differ from the defaults.
- **CoreFilters** (`core_filters.dfy`): the engine's filter store. Filters are addressed by position, and the store keeps a set of selected positions, a rotation cursor and an edit mode.
- **TransferSettings** (`transfer_settings.dfy`): the recursive `deepMerge` of saved JSON over the defaults, plus `load`, `save` and `reset`.
- **AppSettings** (`app_settings.dfy`): the sniper page's settings record and its setters.
- **CardPlugin** (`card_plugin.dfy`): the batched price cache behind the price badges on player cards.
- **StaticService** (`static_service.dfy`): the named statistics counters.
- **Futgg** (`futgg.dfy`): the median, the bucketed price history, and the weekday-and-hour seasonal profile.
- **MarketTiming** (`market_timing.dfy`): the weekly reward calendar, open, upcoming and last rewards, the market phase and the recommended strategy.
- **Analyzer** (`analyzer.dfy`): the market classifiers, arbitrage detection and the risk score.
- **AiTrader** (`ai_trader.dfy`): the check an AI answer passes before it becomes a trading decision.
- **Shared modules**: `Js` (the JavaScript built-ins the code relies on), `Json` (JSON-like values, truthiness and `Number` conversion) and `Sorting` (sorted set elements and a stable sort by key).

Code that changes state step by step is modelled as classes with `modifies` clauses and loops with invariants. Each class method is specified against a pure function, and the properties are proved about those functions. Loops over arrays keep the array, such as the in-place insertion sort inside `median`. Pure computations are functions, with lemmas about them.

The model follows the code as written, including these behaviours a reader might not expect:

- **The three-strike stop never fires in the transfer sniper.** A failed response that still carries an item list falls through to result processing, and that resets the failure streak to 0 (`SniperService.FailuresNeverStop`). A failed response without an item list makes the handler throw before the reset, and it arms no further search.
- **The engine's `start` keeps some state.** It does not reset the failure count or the seen trade ids. Only its `stop` forgets the seen trade ids.
- **The transfer sniper redraws its cycle target on every response.** Each response that reaches the scheduling step draws a fresh number of searches for the current cycle.
- **The search counters move on after a safeguard stop.** A stop caused by too many results still increments the counters and arms the next search (see Findings).
- **A corrupt saved settings blob throws.** `load` in the transfer settings parses the saved text without a fallback, so a corrupt one throws. The model takes the parsed value as input.
- **The history is never thinned.** `getPlayerPricesHistory` can produce at most 366 buckets, so its 600-point downsampling is unreachable (`Futgg.HistoryNeverThinned`).
- **Monday's daily drop is listed twice.** A daily drop whose hour has passed is moved to the next day, so on a Sunday evening the drop appears twice in the upcoming list (`MarketTiming.DailyDropListedTwice`). The `daysAgo === 0` branch of `getLastReward` is dead: a window on today's weekday takes the other branch.
- **The risk score can be NaN.** Completed sales all at price 0 give a NaN volatility, and the clamp does not catch it (`Analyzer.ZeroSalesGiveNaNRisk`). The corrected `Analyzer.RiskScoreClamped` counts such sales as the highest risk (see Findings).

Where the code has a bug (see "Findings"), the operations model the code as written, and a separate corrected definition beside them states the intended behaviour.

## Model

| member | source | states |
|---|---|---|
| Price.Step | src/core/price.ts:18-30 | the tick size is one of 50, 100, 250, 500, 1000, by the inclusive tier bounds 1,000 / 10,000 / 50,000 / 100,000 |
| Price.GetValidPrice | src/core/price.ts:1-15 | the result is at most the price, less than one step below it, and a multiple of the step of the price's tier |
| Price.GetNextLowerValidPrice | src/core/price.ts:17-33 | the result is never negative, is below any positive price, and is either 0 or exactly one step below the price |
| Price.ValidPriceIsValid | src/core/price.ts:1-15 | a rounded price is a multiple of its own tier's step, even when rounding drops it into a lower tier |
| Price.ValidPriceIdempotent | src/core/price.ts:1-15 | rounding an already rounded price changes nothing |
| Price.NextLowerIsValid | src/core/price.ts:17-33 | one step down from a valid positive price is again a valid price |
| Price.NoValidPriceBetween | src/core/price.ts:17-33 | no valid price lies strictly between a valid price and its next lower price |
| Price.NextLowerIsPredecessor | src/core/price.ts:17-33 | below a valid positive price, the next lower price is the largest valid price, and it is valid |
| UtilService.ParseFormattedNumber | src/services/utilService.ts:5-7 | text made of digits and grouping commas reads as the value of its digits; text without any digit reads as 0 |
| UtilService.DigitsAndCommas | src/services/utilService.ts:5-7 | after the commas are removed, digits and commas leave only digits, which `parseInt` reads as their value |
| UtilService.NoDigitsParseNaN | src/services/utilService.ts:5-7 | text without any digit parses as NaN, so the fallback to 0 applies |
| UtilService.ParseLocaleString | src/services/utilService.ts:5-7 | any integer written with en-US thousands separators reads back as the same integer |
| UtilService.GetValidBuyPrice | src/services/utilService.ts:9-23 | the result is at most the price, less than one step below it, and a multiple of the tier step |
| UtilService.BuyPriceMatchesValidPrice | src/services/utilService.ts:9-23 | on whole prices the duplicated table agrees with `getValidPrice` |
| UtilService.CalculateMaxBuyPrice | src/services/utilService.ts:25-28 | the result is at most 95% of the sell price, and lies in [0, sellPrice] for a non-negative sell price |
| UtilService.MaxBuyPriceBreaksEven | src/services/utilService.ts:25-33 | reselling at the sell price after buying at the shown price loses nothing after the 5% tax |
| UtilService.UtilService.UpdateProfitLabel | src/services/utilService.ts:30-37 | a positive sell price shows the break-even buy text; any other price empties the label |
| UtilService.UtilService.OnInput | src/services/utilService.ts:65-68 | the typed text is parsed and the label follows the parsed price |
| ProfitService.CalculateProfit | src/plugins/transfer/services/profitService.ts:10-13 | 0 without a positive max-buy price; otherwise the floor of 95% of the sell price minus the max-buy price |
| ProfitService.ProfitSign | src/plugins/transfer/services/profitService.ts:10-13 | the profit is non-negative exactly when 19·sell ≥ 20·maxBuy |
| ProfitService.ProfitMonotone | src/plugins/transfer/services/profitService.ts:10-13 | a higher sell price never lowers the profit |
| ProfitService.CalculateProfitPercentage | src/plugins/transfer/services/profitService.ts:15-19 | 0 without a positive max-buy price; otherwise the profit as a percentage of the max-buy price (pct · maxBuy = 100 · profit), with the sign of the profit |
| ProfitService.GetProfitColor | src/plugins/transfer/services/profitService.ts:21-25 | green exactly above 5%, yellow exactly on [0, 5], red exactly below 0 |
| ProfitService.ColorMonotone | src/plugins/transfer/services/profitService.ts:21-25 | more profit never gives a worse colour |
| ProfitService.SuggestBuyPrice | src/plugins/transfer/services/profitService.ts:27-30 | 0 without a positive max-buy price; otherwise non-negative, below the max-buy price, and 0 or one tick below it |
| ProfitService.TargetSellPrice | src/plugins/transfer/services/profitService.ts:33-35 | the least whole sell price whose 95% covers the max-buy price plus 5% (`Math.ceil` of the target) |
| ProfitService.SuggestSellPrice | src/plugins/transfer/services/profitService.ts:32-37 | as written: 0 without a positive max-buy price; otherwise a valid ladder price at most the target and less than one step below it (rounded down) |
| ProfitService.SuggestedSellPriceCanLose | src/plugins/transfer/services/profitService.ts:32-37 | a max-buy price of 100 gets the suggestion 100, which loses money after tax |
| ProfitService.GetValidPriceAtLeast | src/plugins/transfer/services/profitService.ts:32-37 | helper of the intended `suggestSellPrice` (not a function of the source): the smallest valid price at or above the input, less than one step above it |
| ProfitService.SuggestSellPriceAtLeast | src/plugins/transfer/services/profitService.ts:32-37 | as intended: the target rounded up onto the ladder, so at least the target and valid |
| ProfitService.SuggestionKeepsMargin | src/plugins/transfer/services/profitService.ts:32-37 | selling at the rounded-up suggestion earns at least the 5% margin and never loses |
| ProfitService.DisplaySuggestsLoss | src/plugins/transfer/services/profitService.ts:49-58 | with a max-buy price of 100 and no sell price, the panel suggests a sell price that loses money after tax |
| ProfitService.DisplayForIntended | src/plugins/transfer/services/profitService.ts:49-58 | the intended panel: when it shows suggestions, the buy suggestion is below the max-buy price and the sell suggestion is a valid price that never loses after tax |
| ProfitService.IntendedDiffersOnlyInSellSuggestion | src/plugins/transfer/services/profitService.ts:39-70 | the intended panel equals the written one except in the sell suggestion, which it never lowers |
| ProfitService.DisplayFor | src/plugins/transfer/services/profitService.ts:39-70 | hidden exactly when maxBuy ≤ 0; suggestions exactly when maxBuy > 0 and sell ≤ 0, with the buy suggestion `suggestBuyPrice` (below maxBuy) and the sell suggestion the as-written `suggestSellPrice` (valid, at most the target); otherwise the profit, its percentage `calculateProfitPercentage`, and the colour of that percentage, red exactly when the profit is negative |
| ProfitService.ProfitService.constructor | src/plugins/transfer/services/profitService.ts:98-101 | both prices start at 0 and the panel is hidden (field initialisers at lines 5-6) |
| ProfitService.ProfitService.UpdateDisplay | src/plugins/transfer/services/profitService.ts:39-70 | the panel shows the mode `DisplayFor` picks, with the as-written sell suggestion, and the prices are unchanged |
| ProfitService.ProfitService.OnMaxBuyPriceChange | src/plugins/transfer/services/profitService.ts:88-91 | stores the max-buy price, keeps the sell price, and redraws the panel |
| ProfitService.ProfitService.OnSellPriceChange | src/plugins/transfer/services/profitService.ts:93-96 | stores the sell price, keeps the max-buy price, and redraws the panel |
| StaticService.EntriesToMap | src/services/staticService.ts:87-90 | every seeded key is present, and each value comes from an entry with that key |
| StaticService.CountAfterSet | src/services/staticService.ts:118-128 | showing the text of n under a key makes that stat count n and changes no other stat's count |
| StaticService.StaticService.Get | src/services/staticService.ts:109-116 | the element's text when the key exists and its text is non-empty; "0" for a missing key or empty text |
| StaticService.StaticService.constructor | src/services/staticService.ts:84-91 | every initial stat is shown and remembered as its original value |
| StaticService.StaticService.Set | src/services/staticService.ts:97-107 | creates or replaces exactly that key's text; the original values are unchanged |
| StaticService.StaticService.SetNumber | src/services/staticService.ts:118-128 | the key then counts n, and every other stat keeps its count |
| StaticService.StaticService.Increment | src/services/staticService.ts:118-122 | stores (the parsed value, or 0) + 1, and no other stat changes |
| StaticService.StaticService.Decrement | src/services/staticService.ts:124-128 | stores the value minus one, but never below 0, and no other stat changes |
| StaticService.StaticService.Remove | src/services/staticService.ts:130-136 | deletes only that key, and does nothing for an absent key |
| StaticService.StaticService.ResetStat | src/services/staticService.ts:6-37 | a seeded key shows its original value again; an unseeded key is left alone |
| TransferSettings.DefaultSettings | src/plugins/transfer/managers/settingsManager.ts:41-70 | dry buy off, sequential rotation, both random floors off, and every delay and cycle range positive and ordered |
| TransferSettings.DeepMerge | src/plugins/transfer/managers/settingsManager.ts:72-82 | the result is a fresh object whose keys are exactly the target's own keys plus the keys the source enumerates |
| TransferSettings.MergeKeepsMissing | src/plugins/transfer/managers/settingsManager.ts:73-81 | a key the source does not enumerate keeps the target's value |
| TransferSettings.MergeRecurses | src/plugins/transfer/managers/settingsManager.ts:75-76 | a plain-object source value is merged recursively into `target[key] \|\| {}` |
| TransferSettings.MergeOverrides | src/plugins/transfer/managers/settingsManager.ts:77-78 | every other source value overrides, including false, 0, null and arrays |
| TransferSettings.MergeIntoEmpty | src/plugins/transfer/managers/settingsManager.ts:72-82 | merging an object into `{}` rebuilds that object |
| TransferSettings.MergeIdempotent | src/plugins/transfer/managers/settingsManager.ts:72-82 | merging the same source a second time changes nothing |
| TransferSettings.MergeCovered | src/plugins/transfer/managers/settingsManager.ts:72-82 | a source that covers every key of the target, at every level, is the whole result |
| TransferSettings.MergeChildren | src/plugins/transfer/managers/settingsManager.ts:72-82 | when every nested object already merges to itself and the target has no extra key, the merge is the source |
| TransferSettings.MergeFloor | src/plugins/transfer/managers/settingsManager.ts:72-82 | a saved `{enabled, amount}` record replaces the default one (defaults at lines 5-12) |
| TransferSettings.MergeRange | src/plugins/transfer/managers/settingsManager.ts:72-82 | a saved `{min, max}` record replaces the default one (defaults at lines 18-30) |
| TransferSettings.MergeSearchField | src/plugins/transfer/managers/settingsManager.ts:72-82 | each nested record of the saved search settings merges over the default as itself (defaults at lines 2-16) |
| TransferSettings.MergeSearch | src/plugins/transfer/managers/settingsManager.ts:72-82 | complete saved search settings replace the defaults (defaults at lines 2-16) |
| TransferSettings.MergeSafety | src/plugins/transfer/managers/settingsManager.ts:72-82 | complete saved safety settings replace the defaults (defaults at lines 17-31) |
| TransferSettings.MergeSavedSettings | src/plugins/transfer/managers/settingsManager.ts:84-100 | a saved complete settings record loads back unchanged, whatever the defaults |
| TransferSettings.SettingsManager.constructor | src/plugins/transfer/managers/settingsManager.ts:37-70 | the defaults are the documented record, and `settings` starts as that same object |
| TransferSettings.SettingsManager.Load | src/plugins/transfer/managers/settingsManager.ts:84-92 | nothing saved makes `settings` the defaults object itself; a saved value gives a fresh `deepMerge(defaults, parsed)`; a text that does not parse throws and changes nothing |
| TransferSettings.SettingsManager.Save | src/plugins/transfer/managers/settingsManager.ts:98-100 | the store then holds the current settings |
| TransferSettings.SettingsManager.Reset | src/plugins/transfer/managers/settingsManager.ts:102-105 | as written: `settings` is the defaults object again, and that object is saved |
| TransferSettings.SettingsManager.Edit | src/plugins/transfer/managers/settingsManager.ts:37 | an in-place edit of one setting changes exactly that field of the object `settings` refers to |
| TransferSettings.SettingsManager.ResetToDefaults | src/plugins/transfer/managers/settingsManager.ts:102-105 | as intended: `settings` becomes a fresh copy of the default values, and that is saved |
| TransferSettings.ResetAfterEditKeepsEdit | src/plugins/transfer/managers/settingsManager.ts:90-105 | with nothing saved, an edit followed by `reset` does not restore the default values |
| TransferSettings.ResetToDefaultsAfterEdit | src/plugins/transfer/managers/settingsManager.ts:102-105 | with the intended reset, the same sequence restores the default values |
| AppSettings.DefaultSettings | src/managers/settingsManager.ts:36-66 | dry buy off, sound on, both random floors disabled at 150, every range ordered, and the cycle pause longer than any search delay |
| AppSettings.SettingsManager.constructor | src/managers/settingsManager.ts:68-80 | the settings are what storage returned, or the defaults when it returned nothing usable |
| AppSettings.SettingsManager.EnableDryBuy | src/managers/settingsManager.ts:82-85 | only the dry-buy flag changes |
| AppSettings.SettingsManager.EnableSound | src/managers/settingsManager.ts:87-90 | only the sound flag changes |
| AppSettings.SettingsManager.UpdateRandomMinBid | src/managers/settingsManager.ts:92-98 | sets the flag, changes the amount only when one is supplied, and nothing else changes |
| AppSettings.SettingsManager.UpdateRandomMinBuy | src/managers/settingsManager.ts:100-106 | sets the flag, changes the amount only when one is supplied, and nothing else changes |
| AppSettings.SettingsManager.UpdateDelayBetweenSearches | src/managers/settingsManager.ts:108-112 | stores min and max as given and nothing else; the ranges stay ordered exactly when min ≤ max |
| AppSettings.SettingsManager.EnableCycles | src/managers/settingsManager.ts:114-117 | only the cycles flag changes |
| AppSettings.SettingsManager.UpdateCyclesCount | src/managers/settingsManager.ts:119-123 | stores min and max as given and nothing else; the ranges stay ordered exactly when min ≤ max |
| AppSettings.SettingsManager.UpdateDelayBetweenCycles | src/managers/settingsManager.ts:125-129 | stores min and max as given and nothing else; the ranges stay ordered exactly when min ≤ max |
| AppSettings.SettingsManager.Reset | src/managers/settingsManager.ts:155-158 | reloads from storage exactly as the constructor does |
| CardPlugin.DeliverPricesCache | src/plugins/card/cardPlugin.ts:20-21 | a successful batch caches every returned price under its id, the entry for an id being the last returned price for it, and keeps every other cached price |
| CardPlugin.DeliverPricesWaiters | src/plugins/card/cardPlugin.ts:20-30 | `DeliverPrices`: the waiters of every returned id are removed, and each was called exactly once with a price for that id |
| CardPlugin.DeliverPricesLeft | src/plugins/card/cardPlugin.ts:20-30 | after the first loop the waiter table is the old one minus the returned ids |
| CardPlugin.DeliverPricesCalls | src/plugins/card/cardPlugin.ts:23-28 | each id gets exactly as many calls as it had waiters when it was returned, and the rest get none |
| CardPlugin.DeliverPricesData | src/plugins/card/cardPlugin.ts:25-27 | every call of the first loop carries a returned price for the called id |
| CardPlugin.NotifyUnpricedSpec | src/plugins/card/cardPlugin.ts:32-52 | `NotifyUnpriced`: requested ids still waiting without a price lose their waiters, each called once with `undefined`; no other id is touched |
| CardPlugin.BatchSettles | src/plugins/card/cardPlugin.ts:17-40 | after a successful batch no requested uncached id and no returned id has waiters left, each such waiter was called once, and ids outside the batch keep theirs |
| CardPlugin.FailedBatchSettles | src/plugins/card/cardPlugin.ts:41-53 | after a failed fetch every requested id has no waiters left, each called once with `undefined` |
| CardPlugin.PriceLabelShowsPrice | src/plugins/card/cardPlugin.ts:96-113 | `PriceLabel`: the label is a status word exactly when the card is extinct, objective or unpriced; otherwise, with no previous sale, the label parses back to the price |
| CardPlugin.DeliverLoop | src/plugins/card/cardPlugin.ts:20-30 | the loop computes exactly what `DeliverPrices` describes |
| CardPlugin.NotifyLoop | src/plugins/card/cardPlugin.ts:32-52 | the loop computes exactly what `NotifyUnpriced` describes |
| CardPlugin.CardPlugin.constructor | src/plugins/card/cardPlugin.ts:5-8 | an empty cache, no pending id, no timer, no waiter |
| CardPlugin.CardPlugin.AddToBatch | src/plugins/card/cardPlugin.ts:56-70 | an id already cached or pending is ignored; otherwise it is appended to the pending ids and the 1000 ms timer restarts; cache and waiters are unchanged |
| CardPlugin.CardPlugin.BeginBatch | src/plugins/card/cardPlugin.ts:10-15 | with nothing pending nothing changes; otherwise the pending ids are taken, and both the pending set and the timer are cleared |
| CardPlugin.CardPlugin.CompleteBatch | src/plugins/card/cardPlugin.ts:17-53 | on success the cache and waiters are those of the two loops; on failure the cache is unchanged and every requested id is told `undefined` |
| CardPlugin.CardPlugin.AddPriceElement | src/plugins/card/cardPlugin.ts:120-142 | a cache hit returns the cached price and registers nothing; a miss registers one more waiter and adds the id to the batch |
| CoreFilters.Lookup | src/core/filters/filter-manager.ts:24 | a filter exactly for an index inside the list, and `undefined` past its end |
| CoreFilters.IndexOfId | src/core/filters/filter-manager.ts:76-78 | the first position holding that id, or none when no filter has it |
| CoreFilters.CreateFilterDescription | src/core/filters/filter-manager.ts:176-187 | the player's label, or "Any Item" without a first name, followed by " \| Buy: min-max" and nothing else |
| CoreFilters.Cleaned | src/core/filters/filter-manager.ts:58-61 | the stored criteria have both bid bounds 0 and the buy-now bounds of the input |
| CoreFilters.SelectedInOrder | src/core/filters/filter-manager.ts:21-25 | one entry per selected index, each the saved filter at a selected index (undefined past the end), every selected in-range filter present, in ascending index order |
| CoreFilters.SelectAllSelectsList | src/core/filters/filter-manager.ts:118-123 | with every position selected, the selection is the whole list in order (position list built at lines 21-25) |
| CoreFilters.SelectionAfterDelete | src/core/filters/filter-manager.ts:95-102 | the renumbered selection holds exactly the shifted positions of the other selected filters |
| CoreFilters.DeleteKeepsSelectedFilters | src/core/filters/filter-manager.ts:95-102 | deleting with renumbering keeps every other selected filter selected and selects nothing new |
| CoreFilters.DeleteSelectsNothingNew | src/core/filters/filter-manager.ts:95-102 | after a renumbered delete every selected filter was selected before |
| CoreFilters.DeleteMovesSelection | src/core/filters/filter-manager.ts:95-102 | as written: with three filters and the second selected, deleting the first leaves the third selected |
| CoreFilters.FilterManager.constructor | src/core/filters/filter-manager.ts:6-19 | the list is what storage held, nothing is selected, nothing is edited, and the cursor is 0 |
| CoreFilters.CurrentIn | src/core/filters/filter-manager.ts:27-31 | none without a selection; otherwise the filter (or none past the end of the list) at the selected position of rank cursor mod the selection's size |
| CoreFilters.StepsToRank | src/core/filters/filter-manager.ts:27-35 | from any cursor, the rank `k` comes up within the next `n` increments |
| CoreFilters.RotationPeriodic | src/core/filters/filter-manager.ts:27-35 | `moveToNextFilter` once per selected filter brings the rotation back to the same filter |
| CoreFilters.RotationVisitsEverySelected | src/core/filters/filter-manager.ts:27-35 | from any cursor, as many steps of `moveToNextFilter` as there are selected positions visit every selected position |
| CoreFilters.FilterManager.GetCurrentFilter | src/core/filters/filter-manager.ts:27-31 | none without a selection; otherwise an entry of the selection, namely the filter at the selected position of rank cursor mod the selection's size (`CurrentIn`) |
| CoreFilters.FilterManager.MoveToNextFilter | src/core/filters/filter-manager.ts:33-35 | the cursor goes up by one, and nothing else changes |
| CoreFilters.FilterManager.ResetFilterIndex | src/core/filters/filter-manager.ts:37-39 | the cursor becomes 0, and nothing else changes |
| CoreFilters.FilterManager.SetEditingFilterId | src/core/filters/filter-manager.ts:49-51 | the editing id becomes the given one, and nothing else changes |
| CoreFilters.FilterManager.CancelEditing | src/core/filters/filter-manager.ts:53-55 | edit mode ends, and nothing else changes |
| CoreFilters.FilterManager.SaveFilter | src/core/filters/filter-manager.ts:57-93 | stores cleaned criteria and the description; outside edit mode it appends one filter; in edit mode it replaces the entry with that id in place (or nothing when the id is gone) and ends edit mode; the selection is unchanged |
| CoreFilters.FilterManager.DeleteFilter | src/core/filters/filter-manager.ts:95-102 | as written: removes exactly the filter at an in-range index, does nothing otherwise, and leaves the selected positions as they were |
| CoreFilters.FilterManager.DeleteFilterKeepingSelection | src/core/filters/filter-manager.ts:95-102 | as intended: the same removal, with the selection renumbered so that it names the same filters |
| CoreFilters.FilterManager.ClearAllFilters | src/core/filters/filter-manager.ts:104-108 | the list is emptied and the selection is left as it was |
| CoreFilters.FilterManager.ToggleFilterSelection | src/core/filters/filter-manager.ts:110-116 | flips whether that index is selected, and no other index |
| CoreFilters.FilterManager.SelectAllFilters | src/core/filters/filter-manager.ts:118-123 | exactly the positions 0..n−1 are selected, so the selection is the whole list in order |
| CoreFilters.FilterManager.ClearSelection | src/core/filters/filter-manager.ts:125-127 | the selection is emptied, and nothing else changes |
| CoreFilters.FilterManager.GetSelectedCount | src/core/filters/filter-manager.ts:133-135 | the number of selected positions equals the length of the selection list |
| CoreFilters.FilterManager.GetFilterById | src/core/filters/filter-manager.ts:141-143 | the first saved filter with that id (as `find` returns), or none when no saved filter has it |
| Filters.HasSignificantChange | src/managers/filterManager.ts:80-109 | skip-list keys never count; arrays count exactly when their lengths or elements differ; numeric price keys count exactly when positive; other numbers, and a key without a default, count when they differ |
| Filters.FormatFieldChange | src/managers/filterManager.ts:111-131 | a label is produced only for the rendered keys and always reads "Label: value"; min/max buy are rendered only when positive |
| Filters.ChangesAreLabels | src/managers/filterManager.ts:52-61 | every collected change is the label of some entry, and contains ':' |
| Filters.DefaultFilterName | src/managers/filterManager.ts:44-77 | `NameFor`: the name is "Default Filter" exactly when there is no player first name and no significant rendered change |
| Filters.DefaultNameOfLabels | src/managers/filterManager.ts:63-77 | for label-shaped changes, the name is "Default Filter" exactly when there is neither a player nor a change |
| Filters.PlayerNameHasParenthesis | src/managers/filterManager.ts:44-71 | a name built around a player contains the "(rating)" parenthesis |
| Filters.ChangesNameHasColon | src/managers/filterManager.ts:73-77 | without a player, a name built from changes contains a label's ':' |
| Filters.GetName | src/managers/filterManager.ts:38-78 | the name `NameFor` gives for the labels the loop collects |
| Filters.CollectChanges | src/managers/filterManager.ts:50-61 | the loop collects the labels of the significant, rendered entries, in entry order |
| Filters.WithoutIdSpec | src/managers/filterManager.ts:152-155 | `remove` keeps exactly the filters with another id, in their order |
| Filters.OutsideBucketSpec | src/managers/filterManager.ts:185-191 | `clearAll` keeps exactly the filters of other buckets, in their order |
| Filters.BucketPartition | src/managers/filterManager.ts:186-229 | a bucket's filters and the rest together are the whole store |
| Filters.ClearAllEmptiesBucket | src/managers/filterManager.ts:185-191 | after `clearAll` the bucket holds no filter |
| Filters.ClearAllKeepsOtherBuckets | src/managers/filterManager.ts:185-191 | `clearAll` of one bucket leaves every other bucket's filters as they were |
| Filters.BucketIds | src/managers/filterManager.ts:207-213 | exactly the ids of the bucket's filters |
| Filters.SelectedCriteriaSpec | src/managers/filterManager.ts:231-241 | every selected filter contributes its criteria, nothing else is listed, and the list is empty exactly when no filter is selected |
| Filters.CollectSelected | src/managers/filterManager.ts:234-240 | the loop lists the selected filters' criteria in store order |
| Filters.IndexOfId | src/managers/filterManager.ts:167 | the first position holding that id, or none when no filter has it |
| Filters.FilterManager.constructor | src/managers/filterManager.ts:19-32 | the store holds what storage held, and nothing is selected |
| Filters.FilterManager.Save | src/managers/filterManager.ts:133-150 | appends one filter for the current criteria and player, named by `getName`, with the time as id; the selections are unchanged |
| Filters.FilterManager.Remove | src/managers/filterManager.ts:152-155 | every filter with that id goes, and the selections are left as they were |
| Filters.FilterManager.Select | src/managers/filterManager.ts:157-164 | an unknown id gives empty criteria and no player; otherwise the criteria and player of the first filter with that id |
| Filters.FilterManager.Update | src/managers/filterManager.ts:166-183 | an unknown id changes nothing; a known id is rewritten in place at the same index, keeps its id, and nothing else moves |
| Filters.FilterManager.ClearAll | src/managers/filterManager.ts:185-191 | drops only that bucket's filters and that bucket's selection |
| Filters.FilterManager.ToggleSelection | src/managers/filterManager.ts:193-205 | flips one id in one bucket, creating the bucket's set when missing, and no other membership changes |
| Filters.FilterManager.SelectAll | src/managers/filterManager.ts:207-213 | the bucket's selection becomes exactly the ids of its filters |
| Filters.FilterManager.DeselectAll | src/managers/filterManager.ts:215-217 | the bucket's selection becomes empty |
| Filters.FilterManager.GetSelectedCount | src/managers/filterManager.ts:223-225 | the size of the bucket's selection, 0 without one |
| Filters.FilterManager.GetSearchCriterias | src/managers/filterManager.ts:231-247 | the selected filters' criteria in store order, or exactly the current criteria when none is selected; never empty |
| MarketTiming.RewardsWindows | trading/domain/market-timing.ts:55-140 | the calendar holds ten windows: four weekly rewards and six daily drops (none on Wednesday); every window lies within one day |
| MarketTiming.London | trading/domain/market-timing.ts:46-53 | the London reading is a weekday below 7 and a time of day below 24 hours, cut to whole seconds |
| MarketTiming.FirstCoveringSpec | trading/domain/market-timing.ts:155-170 | `IsRewardsTime`: the search finds a window exactly when some window is open, and what it finds is the first open window in calendar order |
| MarketTiming.CurrentRewardAgrees | trading/domain/market-timing.ts:142-170 | `getCurrentReward` finds a window exactly when `isRewardsTime` holds, and the window it finds is open now |
| MarketTiming.HoursUntilBounds | trading/domain/market-timing.ts:185-209 | for every window, the next start computed by the loop is strictly in the future and at most 168 hours away |
| MarketTiming.CandidatesAll | trading/domain/market-timing.ts:185-219 | the `hoursUntil > 0` filter never drops a window: there is one candidate per window, in calendar order |
| MarketTiming.UpcomingSpec | trading/domain/market-timing.ts:172-223 | `UpcomingRewards`: the upcoming list has one entry per window, is ascending by hours until start, is a permutation of the candidates, and each entry starts 0 to 168 hours ahead |
| MarketTiming.SortedCandidates | trading/domain/market-timing.ts:185-222 | sorting the candidates of any valid windows keeps one entry per window, is ascending and a permutation, with each start within a week |
| MarketTiming.GetUpcomingRewards | trading/domain/market-timing.ts:172-223 | the method returns exactly the sorted candidate list |
| MarketTiming.CollectUpcoming | trading/domain/market-timing.ts:185-219 | the loop collects exactly the candidates of the given windows, in order |
| MarketTiming.NextRewardIsSoonest | trading/domain/market-timing.ts:225-230 | `NextReward`: the next reward is one of the calendar's windows, and no window starts sooner |
| MarketTiming.PastRewardsSpec | trading/domain/market-timing.ts:238-280 | an entry is in the past list exactly when it is some window that paid out within its look-back, with its hours ago |
| MarketTiming.PastRewardsSound | trading/domain/market-timing.ts:238-280 | every entry of the past list is a recently paid window with its hours ago |
| MarketTiming.PastRewardsComplete | trading/domain/market-timing.ts:238-280 | every recently paid window appears in the past list |
| MarketTiming.LastRewardSpec | trading/domain/market-timing.ts:232-284 | there is no last reward exactly when no window paid out within its look-back; otherwise it is such a window, between 0 and 168 hours ago, and none paid out more recently |
| MarketTiming.SameDayLooksBackOnlyToToday | trading/domain/market-timing.ts:240-254 | a window on today's weekday counts as paid exactly when its hour has already passed today |
| MarketTiming.GetLastReward | trading/domain/market-timing.ts:232-284 | the method returns the same last reward as the specification |
| MarketTiming.CollectPast | trading/domain/market-timing.ts:238-280 | the loop collects exactly the past list of the given windows |
| MarketTiming.JustEndedToday | trading/domain/market-timing.ts:300-312 | only a window on today's UTC weekday can have ended within the last two hours |
| MarketTiming.PhaseActive | trading/domain/market-timing.ts:286-290 | `MarketPhase`: the phase is reward-active exactly when `isRewardsTime` holds |
| MarketTiming.PhasePre | trading/domain/market-timing.ts:292-298 | pre-reward only when no window is open and a high impact reward is within 6 hours or a medium one within 3 |
| MarketTiming.PhasePost | trading/domain/market-timing.ts:300-312 | post-reward only within two hours after the end of a window on today's UTC weekday |
| MarketTiming.SomeJustEndedToday | trading/domain/market-timing.ts:300-312 | if some window just ended, one on today's UTC weekday did |
| MarketTiming.PhaseNormal | trading/domain/market-timing.ts:286-315 | normal only when no window is open, none is imminent and none just ended |
| MarketTiming.StrategySpec | trading/domain/market-timing.ts:317-335 | `RecommendedStrategy`: sell exactly before a high impact reward in the pre-reward phase; wait exactly while a reward is active; buy exactly after one; hold otherwise |
| MarketTiming.SummariesNotDaily | trading/domain/market-timing.ts:385-393 | the context's upcoming list holds no daily drop |
| MarketTiming.SummariesAtLeast | trading/domain/market-timing.ts:385-393 | a lower bound on the entries' start times bounds the summaries' start times |
| MarketTiming.SummariesSorted | trading/domain/market-timing.ts:385-393 | filtering out daily drops keeps the list in order of start |
| MarketTiming.ContextSpec | trading/domain/market-timing.ts:360-419 | the context is consistent: reward time exactly when a reward is active; daily content exactly from 18:00 London time; the upcoming list has no daily drop, is ascending, and starts no earlier than the next reward; "sell" only ahead of a high impact reward within 6 hours |
| MarketTiming.DailyDropListedTwice | trading/domain/market-timing.ts:190-201 | at 19:00 on a Sunday, the Sunday and Monday daily drops both start 23 hours ahead, so Monday's drop is listed twice |
| Futgg.SortAscendingSpec | trading/api/futgg.ts:178 | the numeric sort yields an ascending permutation of the prices |
| Futgg.AscendingUnique | trading/api/futgg.ts:178 | there is only one ascending arrangement of a multiset of prices, so the sorted order is determined |
| Futgg.MedianPermutation | trading/api/futgg.ts:176-183 | the median depends only on which prices there are, not on their order |
| Futgg.MedianAtLeast | trading/api/futgg.ts:176-183 | the median of a non-empty list is at least any lower bound of its prices |
| Futgg.MedianAtMost | trading/api/futgg.ts:176-183 | the median of a non-empty list is at most any upper bound of its prices |
| Futgg.MedianIsMiddle | trading/api/futgg.ts:179-181 | for an odd count, the median is the middle sorted price: every price before it is at most it, every price after it at least it |
| Futgg.SortInPlace | trading/api/futgg.ts:178 | sorting the array in place leaves it ascending and a permutation of what it held |
| Futgg.InsertDown | trading/api/futgg.ts:178 | one insertion pass extends the ascending prefix by one element and keeps the array a permutation |
| Futgg.Swap | trading/api/futgg.ts:178 | exchanging two elements keeps the array a permutation |
| Futgg.Median | trading/api/futgg.ts:176-183 | the result is the median of the prices given; the array is left sorted ascending, as the source's in-place sort leaves it |
| Futgg.GroupSpec | trading/api/futgg.ts:354-362 | a key gets a bucket exactly when some entry carries it; its bucket holds that key's prices in entry order; each key is listed once |
| Futgg.GroupBuckets | trading/api/futgg.ts:354-362 | the buckets hold exactly the keys that occur, each with its prices in entry order |
| Futgg.GroupKeys | trading/api/futgg.ts:354-362 | the key list names each bucket exactly once |
| Futgg.GroupByKey | trading/api/futgg.ts:356-362 | the bucket-filling loop builds exactly the grouping |
| Futgg.Config | trading/api/futgg.ts:135-141 | every timeframe has a positive window and bucket width, and its window is a whole number of buckets |
| Futgg.BucketSize | trading/api/futgg.ts:331 | the bucket width in milliseconds is positive |
| Futgg.WindowIsWholeBuckets | trading/api/futgg.ts:331-346 | each window spans a whole number of buckets, at most 365 of them (bucket sizes at lines 135-141) |
| Futgg.Latest | trading/api/futgg.ts:341-345 | the time of the last sale after sorting by time is the latest sale time, and some sale has it |
| Futgg.RecentSpec | trading/api/futgg.ts:348-350 | a sale is kept exactly when it is at or after the cutoff |
| Futgg.PointsOfSpec | trading/api/futgg.ts:364-369 | the points list each bucket once, in strictly increasing time order, each at its bucket's median |
| Futgg.HistoryKeysFromWindow | trading/api/futgg.ts:346-362 | every bucket start is the bucket of some sale between the cutoff and the latest sale |
| Futgg.WindowBucketsBounded | trading/api/futgg.ts:346-357 | times inside a window of `w` whole buckets fall into at most `w + 1` buckets |
| Futgg.HistoryBucketCount | trading/api/futgg.ts:346-362 | the window holds at most one bucket more than its width in buckets |
| Futgg.HistoryNeverThinned | trading/api/futgg.ts:371-374 | the history has at most 366 points, so the 600-point thinning never applies |
| Futgg.HistoryBucketKeys | trading/api/futgg.ts:348-362 | a time is a bucket exactly when it is the bucket of some sale in the window |
| Futgg.HistorySpec | trading/api/futgg.ts:323-377 | `History`: the points are in strictly increasing time order; each is the bucket of some window sale; every window sale's bucket has a point; each point's price is the median of that bucket's prices |
| Futgg.BucketPoints | trading/api/futgg.ts:364-369 | the loop over the buckets in time order returns one point per bucket at its median |
| Futgg.GetPlayerPricesHistory | trading/api/futgg.ts:323-377 | the method returns exactly the specified history for the fetched sales |
| Futgg.SlotOf | trading/api/futgg.ts:411-414 | the weekday of a time is below 7 and its hour below 24 |
| Futgg.ProfileSalesSpec | trading/api/futgg.ts:395-403 | a sale is kept exactly when it is at or after the cutoff and has a positive price |
| Futgg.PositiveMedian | trading/api/futgg.ts:425 | the median of positive prices is at least 1, so dividing by it is safe |
| Futgg.ProfileSalesPositive | trading/api/futgg.ts:395-403 | every kept sale has a positive price |
| Futgg.SeasonalProfileKeys | trading/api/futgg.ts:384-429 | `SeasonalProfile`: fewer than 12 sales give an empty profile; otherwise a slot is in the profile exactly when at least 3 kept sales fall in it |
| Futgg.SeasonalProfileValues | trading/api/futgg.ts:425-435 | every slot is a real weekday and hour; no slot lies 100% or more below the overall median; a slot's change is positive exactly when its median is above the overall median |
| Futgg.ProfileOfValues | trading/api/futgg.ts:407-435 | the same slot facts for any non-empty run of positive-priced sales |
| Futgg.SlotChangeBounds | trading/api/futgg.ts:428-435 | a kept slot's change is above -100%, and positive exactly when its median beats the overall median |
| Futgg.SlotInProfile | trading/api/futgg.ts:411-419 | a slot that some sale falls in is a real weekday and hour |
| Futgg.SlotPricesPositive | trading/api/futgg.ts:419 | a slot's prices come from positive-priced sales, so they are positive |
| Futgg.RelativeChangeSign | trading/api/futgg.ts:432-433 | with a positive reference, the change is above -100% and positive exactly when the median is larger |
| Futgg.FillSlots | trading/api/futgg.ts:407-421 | the loop builds exactly the slot grouping and the list of all prices |
| Futgg.GetSeasonalProfile | trading/api/futgg.ts:379-438 | the method returns exactly the specified profile for the fetched sales and current time |
| Futgg.ProfileRun | trading/api/futgg.ts:407-437 | filling the slots and taking the medians gives exactly the profile of the run |
| Futgg.ProfileLoop | trading/api/futgg.ts:428-435 | the loop over the slots gives each slot with at least 3 prices its change against the overall median, and no other slot |
| Analyzer.Divide | trading/domain/analyzer.ts:13-19 | division by a non-zero number is exact; division by zero gives +Infinity, -Infinity or NaN according to the sign of the dividend (the same division recurs at lines 59, 77 and 127) |
| Analyzer.SumNonNegative | trading/domain/analyzer.ts:13-16 | a sum of non-negative terms is non-negative, and it is 0 only when every term is 0 |
| Analyzer.SquaredDeviationsOfConstant | trading/domain/analyzer.ts:14-16 | prices all equal to the mean have no variance |
| Analyzer.VolatilitySpec | trading/domain/analyzer.ts:9-20 | `Volatility`: fewer than two prices give 0; with a positive mean the volatility is a non-negative number; with every price at 0 it is NaN |
| Analyzer.SumOfZeros | trading/domain/analyzer.ts:13 | prices that are all 0 sum to 0 |
| Analyzer.LiquidityScoreSpec | trading/domain/analyzer.ts:22-35 | `LiquidityScore`: the score is one of the six levels from 10 to 100 and never falls as sales rise; it is 100 exactly from 70 sales (10 a day over the default 7 days) and 10 exactly below 4 sales |
| Analyzer.PriceStabilitySpec | trading/domain/analyzer.ts:37-43 | below 5 is stable, above 20 volatile, anything else trending; a NaN volatility is trending |
| Analyzer.Slice | trading/domain/analyzer.ts:50-51 | a slice is never longer than the list |
| Analyzer.MarketTrendSpec | trading/domain/analyzer.ts:45-64 | `MarketTrend`: five points or fewer are sideways; otherwise `slice(-5)` is the last five points and `slice(-10, -5)` the up to five before them, and equal means of the two are sideways |
| Analyzer.ScaleByPositive | trading/domain/analyzer.ts:59-62 | multiplying by a positive number keeps a strict order, in both directions |
| Analyzer.QuotientBounds | trading/domain/analyzer.ts:59-62 | a relative change exceeds +5% exactly when the difference exceeds 5% of the older mean, and likewise below -5% |
| Analyzer.MarketTrendDirection | trading/domain/analyzer.ts:45-64 | with more than five points: bullish exactly when the recent mean is more than 5% above the older one, bearish exactly when more than 5% below, when the older mean is positive |
| Analyzer.SupplyLevelMonotone | trading/domain/analyzer.ts:66-70 | the supply level never falls as live auctions rise |
| Analyzer.DemandIndicatorBounds | trading/domain/analyzer.ts:72-78 | the demand lies between 0 and 100, and is 100 exactly when every auction completed |
| Analyzer.AnalyzeMarketSpec | trading/domain/analyzer.ts:80-109 | `AnalyzeMarket`: the analysis's demand is a percentage, its liquidity a score from 10 to 100, and a history of five points or fewer gives a sideways trend |
| Analyzer.SoldPrices | trading/domain/analyzer.ts:174-177 | one price per completed sale, in order |
| Analyzer.RiskScoreBounds | trading/domain/analyzer.ts:153-182 | `RiskScore`: the risk score lies in [0, 100] when the volatility is a number, and is NaN when it is NaN |
| Analyzer.Lowest | trading/domain/analyzer.ts:119 | the lowest buy-now price is one of the live auctions' prices and no larger than any of them |
| Analyzer.ProfitMarginPositive | trading/domain/analyzer.ts:124-130 | a margin of at least 2% means a positive profit after tax |
| Analyzer.OfferSpec | trading/domain/analyzer.ts:115-151 | no live auctions, or a cheapest buy-now at or above the average, give nothing; an opportunity reports the cheapest buy-now, below the average, with a margin of at least 2% and a positive profit |
| Analyzer.ArbitrageSpec | trading/domain/analyzer.ts:111-151 | the same properties for `findArbitrageOpportunities` on a player's prices, including the live auction count |
| Analyzer.VolatilityIsNumber | trading/domain/analyzer.ts:9-20 | non-negative prices that are not all 0 have a volatility that is a number |
| Analyzer.ArbitrageRiskBounds | trading/domain/analyzer.ts:133-182 | with non-negative sale prices that are not all 0, an opportunity's risk score lies in [0, 100] |
| Analyzer.ZeroSalesGiveNaNRisk | trading/domain/analyzer.ts:174-181 | two completed sales at price 0 give a NaN volatility and then a NaN risk score, which the clamp does not catch |
| Analyzer.RiskScoreClamped | trading/domain/analyzer.ts:153-182 | corrected `calculateRiskScore`: the score lies in [0, 100] for every input, equals the written score whenever the volatility is a number, and is 100 when it is NaN |
| Analyzer.ZeroSalesClampedRisk | trading/domain/analyzer.ts:174-181 | the two sales at price 0 that make the written score NaN get the corrected score 100 |
| AiTrader.Get | trading/domain/ai-trader.ts:363-370 | a property is defined exactly when the value is an object that has the key |
| AiTrader.FieldOr | trading/domain/ai-trader.ts:398-415 | `value.key || fallback` is the field when it is truthy, else the fallback |
| AiTrader.FieldIfTruthy | trading/domain/ai-trader.ts:410-412 | `value.key || undefined` is defined exactly when the field is truthy, and is then that field |
| AiTrader.RejectsExactly | trading/domain/ai-trader.ts:354-370 | `ValidateAIResponse`: the answer is rejected exactly when it is not an object, its action is not buy, sell or hold, its confidence is not a number in [0, 100], or its reasoning is not an array |
| AiTrader.OnlyObjectsAccepted | trading/domain/ai-trader.ts:358-363 | arrays and other non-objects pass the first guard only to fail the action check, so only objects are accepted |
| AiTrader.UnprofitableBecomesHold | trading/domain/ai-trader.ts:372-400 | a trade that loses coins after the 5% tax becomes a hold: confidence lowered by 20 but not below 50, no targets or profit, the note ahead of the first four reasons, medium risk, and the answer's timeframe or "medium" |
| AiTrader.OtherwiseKept | trading/domain/ai-trader.ts:403-416 | any other accepted answer keeps its action and truthy targets, rounds its confidence, keeps at most five reasons, and defaults risk and timeframe to "medium" |
| AiTrader.DecisionInvariant | trading/domain/ai-trader.ts:354-417 | every decision is about the context's player, has an action among buy, sell and hold, a confidence in [0, 100] and at most five reasons; a buy or sell with two numeric targets never loses coins after tax |
| AiTrader.ProfitRecomputed | trading/domain/ai-trader.ts:373-412 | with both targets numeric, a negative after-tax profit gives a hold with no profit, and a positive one is reported as the expected profit with the answer's action kept |
| SniperService.Rungs | src/plugins/transfer/services/sniperService.ts:48-50 | the rungs start at the first value, never pass the limit, and are empty exactly when the start is above the limit |
| SniperService.RungsClimb | src/plugins/transfer/services/sniperService.ts:48-50 | consecutive rungs differ by 50 below 1,000 and by 1,000 from there on, so the rungs strictly increase |
| SniperService.SingleValuesShape | src/plugins/transfer/services/sniperService.ts:45-53 | the ladder is 0 followed by the rungs: it starts with 0 and then the start value, climbs by the fixed steps, never passes the limit, and is just [0] when the limit is below the start |
| SniperService.DefaultLadders | src/plugins/transfer/services/sniperService.ts:55-76 | with both floors off, the bid ladder is [0, 150, 200, 250, 300] and the buy-now ladder [0, 200, 250, 300] |
| SniperService.GenerateSingleValues | src/plugins/transfer/services/sniperService.ts:45-53 | the loop returns exactly the ladder |
| SniperService.Row | src/plugins/transfer/services/sniperService.ts:61-63 | one pair per buy-now floor, each with the given bid floor |
| SniperService.Cross | src/plugins/transfer/services/sniperService.ts:60-64 | every pair of the cross product takes its bid from the bid ladder and its buy-now from the buy-now ladder |
| SniperService.CrossLength | src/plugins/transfer/services/sniperService.ts:55-67 | the cross product has one entry per pair of floors |
| SniperService.CrossAt | src/plugins/transfer/services/sniperService.ts:60-64 | entry `i * n + j` of the cross product (with `n` buy-now floors) pairs bid floor `i` with buy-now floor `j`, in bid-major order |
| SniperService.Combinations | src/plugins/transfer/services/sniperService.ts:55-67 | the combinations list is never empty, since both ladders hold 0 |
| SniperService.PushRow | src/plugins/transfer/services/sniperService.ts:61-63 | the inner loop appends exactly the row for one bid floor |
| SniperService.GenerateBothCombinations | src/plugins/transfer/services/sniperService.ts:55-67 | the nested loops return exactly the bid-major cross product |
| SniperService.Period | src/plugins/transfer/services/sniperService.ts:69-96 | the rotation of the cache-defeat ladder has at least one step |
| SniperService.CachePreventionAt | src/plugins/transfer/services/sniperService.ts:69-96 | every rewrite leaves the max buy-now and sell price unchanged |
| SniperService.CachePrevention | src/plugins/transfer/services/sniperService.ts:69-96 | the rewrite of any search leaves the max buy-now and the sell price unchanged, touching only the two floor fields |
| SniperService.CachePreventionPeriodic | src/plugins/transfer/services/sniperService.ts:77-94 | the rewrite depends on the search counter only modulo the ladder's length |
| SniperService.CachePreventionFields | src/plugins/transfer/services/sniperService.ts:69-96 | a single enabled floor writes only its own field, from its own ladder; with both floors off, both values stay within 0..300 |
| SniperService.NoFloorBounds | src/plugins/transfer/services/sniperService.ts:73-79 | every pair walked with both floors off lies within 0..300 |
| SniperService.ApplyCachePrevention | src/plugins/transfer/services/sniperService.ts:69-96 | the method performs exactly the specified rewrite |
| SniperService.Draw | src/plugins/transfer/services/sniperService.ts:248-281 | a draw for a range with min at most max is a whole number in [min, max] |
| SniperService.RandomIndex | src/plugins/transfer/services/sniperService.ts:295 | the random index is below the number of filters |
| SniperService.SelectFilter | src/plugins/transfer/services/sniperService.ts:291-303 | with no filters there is no filter; otherwise the choice is one of the filters, at the cycle index for per-cycle rotation and at the search counter for sequential rotation |
| SniperService.FreshBuysEachOnce | src/plugins/transfer/services/sniperService.ts:207-219 | the results bought are exactly the unseen trade ids of the page, each once |
| SniperService.BuyItem | src/plugins/transfer/services/sniperService.ts:146-155 | a dry run logs a win and never bids; otherwise the bid is at the item's buy-now price |
| SniperService.BuysForEach | src/plugins/transfer/services/sniperService.ts:207-219 | one buy per item, each for that item |
| SniperService.FreshStep | src/plugins/transfer/services/sniperService.ts:207-219 | one step of the result loop: a seen trade id is skipped, an unseen one is bought and marked seen |
| SniperService.BoughtOnceExtend | src/plugins/transfer/services/sniperService.ts:212-218 | buying an unseen trade id and marking it seen keeps every trade id bought at most once |
| SniperService.BuyUnseen | src/plugins/transfer/services/sniperService.ts:207-219 | the loop marks every result seen, buys exactly the unseen ones in order, and keeps every trade id bought at most once |
| SniperService.ListingAfterWin | src/plugins/transfer/services/sniperService.ts:171-190 | a won item is relisted exactly when the sell price is positive and the pile is not full, with a buy-now at the sell price and a lower starting bid |
| SniperService.NextDelay | src/plugins/transfer/services/sniperService.ts:253-288 | the pause is 1000 times a whole number of seconds in the cycle-pause range at a cycle boundary, and in the search-delay range otherwise |
| SniperService.SniperService.constructor | src/plugins/transfer/services/sniperService.ts:407-415 | a new sniper is stopped, with every counter at 0, no timer and no trade id seen (fields at lines 21-29) |
| SniperService.SniperService.Stop | src/plugins/transfer/services/sniperService.ts:356-372 | stopping a stopped sniper changes nothing; otherwise the state becomes STOP and the armed timer is cleared; nothing else changes |
| SniperService.SniperService.PerformSearch | src/plugins/transfer/services/sniperService.ts:305-328 | a stopped sniper sends nothing; a running one sends the chosen filter's criteria rewritten by the cache-defeat ladder, and changes no field |
| SniperService.SniperService.Start | src/plugins/transfer/services/sniperService.ts:330-354 | starting a running sniper changes nothing; otherwise the state becomes START with every counter at 0 and no trade id seen, and the first search is sent |
| SniperService.SniperService.OnTimer | src/plugins/transfer/services/sniperService.ts:269-287 | the armed timer fires and runs the search with the captured filters and settings |
| SniperService.SniperService.HandleSearchError | src/plugins/transfer/services/sniperService.ts:98-144 | a captcha or maintenance status stops at once and leaves the failure count alone; any other failure counts, and the third in a row stops; the result says whether it stopped |
| SniperService.SniperService.ProcessSearchResults | src/plugins/transfer/services/sniperService.ts:194-220 | more than five results stop the sniper and buy nothing; otherwise every unseen result is marked seen and bought, in order |
| SniperService.SniperService.OnBidResult | src/plugins/transfer/services/sniperService.ts:155-190 | a failed bid adds one to "Fails"; a win adds one to "Wins" and may lead to a relisting; no other statistic changes |
| SniperService.SniperService.CountSearch | src/plugins/transfer/services/sniperService.ts:241-244 | after the results: one more search counted in "Searches" and in both counters, and the failure streak reset to 0 |
| SniperService.SniperService.ArmTimer | src/plugins/transfer/services/sniperService.ts:246-288 | at a cycle boundary the cycle count starts over, per-cycle rotation moves on and a cycle pause is armed; otherwise a search delay is armed |
| SniperService.SniperService.HandleSearchResponse | src/plugins/transfer/services/sniperService.ts:222-289 | as written: a stopped sniper ignores the response; a failure goes through the error handler, and one that does not stop falls through; given items, the results are processed, the search counted and the next search armed, even after a safeguard stop |
| SniperService.SniperService.HandleWhileStarted | src/plugins/transfer/services/sniperService.ts:233-289 | the same outcomes for a running sniper |
| SniperService.SniperService.HandleResults | src/plugins/transfer/services/sniperService.ts:239-289 | processing, counting and arming once a response has items |
| SniperService.SniperService.HandleSearchResponseGuarded | src/plugins/transfer/services/sniperService.ts:222-289 | the corrected handler returns once the safeguard has stopped the sniper, so a stopped sniper never has an armed timer, and a scheduled search means the sniper is running |
| SniperService.SafeguardStopKeepsTimer | src/plugins/transfer/services/sniperService.ts:239-288 | a page of six results stops the sniper but a search is still armed; a restart before it fires leaves two searches running |
| SniperService.PlainFailure | src/plugins/transfer/services/sniperService.ts:233-244 | a plain failure (status 500, an empty item list) is counted as a search and resets the failure streak |
| SniperService.FailuresNeverStop | src/plugins/transfer/services/sniperService.ts:233-244 | three plain failures in a row leave the sniper running with no failure streak: the three-strike stop never fires (error handler at lines 98-144) |
| SniperEngine.RandomMaxBid | src/core/sniper/sniper-engine.ts:103-104 | the random maximum bid is a whole thousand between 300,000 and 800,000 |
| SniperEngine.PickDelay | src/core/sniper/sniper-engine.ts:285-301 | the delay is an element of the list, or 0 (an undefined timeout) when the list is empty |
| SniperEngine.LoadedView | src/core/sniper/sniper-engine.ts:112-144 | an unreachable view stays unreachable; a loaded filter's criteria are copied with both bid bounds cleared; without a filter the view is left as it was |
| SniperEngine.SearchCriteria | src/core/sniper/sniper-engine.ts:102-104 | a search is sent with `minBid` 0, a random whole-thousand `maxBid` in [300,000, 800,000], and the view's buy-now bounds |
| SniperEngine.SniperEngine.constructor | src/core/sniper/sniper-engine.ts:12-31 | a new engine is not running, has no timeout, no failures, a cycle count of 0 and no trade id seen |
| SniperEngine.SniperEngine.UpdateSettings | src/core/sniper/sniper-engine.ts:33-36 | the settings are replaced and nothing else changes |
| SniperEngine.SniperEngine.Stop | src/core/sniper/sniper-engine.ts:65-83 | false and no change when not running; otherwise the engine stops, the timeout is cleared and the seen trade ids are forgotten |
| SniperEngine.SniperEngine.LoadNextFilterForSearch | src/core/sniper/sniper-engine.ts:112-144 | with a selected filter under the cursor, its criteria are loaded into a reachable view and the cursor moves on, even when the view cannot be reached; otherwise nothing happens |
| SniperEngine.SniperEngine.PerformSearch | src/core/sniper/sniper-engine.ts:85-110 | nothing when not running; with no reachable criteria the engine stops; otherwise the search is sent with the loaded criteria, `minBid` 0 and a random `maxBid` |
| SniperEngine.SniperEngine.Start | src/core/sniper/sniper-engine.ts:42-63 | false and no change when running; otherwise the engine runs with the cycle count and the filter cursor at 0 and performs the first search; the failure count and the seen trade ids are kept |
| SniperEngine.SniperEngine.OnTimer | src/core/sniper/sniper-engine.ts:293-305 | the armed timeout fires and performs the next search |
| SniperEngine.SniperEngine.HandleSearchError | src/core/sniper/sniper-engine.ts:176-219 | a captcha or maintenance status stops at once and leaves the failure count alone; any other failure counts, and the third in a row stops; the result says whether it stopped |
| SniperEngine.SniperEngine.ProcessSearchResults | src/core/sniper/sniper-engine.ts:221-263 | more than five results stop the engine and buy nothing; otherwise every unseen result is marked seen and bought in order, and a dry run never bids |
| SniperEngine.SniperEngine.ScheduleNextSearch | src/core/sniper/sniper-engine.ts:280-307 | the search counts in the cycle; once the count reaches the cycle length it starts over and the delay is drawn from the cycle pauses, otherwise from the search delays; a timeout is armed |
| SniperEngine.SniperEngine.HandleSearchResponse | src/core/sniper/sniper-engine.ts:158-174 | as written: after a stop nothing happens; a success ends the failure streak and processes the results; a failure that does not stop buys nothing; either way the next search is scheduled, even after a safeguard stop |
| SniperEngine.SniperEngine.HandleSearchResponseGuarded | src/core/sniper/sniper-engine.ts:158-174 | the corrected handler returns once result processing has stopped the engine, so a stopped engine never has an armed timeout |
| SniperEngine.SafeguardStopKeepsTimeout | src/core/sniper/sniper-engine.ts:221-230 | six results stop the engine but a timeout is still armed; a restart before it fires leaves two searches running (response handling at lines 164-173) |
| Sorting.SortedElementsSpec | src/core/filters/filter-manager.ts:21-24 | `Array.from(set).sort((a, b) => a - b)` lists exactly the set's elements, once each, in strictly ascending order |
| Sorting.IncreasingUnique | src/core/filters/filter-manager.ts:21-24 | two strictly ascending lists with the same elements are equal, so the sorted list is determined by the set |
| Sorting.SortedRange | src/core/filters/filter-manager.ts:21-24 | the indices below `n`, sorted, are 0, 1, ..., n - 1 |
| Sorting.SortBySpec | trading/domain/market-timing.ts:222 | sorting by a key yields a list ascending by that key, of the same length, that is a permutation of the input (the same sort recurs at line 283) |
| Sorting.SortByFirst | trading/domain/market-timing.ts:229 | the first element after sorting is an element of the input with the least key (the same sort at line 283) |
| Sorting.SortByStable | trading/domain/market-timing.ts:222 | the sort is stable: for every key, the elements with that key keep their order from the input |
| Js.ParseIntOfIntToString | src/services/utilService.ts:6 | `parseInt(String(n), 10)` reads back exactly the integer that was printed |
| Js.RemoveCommasOfGrouped | src/services/utilService.ts:6 | deleting every comma from an en-US grouped count (`toLocaleString()`) leaves its plain decimal digits |
| Json.ToNumber | trading/domain/ai-trader.ts:374-376 | `Number(v)` as the tax arithmetic applies it: a number is itself, `null` and `[]` are 0, and strings, objects and arrays of two or more elements are NaN |

## Left out

- **Browser and game side effects.** The DOM, buttons, log lines, sounds, page-view events and `localStorage` writes are not modelled, except that the transfer settings manager keeps its saved value as a field (`TransferSettings.SettingsManager.Save`). What storage returns is an input to the constructors and to `load`.
- **Network calls.** `fetchWithRetry`, the fut.gg player and price requests, the transfer-market search, the bid and the relisting request are not modelled. The data they return is an input, and a bid or relisting is returned as a value.
- **Clocks and randomness.** `Date.now()`, `new Date()` and `Math.random()` are parameters. Each random draw is a real in [0, 1).
- **Timers.** A timer is an armed flag plus the returned delay. Its callback is a separate method (`OnTimer`).
- **Numbers.** Numbers are exact rationals (`real`) or integers, not IEEE doubles. NaN is `None` where `parseInt` or `Number()` fails (`Js.ParseInt`, `Json.ToNumber`), and is a value of its own in the analyzer. The infinities appear only where the analyzer divides by zero.
- **The square root.** The square root in `calculateVolatility` is replaced by a parameter whose square is the variance.
- **The London clock.** London time is the UTC time plus London's offset, which is an input. A daylight-saving change between now and the start of a window is not modelled.
- **Date objects.** The `Date` objects that `getUpcomingRewards` and `getMarketTimingContext` also return are not modelled. Neither is the `lastUpdated: new Date()` field of an arbitrage opportunity. The daily-content record also omits its always-empty `playersAffected` list.
- **Other files.** `src/services/sniperService.ts` is an older copy that only draws buttons, and is not part of this model. The price helpers imported from `~/composables/price` are not part of this model either; the definitions in `src/core/price.ts` stand in for them.
- **AI trader.** Everything in `trading/domain/ai-trader.ts` except `validateAIResponse` (prompt building and the API call) is not part of this model.
- **Card plugin.** Callbacks are counted per id rather than stored as functions.
- Futgg.GetSeasonalProfile: the relative change is kept exact. Rounding it to two decimals with `toFixed(2)` is not modelled.
- Futgg.SeasonalProfileValues: because the change is kept exact, a change that rounds to 0.00 or to -100.00 is still positive, or still above -100%, in this lemma; the source's rounded value can be 0.00 or -100.00.
- Futgg.Median: the array is sorted by an insertion sort. The engine's own sort algorithm is not specified, but any correct numeric sort gives the same ascending order (`Futgg.AscendingUnique`).
- Futgg.GetPlayerPricesHistory: the sales are not sorted by time first. The sort only decides the latest sale time, which `Futgg.Latest` takes directly, and the order of prices inside a bucket, which the median ignores (`Futgg.MedianPermutation`).
- Json.ToNumber: a string converts to NaN, and so does an array holding one string. JavaScript converts a numeric string to its number (`Number("5")` is 5). Other arrays convert as JavaScript converts them: `[]` is 0, `[5]` is 5, and a longer array is NaN.
- AiTrader.UnprofitableBecomesHold: a target price given as a numeric string counts as NaN in the profit check, so a losing trade priced in strings is not turned into a hold.
- AiTrader.OtherwiseKept: for the same reason, a losing trade whose targets are numeric strings is kept with its action.
- Filters.FormatFieldChange: a criterion held as a numeric string compares as NaN, through `Json.ToNumber`, so it gives no label. JavaScript's relational comparison would convert the string to its number. A fractional number is written floored, both in `${v}` and in `toLocaleString()`, where JavaScript writes its decimals (`${1.5}` is "1.5"). A `null` inside an array is written as empty, as `join` writes it.
- Filters.FilterManager.Save: one clock reading serves as both the new id and the timestamp, as the two `Date.now()` calls give in the same millisecond.
- MarketTiming.London: the round trip through a locale string is modelled as cutting the time to whole seconds.
- SniperEngine.SniperEngine.UpdateSettings: the sound switch it also sets on the audio service is not modelled.
- TransferSettings.DeepMerge: settings are values, not shared objects. In the source, `{ ...target }` keeps the defaults' nested objects by reference under every key the saved value lacks, so a later in-place edit of such a nested field also changes `defaultSettings`. The model copies instead, so this sharing below the top level is not captured. The top-level sharing after `load` with nothing saved is modelled (`TransferSettings.ResetAfterEditKeepsEdit`).
- ProfitService.ProfitService.UpdateDisplay: only the choice of panel and the numbers shown are modelled, not the markup, colours or `toFixed(1)` text.

## Findings

| source | as written | input that shows it | evidently intended | confidence | as-written member | corrected member |
|---|---|---|---|---|---|---|
| src/plugins/transfer/managers/settingsManager.ts:90-105 | with nothing saved, `settings` is the defaults object itself, so edits change the defaults and `reset` brings the edits back | nothing saved, then an edit, then `reset` | `reset` restores a fresh copy of the default values | high (not executed) | TransferSettings.ResetAfterEditKeepsEdit | TransferSettings.ResetToDefaultsAfterEdit |
| src/plugins/transfer/services/profitService.ts:32-37 | the sell target is rounded down onto the price ladder, which can undo the margin | max-buy price 100: the target is 110.53, its ceiling 111, and the suggestion 100, which returns 95 after tax | round up onto the ladder, so the 5% margin survives the tax | high (not executed) | ProfitService.SuggestedSellPriceCanLose | ProfitService.SuggestSellPriceAtLeast |
| src/plugins/transfer/services/sniperService.ts:239-288 | after the safeguard stops the sniper, the handler still arms the next search; a restart before it fires runs two search loops | a page of six results, then `start` before the timer fires | return once result processing has stopped the sniper | high (not executed) | SniperService.SafeguardStopKeepsTimer | SniperService.SniperService.HandleSearchResponseGuarded |
| src/core/sniper/sniper-engine.ts:169-173 | after the safeguard stops the engine, `scheduleNextSearch` still arms a timeout; a restart before it fires runs two search loops | a page of six results, then `start` before the timeout fires | return once result processing has stopped the engine | high (not executed) | SniperEngine.SafeguardStopKeepsTimeout | SniperEngine.SniperEngine.HandleSearchResponseGuarded |
| src/core/filters/filter-manager.ts:95-102 | deleting a filter does not renumber the selected positions, so the selection moves to other filters | three filters with the second selected; delete the first, and the third is selected | renumber the selection so that it names the same filters | high (not executed) | CoreFilters.DeleteMovesSelection | CoreFilters.FilterManager.DeleteFilterKeepingSelection |
| trading/domain/analyzer.ts:153-182 | the clamp `Math.max(0, Math.min(100, risk))` passes NaN through, so the score leaves [0, 100] | two completed sales, both at price 0: the volatility is 0/0, and the score is NaN | a score in [0, 100] for every input, with no usable volatility counted as the highest risk | high (not executed) | Analyzer.ZeroSalesGiveNaNRisk | Analyzer.RiskScoreClamped |
