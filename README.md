# In & Out: a Dafny model of the daily decision core

The "In & Out" strategy holds a risk-on asset (QQQ) or a risk-off asset (TLT).
Once a day it decides which one to hold from a smoothed "stress density": the
fraction of eight cross-asset indicators that are statistically extreme.
This project models the decision core of `main.py` and proves its properties.
QuantConnect plumbing and the pandas/numpy statistics are not modelled.

The state lives in one object, `Strategy.InOut`, and is updated in place:

- `signalDens`: the bounded FIFO of smoothed densities (`deque(maxlen=100)`), seeded with five zeros;
- `beIn`: the append-only regime list (1 = IN, 0 = OUT), seeded with `[1]`;
- `hldOut`: the risk-off weight map, which the momentum selection rewrites in place;
- `hldIn`: the risk-on weight map, which never changes;
- `history` and `columns`: the rolling closing-price table.

Modules follow the components of `main.py`:

- `Seqs`: sequence helpers: optional values, duplicate-freedom, the newest entries of a bounded buffer, and order-keeping filtering.
- `Dicts`: Python's insertion-ordered dict (order plus map), `{**a, **b}` and `dict.fromkeys`.
- `Signal`: the debt false-positive filter, the density fraction, the EMA step (`ema_f = 2/51`) and the bounded deque.
- `Regime`: the OUT condition (`d[-1] > d[-2]`), the IN condition (`d[-1] < min(d[-45:-2])`) and what they append.
- `PriceHistory`: `history.loc[t, sym] = close` followed by `iloc[-1260:]`.
- `Targets`: the weight maps for OUT and for IN.
- `OutSelector`: momentum ranking `price[-1]/price[-40] - 1` and the at-most-one selection.
- `Rebalance`: held weights, a stable ascending sort by delta, and the `cond1`/`cond2` instruction filter. It returns the instruction list instead of calling `SetHoldings`.
- `Strategy`: the class, with `consolidation_handler`, the live-mode reload, and `inout_check` steps 4-7.

Densities, prices and weights are Dafny `real`, so the arithmetic is exact.
The "extreme" and "above median" booleans of each column are inputs (`Signal.DayFlags`).
The portfolio snapshot (`Rebalance.Portfolio`) and the set of securities with a current quote are inputs too.

Two behaviours of `main.py` the model keeps:

- With fewer than 45 densities, the IN condition uses the minimum of whatever lies before the last two. It does not treat a short window as "no IN signal".
- The momentum return compares the newest row with the 40th row from the end, which spans 39 intervals.

## Model

| member | source | states |
|---|---|---|
| Seqs.Filter | main.py:176-177 | the kept elements are exactly those of the input that pass the test; no duplicates are introduced (`FilterSnoc`: the input order is kept) |
| Seqs.Newest | main.py:99 | the last min(len, n) entries, oldest first: what `iloc[-1260:]` keeps of the table and what `deque(OS, maxlen=100)` keeps of a stored snapshot (main.py:114) |
| Dicts.Merge | main.py:148 | `{**a, **b}`: the keys are those of either dict; `a`'s keys come first in their order, then `b`'s keys that `a` lacks in `b`'s order; `b`'s value wins on a shared key; no key repeats |
| Dicts.FromKeys | main.py:148 | `dict.fromkeys`: same keys in the same order, every value the given one |
| Dicts.Put | main.py:184 | `HLD_OUT[k] = v` on a present key: the order and key set are unchanged, `k` maps to `v`, every other key keeps its value |
| Signal.DebtFilter | main.py:129 | the debt flag is cleared exactly when it was set and metals or natural resources are above their median; every other flag is untouched |
| Signal.CountTrue | main.py:132 | the count of true flags is at most the number of flags; it is 0 iff none is set and full iff all are |
| Signal.CountTrueIsMultiplicity | main.py:132 | the count is exactly the number of occurrences of `true` |
| Signal.CurrentDensity | main.py:132 | the fraction of the 8 signal and pair flags that are extreme lies in [0,1]; it is 0 iff none is extreme and 1 iff all are |
| Signal.CurrentDensityValue | main.py:132 | the density is exactly the number of extreme flags among the 8 columns divided by 8 |
| Signal.Ema | main.py:133 | the smoothed value lies between the previous density and the current one, and it stays put only when they are equal |
| Signal.BoundedAppend | main.py:134 | `deque.append` with `maxlen`: the length grows by one until the capacity and then stays there; the newest entry is the appended value; the older entries are the newest of the previous contents, so the oldest drops out when full |
| Signal.NextDensities | main.py:128-134 | one daily density update; `NextDensitiesInRange` and `AppendInRange` state its bounds, `Strategy.InOut.UpdateDensity` its newest entry |
| Signal.AppendInRange | main.py:133-134 | appending the smoothed value of a density in [0,1] keeps the deque within 100 entries, never shrinks it, and keeps every entry in [0,1] |
| Signal.NextDensitiesInRange | main.py:132-134 | one daily step never shrinks the deque, keeps it within 100 entries, and keeps every density in [0,1] |
| Signal.Replay | main.py:133-134 | a run of daily checks never shrinks the deque and never takes it past 100 entries |
| Signal.ReplayInRange | main.py:132-134 | from a deque in [0,1], a run of n checks leaves min(len + n, 100) entries, all in [0,1] |
| Signal.ReplayFromSeeds | main.py:70 | from the five zero seeds, any run of checks leaves between 5 and 100 densities, all in [0,1], growing by one per day until full |
| Regime.MinOf | main.py:141 | `min` is at most every element and is one of them |
| Regime.Trailing | main.py:141 | the slice `[-45:-2]` of a deque with at least 3 entries is non-empty and holds at most 43 entries |
| Regime.OutFires | main.py:138 | the OUT condition; `Regime.RegimeStep` appends 0 exactly when it holds |
| Regime.InFires | main.py:141 | the IN condition; `Regime.InFiresIff` gives its meaning and `Regime.RegimeStep` appends 1 exactly when it holds |
| Regime.InFiresIff | main.py:141 | the IN condition holds exactly when the newest density is below every entry of `[-45:-2]` |
| Regime.RegimeStep | main.py:138-142 | 0 is appended iff `d[-1] > d[-2]`; 1 is appended iff `d[-1] < min(d[-45:-2])`; one entry per condition that fires, so `be_in` grows by exactly that many; both give `[0, 1]`, neither gives nothing |
| Regime.NewestRegime | main.py:138-145 | after a check, `be_in[-1]` is 1 if IN fired, else 0 if OUT fired, else the previous regime; `be_in` is never empty |
| Regime.HysteresisExample | main.py:138-142 | for 43 times 0.1 then 0.05, 0.2, OUT fires and IN does not |
| PriceHistory.RowOf | main.py:98 | the index lookup finds the first row stamped `t`, or reports that none exists |
| PriceHistory.SetCell | main.py:98 | `loc[t, sym] = c` grows the table by one row exactly when no row is stamped `t`, and otherwise keeps its length |
| PriceHistory.AddBar | main.py:98-99 | the table never holds more than 1260 rows, and a table within that bound never shrinks |
| PriceHistory.SetCellKeeps | main.py:98 | every old row stays at its place with its timestamp, and every old cell other than (`t`, `sym`) keeps its price |
| PriceHistory.SetCellFacts | main.py:98 | insert-or-overwrite keeps timestamps unique and prices positive, adds the symbol to the columns, stores the written price at `t`, and takes every other cell from the old table; a new timestamp is appended last |
| PriceHistory.SuffixFacts | main.py:99 | truncation keeps timestamps unique, prices positive and cells within the columns |
| PriceHistory.AddBarFacts | main.py:98-99 | after a bar, the table has at most 1260 rows and stays well formed; the just-written close is stored at its timestamp; every other cell is one the table already held |
| PriceHistory.AddBarKeeps | main.py:98-99 | a bar drops at most the oldest row, and only when the table was full and `t` is new; every other cell of every surviving old row is still stored at its timestamp |
| Targets.TargetOut | main.py:148 | OUT map: every risk-off asset at its `HLD_OUT` weight, every other risk-on asset at 0, risk-on keys first |
| Targets.TargetIn | main.py:151 | IN map: every risk-off asset at 0, every other risk-on asset at its `HLD_IN` weight, risk-on keys first |
| Targets.TargetKeyOrder | main.py:148-151 | both target maps list the risk-on assets in `HLD_IN`'s order, then the risk-off assets not already listed in `HLD_OUT`'s order |
| OutSelector.Ret | main.py:180 | the momentum return exists exactly when both the newest and the 40th-from-last cells exist; it is above -100%, and positive exactly when the price rose |
| OutSelector.Leader | main.py:180-186 | `rets.index[0]`: no candidate outranks it in a descending sort with NaN last, and it strictly outranks every candidate listed before it |
| OutSelector.NewWeight | main.py:182-193 | the new weight is 0 or 1, and 1 only for a candidate with a positive return |
| OutSelector.SelectOut | main.py:182-193 | the selection keeps `HLD_OUT`'s keys and their order |
| OutSelector.SelectOutByKeys | main.py:182-193 | rewriting every key of `HLD_OUT`, in order, with its new weight yields the selection |
| OutSelector.SelectOutFacts | main.py:176-193 | every weight is 0 or 1; an asset missing from the table gets 0; a selected asset is the top-ranked candidate with a strictly positive return; conversely the top-ranked candidate is selected whenever its return is strictly positive |
| OutSelector.AtMostOneSelected | main.py:186-193 | at most one risk-off asset gets weight 1 |
| OutSelector.NoCandidateMeansCash | main.py:182-185 | with no risk-off asset in the table, every weight is 0 |
| OutSelector.TwoCandidatesExample | main.py:180-193 | with returns +5% and -3%, the first gets 1 and the second 0 |
| Rebalance.HeldWeight | main.py:159 | `hold_wt.get(k, 0)`; `Rebalance.ItemsFacts` ties every delta to it |
| Rebalance.Delta | main.py:160 | `order_wt[k]`; `Rebalance.SortedTargets` and `Rebalance.PlanDeltaOrdered` order the trades by it |
| Rebalance.SortByDelta | main.py:161 | the sort; `SortPermutes`, `SortSorted`, `SortStable` and `SortDistinct` state its properties |
| Rebalance.SortPermutes | main.py:161 | the sort is a permutation of the targets |
| Rebalance.SortPermutesSecs | main.py:161 | the sorted securities are a permutation of the target securities |
| Rebalance.SortSorted | main.py:161 | the sort is non-decreasing in delta |
| Rebalance.SortStable | main.py:161 | the sort is stable: targets with equal delta keep their dict order |
| Rebalance.SortDistinct | main.py:161 | the sort lists each security at most once when its input does |
| Rebalance.ItemsFacts | main.py:159-160 | each target is listed once in dict order with its own weight and delta `target - held` (held defaults to 0) |
| Rebalance.SortedTargets | main.py:159-161 | the trading sequence is a permutation of the target keys, ordered non-decreasingly by `target - held` |
| Rebalance.ShouldOrder | main.py:166-168 | `cond1 or cond2`; `Rebalance.PlanIssuedExactly` and `Rebalance.NoOrdersIffSettled` state what it selects |
| Rebalance.Plan | main.py:161-169 | the instruction list; the `Plan*` lemmas and `NoOrdersIffSettled` state its properties |
| Rebalance.PlanSetsTargets | main.py:163-169 | every instruction sets a target security to its own target weight |
| Rebalance.PlanIssuedExactly | main.py:164-169 | a target gets an instruction iff it has a quote and (target 0 and long or short) or (target nonzero and not invested) |
| Rebalance.PlanOncePerSec | main.py:163-169 | no security gets two instructions |
| Rebalance.PlanDeltaOrdered | main.py:161-169 | instructions come in non-decreasing order of delta, so every weight-reducing trade precedes every weight-increasing one |
| Rebalance.NoOrdersIffSettled | main.py:166-168 | no instruction is issued exactly when every quoted target is settled (held iff its target is nonzero), so a rerun after fills is a no-op |
| Rebalance.TradeSpec | main.py:157-169 | `trade` as a value; `Rebalance.TradeSpecFacts` states what it promises |
| Rebalance.TradeSpecFacts | main.py:157-169 | `trade` fails exactly when the portfolio lists any security and the total value is 0; otherwise each target gets at most one instruction, exactly as above, in delta order |
| Rebalance.Issue | main.py:163-169 | the instruction loop emits exactly the quoted targets that pass `cond1 or cond2`, in sorted order |
| Rebalance.Trade | main.py:157-169 | `trade` returns the specified result: it fails exactly when the portfolio lists any security and the total value is 0, otherwise it returns the planned instructions |
| Strategy.Reloaded | main.py:111-114 | in live mode with an all-zero deque and a stored snapshot, the deque becomes the snapshot's last min(len, 100) entries; outside live mode, or once a density is nonzero, the deque is kept; any replacement is the tail of the stored snapshot, at most 100 entries; reloading a saved snapshot gives a valid deque |
| Strategy.RegimeInputLongEnough | main.py:134-141 | after the append the deque holds at least 6 entries, so `[-45:-2]` holds at least 4 |
| Strategy.CollectCandidates | main.py:176-177 | `get_list` is the `HLD_OUT` keys that are table columns, in `HLD_OUT` order |
| Strategy.InOut.constructor | main.py:42-70 | initial state: `HLD_IN` and `HLD_OUT` at weight 1, five zero densities, `be_in = [1]`, the warm-up table |
| Strategy.InOut.ConsolidationHandler | main.py:96-100 | the table becomes insert-or-overwrite then last 1260 rows; it stays well formed, stores the new close, and holds no cell the old table lacked |
| Strategy.InOut.Reload | main.py:111-114 | in live mode an all-zero deque is replaced by the last 100 stored densities; otherwise it is unchanged |
| Strategy.InOut.UpdateDensity | main.py:128-134 | appends the EMA of the filtered density against the newest stored one; the deque stays within 100 entries and in [0,1] |
| Strategy.InOut.DecideRegime | main.py:136-142 | `be_in` is extended by exactly what the OUT and IN conditions append |
| Strategy.InOut.OutMomSel | main.py:171-193 | on an empty table, nothing changes; with under 40 rows it fails and leaves `HLD_OUT` alone; otherwise `HLD_OUT` becomes the selection |
| Strategy.InOut.ExecuteTrades | main.py:144-151 | regime IN trades into the IN map; regime OUT selects the risk-off asset, then trades into the OUT map; exactly one branch runs |
| Strategy.InOut.InOutCheck | main.py:106-151 | an empty table leaves everything unchanged; otherwise the deque, `be_in`, `HLD_OUT` and the instructions are those of the steps above |

## Left out

- QuantConnect set-up and scheduling are framework plumbing (main.py:19-94): `AddEquity`, consolidator registration, `Schedule.On` and the warm-up `History` call. The constructor takes the warm-up table as a parameter.
- The `self.cap` fallback and `portf_val` (main.py:68-70) are not modelled. `cap` is never defined, and `portf_val` is never read.
- The baseline and deviation statistics are floating-point library numerics over dataframes (main.py:102-104, 116-125, 128). This covers `update_history_shift`, the deviations, `nanpercentile` and `nanmedian`. The resulting "extreme" and "above median" flags are inputs.
- Writing to the object store (`SaveData`, main.py:155, 204-205) is I/O. The reload reads the stored snapshot as a parameter.
- Charting and benchmarks (main.py:94, 153, 195-202) are telemetry.
- `SetHoldings` (main.py:169) is a brokerage call. The model emits an `Order(sec, weight)` instead, and fills are not modelled.
- IEEE float rounding is not modelled. Prices, densities and weights are exact reals.
- Strategy.InOut.Reload: requires the stored snapshot to hold at least five densities in [0,1], as a saved deque always does. A foreign or corrupted object-store entry is not modelled.
- Strategy.InOut.ConsolidationHandler: requires a positive close. Zero or negative prices are not modelled, so the momentum ratio never divides by zero.
- OutSelector.Leader: on tied returns it picks the first candidate in `HLD_OUT` order. pandas' default `sort_values` is not stable, so `main.py` may break ties differently.
- Rebalance.HoldingOf: a security the portfolio does not list counts as flat. `IsLong`, `IsShort` and `Invested` follow the sign of the quantity, as the brokerage defines them.
- Strategy.InOut.InOutCheck: where `main.py` raises, the model returns an outcome instead. This happens with fewer than 40 rows in the momentum lookup, or with a zero total value while the portfolio lists any security. The density and regime updates already made are kept, as in `main.py`. The skipped `SaveData` and charts are not modelled.
- Timestamps are integers. A bar at a new timestamp is appended after the last row, as pandas enlargement does, whatever its time.
