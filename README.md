# MyMoney portfolio core in Dafny

A model of the portfolio domain of the MyMoney investment simulator. The
simulator holds money in three asset classes (EQUITY, DEBT, GOLD) and runs month
by month:

- ALLOCATE sets the initial amounts, and each amount's share of the total
  becomes that class's fixed allocation ratio.
- SIP records a monthly systematic investment per class. It only takes effect
  from the second CHANGE on.
- CHANGE adds each asset's SIP, applies the month's rate of return (ROI),
  records the month's balance, rebalances to the original ratios in JUNE and
  DECEMBER, and then activates SIP if it was not active yet.
- BALANCE and REBALANCE report the recorded amounts.

The model keeps the source's shape:

- `Assets.Asset`, `Portfolios.Portfolio`, `Repositories.InMemoryPortfolioRepository`
  and `Services.PortfolioService` are classes whose methods update their fields
  in place.
- Each class is proved against a value-level specification:
  - `Holding` is the value of an `Asset`.
  - `PortfolioState` is the value of a `Portfolio`.
  - `ServiceState` is the value of the service together with its store.
- The functions on these values (`MonthlyChanges`, `Saved`, `AfterRebalance`,
  `AllocateSpec`, `SetSipSpec`, `ChangeSpec`, `SipsApplied`, ...) carry the
  properties, as ensures clauses and as lemmas.
- The exceptions the core throws become `Outcome`/`Result` values carrying the
  source's exception kind and message.
- A failing loop leaves the state exactly as far as the source's loop got before
  throwing.

Module layout:

- `results.dfy`: `Results`, the error, outcome, result and option types.
- `asset_type.dfy`: `AssetTypes`. The `AssetType` enum's own source file is not
  part of this model. Its constants EQUITY, DEBT and GOLD, in that order, are
  taken from their uses.
- `java_text.dfy`: `JavaText`, `String.trim()` and ASCII `toUpperCase`.
- `month.dfy`: `Months`, `Month.java`.
- `asset.dfy`: `Assets`, `Asset.java`.
- `portfolio.dfy`: `Portfolios`, `Portfolio.java`.
- `repository.dfy`: `Repositories`, `InMemoryPortfolioRepository.java`.
- `service.dfy`: `Services`, `PortfolioService.java`, with `Config.REBALANCE_MONTHS`.

Constants from `EntityConstants`, `PortfolioConstants` and `ServiceConstants`
are written inline:

- `MinRoi = -1.0` (`PortfolioConstants.java:8`);
- `DefaultRoi = 0.0`;
- a missing allocation counts as 0;
- the minimum amount is 0;
- the final amount is clamped at 0.

## Model

| member | source | states |
|---|---|---|
| AssetTypes.AssetOrdinal | src/main/java/com/geektrust/backend/services/PortfolioService.java:39 | gives each asset class a position in `AssetType.values()` (EQUITY 0, DEBT 1, GOLD 2) that holds that class |
| AssetTypes.OrdinalOfValues | src/main/java/com/geektrust/backend/services/PortfolioService.java:39 | the class at position i of `values()` has ordinal i, so `values()` lists each class once |
| Assets.CheckNew | src/main/java/com/geektrust/backend/entities/Asset.java:18-22 | construction passes exactly when amount >= 0 and ratio >= 0; a negative amount fails with "Initial amount cannot be negative" (checked first), otherwise a negative ratio fails with "Allocation ratio cannot be negative" |
| Assets.Asset.Create | src/main/java/com/geektrust/backend/entities/Asset.java:18-26 | fails exactly when the checks fail, with their error; otherwise a fresh asset with the given type, amount and ratio and SIP 0 |
| Assets.Asset.constructor | src/main/java/com/geektrust/backend/entities/Asset.java:23-25 | the new asset holds the type, amount and ratio, with SIP 0 |
| Assets.RoiAmountBounds | src/main/java/com/geektrust/backend/entities/Asset.java:50-51 | the new amount is amount × (1 + roi) rounded down; a zero ROI keeps the amount, a gain never lowers it, a loss never raises it |
| Assets.Invest | src/main/java/com/geektrust/backend/entities/Asset.java:44 | investing adds the SIP to the amount and changes nothing else |
| Assets.WithRoi | src/main/java/com/geektrust/backend/entities/Asset.java:50-51 | applying an ROI changes the amount only (type, SIP and ratio stay) |
| Assets.InvestTimesAddsMultiple | src/main/java/com/geektrust/backend/entities/Asset.java:44 | k SIP investments add exactly k × SIP and change nothing else |
| Assets.Asset.SetSipAmount | src/main/java/com/geektrust/backend/entities/Asset.java:35-39 | a negative SIP fails with "SIP amount cannot be negative" and changes nothing; otherwise the SIP is set exactly and nothing else changes |
| Assets.Asset.InvestSip | src/main/java/com/geektrust/backend/entities/Asset.java:44 | the asset's new value is `Invest` of its old value |
| Assets.Asset.ApplyMonthlyRoi | src/main/java/com/geektrust/backend/entities/Asset.java:47-52 | roi < -1 fails with "ROI < -100% not allowed" before changing anything; otherwise the amount becomes the floored product, clamped at 0 |
| Assets.Asset.UpdateAmount | src/main/java/com/geektrust/backend/entities/Asset.java:55-59 | a negative amount fails with "Asset amount cannot be negative" and changes nothing; otherwise the amount is set exactly |
| JavaText.TrimStart | src/main/java/com/geektrust/backend/entities/Portfolio.java:66 | everything before the returned index is blank, and the character at it is not |
| JavaText.TrimEnd | src/main/java/com/geektrust/backend/entities/Portfolio.java:66 | everything from the returned index on is blank, and the character before it is not |
| JavaText.Trim | src/main/java/com/geektrust/backend/entities/Portfolio.java:66 | the result has no blank at either end; blank-only text trims to the empty string |
| JavaText.TrimPadded | src/main/java/com/geektrust/backend/entities/Portfolio.java:66 | trimming blanks + body + blanks, for a body without padding, gives exactly the body |
| JavaText.TrimIdempotent | src/main/java/com/geektrust/backend/entities/Portfolio.java:66 | trimming twice is trimming once |
| JavaText.UpperChar | src/main/java/com/geektrust/backend/entities/Portfolio.java:66 | 'a'..'z' map to 'A'..'Z', every other character is kept, and no lower-case letter remains |
| JavaText.ToUpperCase | src/main/java/com/geektrust/backend/entities/Portfolio.java:66 | the length is kept and each character is upper-cased in place |
| JavaText.UpperOfUpper | src/main/java/com/geektrust/backend/entities/Portfolio.java:66 | text without lower-case letters is unchanged by upper-casing |
| JavaText.UpperKeepsTrimmed | src/main/java/com/geektrust/backend/entities/Portfolio.java:66 | upper-casing text without padding adds no padding |
| Months.Name | src/main/java/com/geektrust/backend/constants/Month.java:6-8 | every month's name is non-empty and made of the letters A..Z |
| Months.MonthOrdinal | src/main/java/com/geektrust/backend/constants/Month.java:6-8 | there are twelve months, and each sits at its calendar position in `values()` |
| Months.NameIsNormal | src/main/java/com/geektrust/backend/constants/Month.java:6-8 | a month's name has no padding and is already upper case |
| Months.AllListed | src/main/java/com/geektrust/backend/constants/Month.java:6-8 | every month is among `values()` |
| Months.Lookup | src/main/java/com/geektrust/backend/constants/Month.java:11 | a month that is found is listed and bears the name; when none is found, no listed month bears it |
| Months.ValueOf | src/main/java/com/geektrust/backend/constants/Month.java:11 | succeeds only with a month of exactly that name; fails only when no month has that name, with "No enum constant com.geektrust.backend.constants.Month." + name |
| Months.FromString | src/main/java/com/geektrust/backend/constants/Month.java:10-12 | succeeds exactly when the trimmed, upper-cased text is a month name, and then returns that month |
| Months.ValueOfName | src/main/java/com/geektrust/backend/constants/Month.java:11 | `valueOf(m.name())` is m for every month |
| Months.FromStringOfName | src/main/java/com/geektrust/backend/constants/Month.java:10-12 | round trip: `fromString(m.name())` is m for every month |
| Months.FromStringLenient | src/main/java/com/geektrust/backend/constants/Month.java:10-12 | surrounding blanks and letter case are ignored: any padding of any casing of a name parses to that month |
| Months.MonthOfItsName | src/main/java/com/geektrust/backend/constants/Month.java:6-8 | each name is identified by its length and its first and third letters |
| Months.NameInjective | src/main/java/com/geektrust/backend/constants/Month.java:6-8 | different months have different names |
| Portfolios.NormalizeMonthLenient | src/main/java/com/geektrust/backend/entities/Portfolio.java:65-67 | padded and differently cased spellings of a month ("january", " January ", "JANUARY") map to the same key |
| Portfolios.MonthStep | src/main/java/com/geektrust/backend/entities/Portfolio.java:32-34 | one asset's month: the ROI is applied to amount + SIP, and only the amount changes |
| Portfolios.FirstRejected | src/main/java/com/geektrust/backend/entities/Portfolio.java:30-36 | every asset before the returned position has an accepted ROI (a missing class defaults to 0.0), and the asset at it has a refused one |
| Portfolios.MonthlyChanges | src/main/java/com/geektrust/backend/entities/Portfolio.java:30-36 | only amounts change; the update passes exactly when every asset's ROI is at least -1, and otherwise fails with the ROI message |
| Portfolios.MonthlyChangesStop | src/main/java/com/geektrust/backend/entities/Portfolio.java:31-35 | a visit stopped at the first refused ROI has updated the earlier assets, added that asset's SIP and left the rest alone: the update is not atomic |
| Portfolios.MonthlyChangesDone | src/main/java/com/geektrust/backend/entities/Portfolio.java:30-36 | a visit through every asset gives `MonthlyChanges` with a pass |
| Portfolios.MonthlyChangesAccepted | src/main/java/com/geektrust/backend/entities/Portfolio.java:30-36 | when every ROI is accepted, each asset's new amount is floor((amount + SIP) × (1 + ROI)) |
| Portfolios.TargetAmount | src/main/java/com/geektrust/backend/entities/Portfolio.java:79-81 | the target is total × ratio rounded down, and never negative for non-negative inputs |
| Portfolios.RebalancedTo | src/main/java/com/geektrust/backend/entities/Portfolio.java:52-55 | each asset's amount becomes its target for the given total; nothing else changes and the order is kept |
| Portfolios.RebalancedToBounds | src/main/java/com/geektrust/backend/entities/Portfolio.java:50-57 | the rebalanced total is at most total × (sum of ratios), and less than one unit per asset below it |
| Portfolios.RebalanceNeverGrows | src/main/java/com/geektrust/backend/entities/Portfolio.java:50-57 | with ratios summing to at most 1, rebalancing never increases the total; no remainder is redistributed |
| Portfolios.RebalanceShortfall | src/main/java/com/geektrust/backend/entities/Portfolio.java:50-57 | with ratios summing to 1, the rebalanced total falls short by less than the number of assets |
| Portfolios.AfterMonthly | src/main/java/com/geektrust/backend/entities/Portfolio.java:30-36 | the monthly update changes the holdings only, as `MonthlyChanges` says; both snapshot stores are untouched |
| Portfolios.Saved | src/main/java/com/geektrust/backend/entities/Portfolio.java:39-41 | saving stores the current amounts under the normalised month (overwriting); every spelling with another key reads what it read before; the holdings and the rebalance snapshot are kept |
| Portfolios.AfterRebalance | src/main/java/com/geektrust/backend/entities/Portfolio.java:50-57 | holdings become `Rebalanced`; the monthly snapshots are kept; the last-rebalance snapshot is the new amounts |
| Portfolios.EmptySnapshots | src/main/java/com/geektrust/backend/entities/Portfolio.java:44-47 | a new portfolio reads an empty snapshot for every month and for the last rebalance; rebalancing a portfolio with no assets records an empty snapshot |
| Portfolios.Find | src/main/java/com/geektrust/backend/entities/Portfolio.java:25 | the position found holds an asset of that type and no earlier asset has it; the length of the sequence means "absent" |
| Portfolios.PutShape | src/main/java/com/geektrust/backend/entities/Portfolio.java:20-23 | put by type keeps types distinct; a known type is replaced in place (same count, others untouched); a new type is appended |
| Portfolios.FindAfterPut | src/main/java/com/geektrust/backend/entities/Portfolio.java:20-25 | after put, `getAsset` of the put type gives the new asset; every other type finds what it found before, or nothing as before |
| Portfolios.Portfolio.constructor | src/main/java/com/geektrust/backend/entities/Portfolio.java:15-17 | a new portfolio has no assets, no monthly snapshots and no rebalance snapshot |
| Portfolios.Portfolio.AddAsset | src/main/java/com/geektrust/backend/entities/Portfolio.java:20-23 | the assets become `Put(old assets, asset)`; the snapshots are untouched |
| Portfolios.Portfolio.GetAsset | src/main/java/com/geektrust/backend/entities/Portfolio.java:25 | null exactly when no asset has the type; otherwise an asset of the portfolio with that type |
| Portfolios.Portfolio.ApplyMonthlyChanges | src/main/java/com/geektrust/backend/entities/Portfolio.java:30-36 | the new state and outcome are `AfterMonthly` of the old state, including the partial update when an ROI is refused |
| Portfolios.Portfolio.SaveMonthlySnapshot | src/main/java/com/geektrust/backend/entities/Portfolio.java:39-41 | the new state is `Saved` of the old one |
| Portfolios.Portfolio.RebalanceToOriginalRatios | src/main/java/com/geektrust/backend/entities/Portfolio.java:50-57 | the new state is `AfterRebalance` of the old one; the targets use the total from before the loop |
| Portfolios.Portfolio.CreateSnapshot | src/main/java/com/geektrust/backend/entities/Portfolio.java:69-73 | the snapshot lists (type, amount) for every asset in asset order |
| Repositories.InMemoryPortfolioRepository.constructor | src/main/java/com/geektrust/backend/repositories/InMemoryPortfolioRepository.java:7 | a new store holds nothing |
| Repositories.InMemoryPortfolioRepository.Save | src/main/java/com/geektrust/backend/repositories/InMemoryPortfolioRepository.java:9-11 | `get` after `save(p)` is p itself, with no copy; a later save replaces it and `save(null)` clears it |
| Services.AllocatedHolding | src/main/java/com/geektrust/backend/services/PortfolioService.java:40-42 | the allocated asset of a class has that class, the allocated amount (0 when missing) and SIP 0 |
| Services.AllocatedShare | src/main/java/com/geektrust/backend/services/PortfolioService.java:41 | the ratio times the total is the class's amount |
| Services.AllocatedHoldings | src/main/java/com/geektrust/backend/services/PortfolioService.java:39-43 | one allocated asset per class, in enum order |
| Services.AllocateSpec | src/main/java/com/geektrust/backend/services/PortfolioService.java:32-49 | passes exactly for a positive total with no negative amount; a total <= 0 fails with "Total allocation must be positive" and a negative amount with the asset's message, both leaving the state unchanged; success leaves exactly one state, whatever came before: the portfolio holding `AllocatedHoldings` with no snapshots, no pending SIPs and SIP inactive |
| Services.AllocatedRatiosSumToOne | src/main/java/com/geektrust/backend/services/PortfolioService.java:35-43 | the allocated ratios sum to 1 and the allocated amounts to the total |
| Services.KindIndex | src/main/java/com/geektrust/backend/services/PortfolioService.java:100 | the position found holds the class and no earlier holding does |
| Services.FirstRefusedSip | src/main/java/com/geektrust/backend/services/PortfolioService.java:99-102 | no class before the returned position has a refused SIP; the class at it does |
| Services.SipsUpTo | src/main/java/com/geektrust/backend/services/PortfolioService.java:99-102 | each holding has the pending SIPs of the classes visited so far, except negative ones |
| Services.SipsApplied | src/main/java/com/geektrust/backend/services/PortfolioService.java:97-103 | the number of holdings is kept |
| Services.SipsAppliedMeaning | src/main/java/com/geektrust/backend/services/PortfolioService.java:97-103 | only SIPs change, and only for classes with a pending SIP (absent classes keep their SIP); success exactly when no present class has a negative pending SIP, and then each such asset carries its pending SIP; otherwise fails with the SIP message |
| Services.KindIndexOfAssets | src/main/java/com/geektrust/backend/services/PortfolioService.java:100 | looking up a class in the holdings finds it where `getAsset` finds the asset |
| Services.SipsUpToStop | src/main/java/com/geektrust/backend/services/PortfolioService.java:99-102 | where the SIP loop stops, the holdings and outcome are `SipsApplied` |
| Services.SipAtStep | src/main/java/com/geektrust/backend/services/PortfolioService.java:99-102 | one loop round changes only the SIP of the visited class's asset |
| Services.SipsBeforeStop | src/main/java/com/geektrust/backend/services/PortfolioService.java:99-102 | a round that is not refused stays within the first refusal |
| Services.ApplySipSpec | src/main/java/com/geektrust/backend/services/PortfolioService.java:97-103 | fails with "Portfolio not allocated" and no change when nothing is stored; otherwise the holdings become `SipsApplied` of the pending SIPs, with its outcome, and the snapshots stay; it never alters the pending SIPs or the activation flag |
| Services.SetSipSpec | src/main/java/com/geektrust/backend/services/PortfolioService.java:52-56 | the pending SIPs are replaced wholesale; before activation nothing else changes and it passes |
| Services.SetSipWhenActive | src/main/java/com/geektrust/backend/services/PortfolioService.java:52-56 | once SIP is active, `setSip` pushes the new values onto the assets: both snapshot stores stay, the holding count is kept, amounts, ratios and types stay, classes missing from the map keep their SIP, it passes exactly when no present class gets a negative SIP, and then each present class carries its new SIP; otherwise it fails with "SIP amount cannot be negative" |
| Services.ChangeSpec | src/main/java/com/geektrust/backend/services/PortfolioService.java:59-78 | without a portfolio it fails with "Portfolio not allocated" and changes nothing; the pending SIPs are never changed and a stored portfolio stays stored |
| Services.BalanceSpec | src/main/java/com/geektrust/backend/services/PortfolioService.java:81-83 | fails exactly when nothing is stored, with "Portfolio not allocated" |
| Services.RebalanceSpec | src/main/java/com/geektrust/backend/services/PortfolioService.java:86-88 | fails exactly when nothing is stored, with "Portfolio not allocated" |
| Services.ChangeRecordsMonth | src/main/java/com/geektrust/backend/services/PortfolioService.java:63-66 | after a CHANGE with accepted ROIs, BALANCE for that month reports each asset's floor((amount + SIP) × (1 + ROI)) |
| Services.FirstChangeAddsNoSip | src/main/java/com/geektrust/backend/services/PortfolioService.java:59-78 | from any prior state, after ALLOCATE and SIP the first CHANGE records the ROI alone on the allocated amounts: no SIP is added |
| Services.FirstChangeActivatesSip | src/main/java/com/geektrust/backend/services/PortfolioService.java:74-77 | after the first successful CHANGE, SIP is active and every asset of a class with a pending SIP carries it |
| Services.LaterChangeKeepsSip | src/main/java/com/geektrust/backend/services/PortfolioService.java:74-77 | once active, CHANGE keeps every asset's SIP and the pending SIPs as they are |
| Services.ChangeRebalances | src/main/java/com/geektrust/backend/services/PortfolioService.java:68-71 | in JUNE and DECEMBER REBALANCE then reports the rebalanced month's amounts; in other months it reports what it did before |
| Services.ChangeStopsOnRefusedRoi | src/main/java/com/geektrust/backend/services/PortfolioService.java:63 | a refused ROI fails CHANGE with the ROI message after the partial update: no snapshot, no rebalance, no SIP activation |
| Services.PortfolioService.constructor | src/main/java/com/geektrust/backend/services/PortfolioService.java:21-26 | a new service uses the given store, with no pending SIP and SIP inactive |
| Services.PortfolioService.EnsurePortfolio | src/main/java/com/geektrust/backend/services/PortfolioService.java:91-95 | the stored portfolio itself when there is one, otherwise "Portfolio not allocated" |
| Services.PortfolioService.Allocate | src/main/java/com/geektrust/backend/services/PortfolioService.java:32-49 | the new service state and outcome are `AllocateSpec` of the old state; on success the stored portfolio and each of its assets are new objects |
| Services.PortfolioService.SetSip | src/main/java/com/geektrust/backend/services/PortfolioService.java:52-56 | the new state and outcome are `SetSipSpec` of the old state |
| Services.PortfolioService.Change | src/main/java/com/geektrust/backend/services/PortfolioService.java:59-78 | the new state and outcome are `ChangeSpec` of the old state; the stored assets stay the same objects |
| Services.PortfolioService.ActivateSip | src/main/java/com/geektrust/backend/services/PortfolioService.java:74-77 | the flag is set, then the state is `ApplySipSpec` of it; the stored assets stay the same objects |
| Services.PortfolioService.GetBalance | src/main/java/com/geektrust/backend/services/PortfolioService.java:81-83 | the result is `BalanceSpec` of the current state |
| Services.PortfolioService.GetRebalance | src/main/java/com/geektrust/backend/services/PortfolioService.java:86-88 | the result is `RebalanceSpec` of the current state |
| Services.PortfolioService.ApplySipToAssets | src/main/java/com/geektrust/backend/services/PortfolioService.java:97-103 | the new state and outcome are `ApplySipSpec` of the old state |
| Services.BuildPortfolio | src/main/java/com/geektrust/backend/services/PortfolioService.java:33-43 | fails exactly when some class's amount is negative, with the asset's message; otherwise a new portfolio of new assets holding `AllocatedHoldings` and no snapshots |
| Services.ChangePortfolio | src/main/java/com/geektrust/backend/services/PortfolioService.java:63-71 | the outcome is the monthly update's; a failure leaves the partial update; success adds the month's snapshot and, in JUNE and DECEMBER, the rebalance |
| Services.PushSips | src/main/java/com/geektrust/backend/services/PortfolioService.java:99-102 | the new holdings and outcome are `SipsApplied` of the old holdings |
| Services.PushSip | src/main/java/com/geektrust/backend/services/PortfolioService.java:100-101 | for one class: fails exactly for a negative pending SIP of a class that has an asset; otherwise that asset's SIP is set, and every other asset is left alone |

## Left out

- The command layer (`App`, `CommandInvoker`, the `*Command` classes and `ApplicationConfig`) is not part of this model. It covers file reading, token parsing and printing. The model takes typed maps and a `Month` as input instead.
- IEEE-754 arithmetic is not modelled. Ratios and ROIs are exact `real`s, and `Math.floor` is `.Floor`. Rounding of `amount * (1 + roi)`, `amount / (double) total` and `total * ratio` is therefore idealised. NaN and infinite ROIs are not modelled.
- Java `int` overflow is not modelled. This covers the allocation total, the total value and amounts beyond 2^31 - 1; integers are unbounded.
- `getAmount`'s `(int)Math.floor(amount)` is the identity in the model. The amount is a `nat` because it only ever receives whole non-negative values.
- `JavaText.ToUpperCase`: only ASCII letters are upper-cased. The non-ASCII case mappings of `toUpperCase(Locale.ROOT)` are not modelled.
- `getAssets` and its unmodifiable view are not modelled. Nothing in the core reads it.
- `addAsset(null)` and its `NullPointerException` are not modelled. `AddAsset` takes a non-null `Asset`.
- Snapshots are values (sequences of pairs). That they are defensive copies therefore holds by construction, and no aliasing is stated. The insertion order of the `monthlySnapshots` map's keys is not modelled; only lookup by key is.
- `Services.AllocationTotal` sums over the three asset classes rather than over the map's values. These agree because the map's keys are asset classes.
- `PortfolioService.repository` is typed as the `PortfolioRepository` interface (PortfolioService.java:18). The model gives the service the one implementation, `Repositories.InMemoryPortfolioRepository`, since the model has no interface types; other implementations are not modelled.
- The service methods call module-level methods that do part of their work. `BuildPortfolio` holds the loop of `allocate`. `PushSips` and `PushSip` hold the loop of `applySipToAssets`. `ChangePortfolio` holds the portfolio steps of `change`, which has no loop. `ActivateSip` holds the SIP-activation tail of `change`. Their effect is the source's.
- `Services.SipsApplied`: its own contract states only that the number of holdings is kept. Its meaning is stated by `Services.SipsAppliedMeaning`.
- `Assets.WithRoi`: its contract states only that the amount is the one field changed. The value of the new amount is stated by `Assets.RoiAmountBounds`.
- `Assets.RoiAmount`, `Portfolios.NormalizeMonth`, `Portfolios.RateFor`, `Portfolios.Put`, `Portfolios.SnapshotOf`, `Portfolios.Total`, `Portfolios.Rebalanced`, `Portfolios.MonthlySnapshot`, `Portfolios.LastRebalancedSnapshot` and `Services.AllocationTotal` have no ensures of their own. They model Asset.java:50-51, Portfolio.java:65-67, Portfolio.java:33, Portfolio.java:22, Portfolio.java:69-73, Portfolio.java:75-77, Portfolio.java:50-57, Portfolio.java:44-47, Portfolio.java:60-62 and PortfolioService.java:35. Their properties are stated by the lemmas and specifications that use them:
  - `RoiAmountBounds`, `MonthlyChangesAccepted`;
  - `NormalizeMonthLenient`, `Saved`;
  - `FirstRejected`, `MonthlyChanges`;
  - `PutShape`, `FindAfterPut`;
  - `CreateSnapshot`, `AfterRebalance`;
  - `RebalancedToBounds`, `RebalanceNeverGrows`, `RebalanceShortfall`;
  - `EmptySnapshots`, `BalanceSpec`, `RebalanceSpec`, `ChangeRecordsMonth`, `ChangeRebalances`;
  - `AllocateSpec`, `AllocatedRatiosSumToOne`.
- `Portfolio.getMonthlySnapshot`, `Portfolio.getLastRebalancedSnapshot`, `Portfolio.totalValue` and `InMemoryPortfolioRepository.get` are functions without ensures of their own: `GetMonthlySnapshot`, `GetLastRebalancedSnapshot`, `TotalValue` and `Get`. Their behaviour is stated through `Saved`, `AfterRebalance`, `EmptySnapshots`, `RebalancedToBounds` and `Save`.
