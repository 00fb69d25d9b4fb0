# The economy of the Bandazeyna community site, in Dafny

A model of the economy behind the Bandazeyna site and its Discord bot. It lets players hold stars and shards, keep items in an inventory, trade stocks, buy from a shop, open lootboxes, take on quests, keep a daily-claim streak and climb a leaderboard. The 404 page also carries a small snake game. The model covers:

- **Escrow of items and currencies.** An item stack has an available `quantity` and a `reservedQuantity`. Stars and shards have an available balance and a reserved balance. `reserve`, `release` and `consume` move amounts between the two sides.
  - `Stacks` and `Escrow` hold the value-level operations and their laws.
  - `InventoryPart` and `Currency` are the profile methods that update a `Profile.UserProfile` in place.
  - Stars in the legacy profile are rounded to hundredths after each move (`Escrow.Legacy*`).
- **Quest progress.** An event of some quest type advances the active quests of that type. Progress is clamped at the target, the quest is marked completed and its id is reported.
  - The current rule set and the legacy rule set are both modelled.
  - `QuestDefinitions` holds the quest catalogue and the random draw of new quests.
- **Rewards** (`Rewards`, `ItemDefinitions`). The item catalogue, the cumulative weighted draw, the luck-clover weight boost, quantity resolution and `applyReward`. Each lootbox, kit and chest `open` is modelled, and so is each consumable `use`. Every `Math.random()` value is a parameter.
- **The API handlers** (`Api`). `/trade` buys and sells with a weighted-average cost basis. `/shop/buy` covers premium plans and items. `/inventory/use` opens, equips or consumes an item.
  - Each handler is a method on the profile.
  - Each method is proved equal to a function on a snapshot of the fields it changes.
- **The pages** (`Pages`):
  - which profile field the leaderboard ranks by;
  - its pagination;
  - the viewer's own rank;
  - the portfolio value and net worth on the profile pages.
- **Daily rewards** (`DailyStreak`, `DailyRewards`). The claim streak and the seven-day reward table.
- **The snake game** (`SnakeGame`). A `Game` class whose methods update the snake, the score, the food and the direction the way the page's globals are updated.

Prices, balances and weights are `real`: exact arithmetic, with `toFixed` rounding written out where the source rounds. Times are integer milliseconds since the epoch. A calendar day is a whole multiple of `24 * 60 * 60 * 1000` ms.

## Model

| member | source | states |
|---|---|---|
| Stacks.IndexOf | src/models/parts/InventoryPart.js:39 | `findIndex` on the stacks: the first stack with the id, or -1 exactly when no stack has it |
| Stacks.Lookup | src/models/parts/InventoryPart.js:27-30 | `find`: a stack comes back iff one carries the id, and the one returned is the first stack with that id |
| Stacks.Prune | src/models/parts/InventoryPart.js:54-56 | the split-out of an emptied stack: when both quantities are 0 the inventory minus exactly that stack, otherwise the inventory unchanged |
| Stacks.Deposit | src/models/parts/InventoryPart.js:39-44 | merging into the item's stack, or appending a new one, leaves the stacks of every other item as they were |
| Stacks.Withdraw | src/models/parts/InventoryPart.js:50-58 | taking from the available side leaves the stacks of every other item as they were |
| Stacks.Reserve | src/models/parts/InventoryPart.js:63-75 | moves the amount from available to reserved: available goes down by it, reserved up by it, and their sum and every other item are unchanged |
| Stacks.Release | src/models/parts/InventoryPart.js:77-89 | moves the amount back from reserved to available, keeping the sum and every other item |
| Stacks.Consume | src/models/parts/InventoryPart.js:91-105 | lowering the reserved side leaves every other item as it was |
| Stacks.CountAfterDeposit | src/models/parts/InventoryPart.js:37-46 | adding `n` raises the available count by exactly `n` and leaves the reserved count |
| Stacks.CountAfterWithdraw | src/models/parts/InventoryPart.js:48-61 | removing `n` that is available lowers the available count by exactly `n` and leaves the reserved count, even when the stack is pruned |
| Stacks.CountAfterConsume | src/models/parts/InventoryPart.js:91-105 | consuming `n` reserved lowers the reserved count by `n` and leaves the available count |
| Stacks.HasIffSomeStack | src/models/parts/InventoryPart.js:32-35 | `hasItem(id, n)` for `n > 0` holds iff some stack with the id has available quantity at least `n` |
| Stacks.OtherItemsUnchanged | src/models/parts/InventoryPart.js:37-105 | every operation, when it succeeds, leaves the stack of every other item id exactly as it was |
| Stacks.ReleaseUndoesReserve | src/models/parts/InventoryPart.js:63-89 | a reservation can always be released, and reserve then release restores the inventory exactly |
| Stacks.ConsumeAfterReserveIsWithdraw | src/models/parts/InventoryPart.js:63-105 | reserve then consume is the same as removing the amount outright |
| Stacks.WithdrawUndoesDeposit | src/models/parts/InventoryPart.js:37-61 | what was just added can be removed, and adding then removing restores an inventory without empty stacks |
| Stacks.OperationsPreserveTidy | src/models/parts/InventoryPart.js:37-105 | every successful operation keeps both fields non-negative, one stack per id and no stack with both fields zero |
| InventoryPart.CountItem | src/models/parts/InventoryPart.js:27-30 | the available quantity of the item's first stack, and 0 without one |
| InventoryPart.HasItem | src/models/parts/InventoryPart.js:32-35 | holds exactly when the available count reaches a positive quantity |
| InventoryPart.AddItemToInventory | src/models/parts/InventoryPart.js:37-46 | succeeds iff the quantity is positive; the new inventory is the deposit, and a refusal changes nothing |
| InventoryPart.RemoveItemFromInventory | src/models/parts/InventoryPart.js:48-61 | succeeds iff a positive amount is available; the new inventory is the withdrawal with the emptied stack pruned, and a refusal changes nothing |
| InventoryPart.ReserveItem | src/models/parts/InventoryPart.js:63-75 | succeeds iff a positive amount is available; the new inventory is the reservation, otherwise unchanged |
| InventoryPart.ReleaseReservedItem | src/models/parts/InventoryPart.js:77-89 | succeeds iff a positive amount is reserved; the new inventory is the release, otherwise unchanged |
| InventoryPart.ConsumeReservedItem | src/models/parts/InventoryPart.js:91-105 | succeeds iff a positive amount is reserved; the new inventory is the consumption with an emptied stack pruned, otherwise unchanged |
| Escrow.Conservation | src/models/UserProfile.js:147-197 | reserve and release keep the sum of available and reserved; consume lowers it by exactly the amount and never touches the available balance |
| Escrow.MovesPreserveNonNegative | src/models/UserProfile.js:147-197 | a guarded move of a pool with both sides non-negative leaves both sides non-negative |
| Escrow.ReleaseUndoesReserve | src/models/UserProfile.js:147-181 | a reservation can be released, and reserve then release is the identity |
| Escrow.Round2 | models/UserProfile.js:442-443 | `parseFloat(x.toFixed(2))`: a whole number of hundredths within half a hundredth of `x`, non-negative for non-negative `x` |
| Escrow.Round2OfCents | models/UserProfile.js:442-443 | rounding a whole number of hundredths leaves it unchanged |
| Escrow.LegacyAgreesOnCents | models/UserProfile.js:436-491 | on balances and amounts in whole hundredths the rounding legacy star escrow moves exactly as the current one |
| Escrow.LegacyKeepsCents | models/UserProfile.js:436-491 | the legacy star escrow leaves whole hundredths on both sides after a reserve, a release and a consume, including the reserved side that consume rounds (lines 478-482) |
| Escrow.LegacySubCentReservationVanishes | models/UserProfile.js:436-454 | reserving 0.004 stars of a balance of 1 succeeds yet changes nothing, so the reservation cannot be released |
| Currency.ReserveCurrency | src/models/UserProfile.js:147-163 | succeeds iff the currency is 'stars' or 'shards' and a positive amount is available; only the named pool changes, by the reservation |
| Currency.ReleaseReservedCurrency | src/models/UserProfile.js:165-181 | succeeds iff the currency is known and a positive amount is reserved; only the named pool changes, by the release |
| Currency.ConsumeReservedCurrency | src/models/UserProfile.js:183-197 | succeeds iff the currency is known and a positive amount is reserved; only the reserved side of the named pool goes down |
| Currency.LegacyReserveCurrency | models/UserProfile.js:436-454 | the same guards; stars are moved and both sides rounded to hundredths, shards moved exactly |
| Currency.LegacyReleaseReservedCurrency | models/UserProfile.js:456-474 | the same guards; stars are moved back and rounded, shards moved exactly |
| Currency.LegacyConsumeReservedCurrency | models/UserProfile.js:476-491 | the same guards; reserved stars go down and are rounded, reserved shards go down exactly |
| StatsPart.HasAchievement | src/models/parts/StatsPart.js:34-36 | holds iff the id is among the achievement ids of the profile |
| StatsPart.GrantAchievement | src/models/parts/StatsPart.js:38-44 | returns true iff the achievement was absent; the new list is the old one with it appended then, and unchanged otherwise |
| StatsPart.GrantLaws | src/models/parts/StatsPart.js:38-44 | after a grant the achievement is held, the old entries are a prefix, at most one entry is added, and granting again changes nothing |
| StatsPart.GrantKeepsIdsDistinct | src/models/parts/StatsPart.js:38-44 | a list without repeated ids keeps that property under a grant |
| Profile.UserProfile.constructor | src/models/UserProfile.js:46-111 | a new profile has zero balances, empty inventory, achievements, quests and portfolio, and no effects, premium or accents |
| QuestDefinitions.All | src/utils/definitions/questDefinitions.js:19-171 | the catalogue in key order: one definition per listed key, each the one the lookup returns |
| QuestDefinitions.CatalogueKeys | src/utils/definitions/questDefinitions.js:177-179 | `getQuestDefinition` answers exactly for the fifteen listed keys, and null for every other id that is not a key inherited from the object prototype |
| QuestDefinitions.CatalogueEntry | src/utils/definitions/questDefinitions.js:19-171 | every definition carries its own key as `id`, a positive target, a daily or weekly frequency and a known quest type |
| QuestDefinitions.IdsDistinct | src/utils/definitions/questDefinitions.js:19-171 | no key is listed twice |
| QuestDefinitions.Eligible | src/utils/definitions/questDefinitions.js:195-197 | the `filter`: exactly the quests of the frequency whose id is not excluded, drawn from the input |
| QuestDefinitions.SliceEnd | src/utils/definitions/questDefinitions.js:200 | where `slice(0, count)` stops: `min(count, len)` for a non-negative count, and counted back from the end for a negative one |
| QuestDefinitions.GetRandomQuests | src/utils/definitions/questDefinitions.js:194-201 | given any rearrangement of the eligible quests: a result of `SliceEnd` length, only eligible quests, and no id twice |
| QuestDefinitions.DrawOfEligible | src/utils/definitions/questDefinitions.js:199 | a rearrangement of the eligible quests has their number, only eligible quests and distinct ids |
| QuestProgress.StepQuest | src/models/UserProfile.js:207-230 | one quest under one event: id, target and claim are kept, completion implies a change, and an unchanged quest is returned as it was |
| QuestProgress.StepLeavesOtherFields | src/models/UserProfile.js:207-230 | a completed, claimed, uncatalogued or other-type quest comes back unchanged, unmodified and unreported; any other quest keeps every field but progress and completion (id, target, claim, assignment time, frequency) |
| QuestProgress.UpdateAll | src/models/UserProfile.js:199-235 | the loop over all active quests keeps their number |
| QuestProgress.StepAdvancesByIncrement | src/models/UserProfile.js:210-230 | for a quest the event applies to: modified iff the increment is positive, the new progress is the old progress plus the increment clamped at the target, and completed iff progress plus increment reaches the target |
| QuestProgress.UpdateAllAdvancesByIncrement | src/models/UserProfile.js:206-231 | in the whole update each applicable quest with a positive increment gains it (clamped at the target and then completed), and one with no positive increment is left as it was |
| QuestProgress.UpdateAllPointwise | src/models/UserProfile.js:206-231 | each quest of the result is that quest stepped on its own |
| QuestProgress.WasModifiedIff | src/models/UserProfile.js:201-234 | `wasModified` is true iff some quest was advanced; an empty list reports false |
| QuestProgress.NewlyCompletedIff | src/models/UserProfile.js:225-229 | an id is reported iff some quest with that id was completed by this event |
| QuestProgress.StepKeepsWellFormed | src/models/UserProfile.js:222-230 | progress never exceeds the target and never goes down, an advance raises it, and a completed quest is left alone |
| QuestProgress.UpdateAllKeepsWellFormed | src/models/UserProfile.js:206-231 | well-formed quests stay well formed under the whole update |
| QuestProgress.UntouchedQuestsUnchanged | src/models/UserProfile.js:206-209 | over the whole list, every completed or claimed quest, every quest without a definition and every quest of another type is left exactly as it was |
| QuestProgress.AdvanceQuest | src/models/UserProfile.js:207-230 | the loop body for one quest equals `StepQuest` |
| QuestProgress.UpdateQuestProgress | src/models/UserProfile.js:199-235 | the new quests, reported ids and `wasModified` are exactly those of `UpdateAll` on the old quests |
| QuestProgress.CurrentRulesStallQuests | src/models/UserProfile.js:211-220 | under the current rules a praise or reaction quest, or a crafting quest without criteria, never advances |
| QuestProgress.StalledQuestsInCatalogue | src/models/UserProfile.js:211-220 | six of the fifteen catalogue quests are such quests |
| QuestProgress.LegacyIncrementPositive | models/UserProfile.js:509-539 | under the legacy rules every quest type has a positive increment on an event that counts for it |
| QuestProgress.LegacyRulesAdvanceEveryQuest | models/UserProfile.js:509-550 | under the legacy rules every open catalogue quest advances on an event that counts for it |
| ItemDefinitions.FindItem | src/utils/definitions/itemDefinitions.js:765-767 | the definition with the id when there is one (the first), and none exactly when no definition has it |
| ItemDefinitions.ShopFilter | src/utils/definitions/itemDefinitions.js:768-770 | exactly the buyable definitions |
| ItemDefinitions.CraftableFilter | src/utils/definitions/itemDefinitions.js:772-774 | exactly the craftable definitions that have a recipe |
| ItemDefinitions.CatalogueShape | src/utils/definitions/itemDefinitions.js:73-763 | every entry has an id; buyable items have a price; only lootboxes and packs open, with well-formed tables; only consumables have a use; boosters last a positive time; clovers do not lower weights; no entry is the shimmering frame |
| ItemDefinitions.TablesWellFormed | src/utils/definitions/itemDefinitions.js:298-303 | every loot table is non-empty, with weights of at least 0.1, quantities of at least one and no shimmering frame |
| ItemDefinitions.NoShimmeringFrame | src/utils/definitions/itemDefinitions.js:506-512 | the catalogue has no `profile_frame_shimmering`, so the shard pouch takes the filtering branch |
| ItemDefinitions.ShopItemsAreBuyable | src/utils/definitions/itemDefinitions.js:768-770 | an id is found in the shop list iff the catalogue has a buyable definition with it |
| ItemDefinitions.CraftableItemsHaveRecipes | src/utils/definitions/itemDefinitions.js:772-774 | an id is found in the craftable list iff the catalogue has a craftable definition with a recipe for it |
| Rewards.GetRandomIntInRange | src/utils/definitions/itemDefinitions.js:27-31 | for a roll in [0, 1) the result lies in `[min, max]` |
| Rewards.GetRandomIntUniform | src/utils/definitions/itemDefinitions.js:27-31 | each value of the range comes from a roll interval of width 1/n, so every value is equally likely |
| Rewards.GetWeightedRandom | src/utils/definitions/itemDefinitions.js:33-43 | the loop that subtracts weights returns the value picked for the roll scaled by the total weight |
| Rewards.PickNoneIff | src/utils/definitions/itemDefinitions.js:36-42 | with non-negative weights nothing is picked exactly when the scaled roll reaches the total weight |
| Rewards.PickInInterval | src/utils/definitions/itemDefinitions.js:36-42 | an entry is picked for every point of its cumulative-weight interval |
| Rewards.PickFromInterval | src/utils/definitions/itemDefinitions.js:36-42 | whatever is picked is the value of the entry whose interval holds the point |
| Rewards.DrawSucceedsIffPositiveTotal | src/utils/definitions/itemDefinitions.js:33-43 | a draw with a roll in [0, 1) succeeds iff the total weight is positive |
| Rewards.Round1 | src/utils/definitions/itemDefinitions.js:312 | `parseFloat(x.toFixed(1))`: within a twentieth of `x`, non-negative for non-negative `x`, at least 0.1 from 0.1 on |
| Rewards.CloverAdjustment | src/utils/definitions/itemDefinitions.js:305-317 | the clover keeps the length, order, values and qualities; only boosted qualities of a listed box change weight, to the weight times the factor within a twentieth |
| Rewards.CloverKeepsTableWellFormed | src/utils/definitions/itemDefinitions.js:308-315 | a clover with factor at least 1 keeps a table well formed |
| Rewards.ResolveQuantityLaws | src/utils/definitions/itemDefinitions.js:322-326 | a range gives a quantity within it, a fixed quantity is kept, a missing one is 1; never below 1 |
| Rewards.CreditLaws | src/utils/definitions/itemDefinitions.js:45-70 | an item reward adds exactly its quantity of that item and nothing else; stars on a balance of hundredths add exactly; shards add; any other type changes nothing |
| Rewards.ApplyReward | src/utils/definitions/itemDefinitions.js:45-70 | the inventory, stars and shards after `applyReward` are `Credit` of the old ones |
| Rewards.ApplyRewards | src/utils/definitions/itemDefinitions.js:255 | applying rewards in a loop is `CreditAll` of them in order |
| Rewards.WithoutId | src/utils/definitions/itemDefinitions.js:511 | the `filter` keeps exactly the entries with another id |
| Rewards.PouchTableUnchanged | src/utils/definitions/itemDefinitions.js:510-512 | without the frame defined, the table holds no frame entry and a table without one is used as it is |
| Rewards.PouchTableWithFrame | src/utils/definitions/itemDefinitions.js:506-509 | with the frame defined, the table keeps its entries in order and holds the frame, added at most once |
| Rewards.OpenTable | src/utils/definitions/itemDefinitions.js:319-329 | succeeds iff the draw succeeds, returns the drawn reward and credits exactly it |
| Rewards.Open | src/utils/definitions/itemDefinitions.js:304-330 | every `open` succeeds iff `OpenRewards` gives rewards, returns them and credits exactly them |
| Rewards.DrawOneSucceeds | src/utils/definitions/itemDefinitions.js:319-326 | a well-formed table always yields exactly one reward of at least one unit (exactly one unit when fixed at 1) |
| Rewards.TableOpenSucceeds | src/utils/definitions/itemDefinitions.js:465-490 | a lootbox with a well-formed table and a clover that does not lower weights always succeeds with one reward; the fortune chest gives exactly one unit |
| Rewards.KitOpenSucceeds | src/utils/definitions/itemDefinitions.js:250-285 | kits and the weekly chest always succeed with rewards of at least one unit |
| Rewards.KitContents | src/utils/definitions/itemDefinitions.js:246-285 | the exact contents and quantity ranges of the small, medium and large kits, with the rolls that add their extra item |
| Rewards.CatalogueOpensSucceed | src/utils/definitions/itemDefinitions.js:73-763 | opening any catalogue item that opens succeeds and gives only rewards of at least one unit |
| Rewards.WeeklyBonusContents | src/utils/definitions/itemDefinitions.js:540-558 | the weekly chest gives 100-200 stars, 1-3 sparks and 3-6 fragments, then the bonus item for its roll, and a shard below 0.05 |
| Rewards.Use | src/utils/definitions/itemDefinitions.js:100-117 | a `use` succeeds iff `ApplyUse` allows it, and then sets exactly that effect; a refusal changes nothing |
| Rewards.BoostUseLaws | src/utils/definitions/itemDefinitions.js:100-117 | a started booster lasts its duration: later booster uses are refused exactly until it expires, and the clover is untouched |
| Rewards.CloverUseLaws | src/utils/definitions/itemDefinitions.js:188-198 | once a clover is active every further clover use is refused, and boosters are not affected |
| Api.FindPosition | routes/api.js:143 | the index of the first position with the ticker, or -1 exactly when none has it |
| Api.WithoutTicker | routes/api.js:197-198 | the `filter` keeps exactly the positions with another ticker |
| Api.Trade | routes/api.js:131-223 | the outcome and the new stars and portfolio are exactly `TradeSpec` of the old ones |
| Api.TradeRefusals | routes/api.js:135-192 | a refused trade changes nothing, and each refusal happens exactly under its condition: bad amount, unknown stock, too few stars, too few shares |
| Api.BuyLaws | routes/api.js:149-169 | a buy costs exactly `price * amount`, adds `amount` shares and the cost to the amount invested, opens a new position at the price, and leaves every other ticker |
| Api.SellLaws | routes/api.js:187-202 | a sale credits exactly `price * amount` and removes `amount` shares; a full sale drops the position; a partial one keeps the average and scales the amount invested by remaining over previous quantity |
| Api.SaleKeepsBasis | routes/api.js:199-202 | a partial sale keeps `totalInvested = quantity * avgBuyPrice` |
| Api.TradeKeepsCostBasis | routes/api.js:156-202 | every trade keeps quantities non-negative and `totalInvested = quantity * avgBuyPrice` for every position |
| Api.BuyThenSellRestores | routes/api.js:149-202 | buying a new ticker and selling the same amount at the same price restores stars and portfolio exactly |
| Api.WorkedTrade | routes/api.js:156-202 | from 1000 stars: buy 10 at 20, buy 10 at 30, sell 5 at 40 give 800 and {10, 20, 200}, 500 and {20, 25, 500}, 700 and {15, 25, 375} |
| Api.RequestQuantity | routes/api.js:227 | `parseInt(quantity) \|\| 1` is never 0 and is the parsed number whenever that is not 0 |
| Api.ShopBuy | routes/api.js:225-311 | the outcome and the new balances, inventory and premium status are exactly `ShopBuySpec` of the old ones |
| Api.ShopRefusals | routes/api.js:227-290 | a refused purchase changes nothing; the quantity is refused exactly when it parses as negative |
| Api.PremiumPlanLaws | routes/api.js:244-275 | a plan succeeds iff the shards cover its cost, costs exactly that, sets the permanent type with no expiry, or sets the temporary type with expiry exactly the later of now and the current expiry plus the plan's days |
| Api.ItemPurchaseLaws | routes/api.js:278-297 | an item succeeds iff both currencies cover unit price times quantity, deducts exactly that, adds the quantity to its stack and leaves other items and premium alone |
| Api.PurchasesComeFromTheList | routes/api.js:278-287 | every item bought was found in the shop list; the handler fails only on a found item without a price |
| Api.ShopSellsCatalogueItems | routes/api.js:278-297 | with the catalogue's shop list every item bought is a buyable catalogue item, and the failure never happens |
| Api.Toggle | routes/api.js:358-383 | equipping an accent that is on takes it off, and any other equips it |
| Api.OpenItem | routes/api.js:337-352 | the opening branch: removes `qty` with the result ignored, opens once, and gives `qty` back when the opening fails; the outcome and new state are `OpenSpec` of the old state |
| Api.UseConsumable | routes/api.js:395-402 | the consumable branch: the effect runs first and `qty` is removed only when it succeeds; the outcome and new state are `ActivateSpec` of the old state |
| Api.InventoryUse | routes/api.js:314-413 | the outcome and the new wallet, effects and accents are exactly `InventoryUseSpec` of the old ones |
| Api.UseOutcomes | routes/api.js:324-407 | refusals change nothing; an opening changes only the wallet and leaves the clover active; equipping changes one accent slot; an activation changes only effects and the item's stack |
| Api.EquipTwice | routes/api.js:358-383 | using a frame or background twice restores the slot when it held this accent and empties it otherwise |
| Api.UseTakesTheQuantity | routes/api.js:332-400 | with the quantity available an opening removes exactly `qty` and credits one opening, and an activation removes exactly `qty` |
| Api.OpenWithoutRemoving | routes/api.js:337-339 | holding one bronze lootbox and asking to use five opens it and still leaves the lootbox in the inventory |
| Api.CheckedUseConsumesItems | routes/api.js:332-400 | with the removal checked, every opening and activation removes exactly `qty >= 1` available items, and the handler agrees with the one as written whenever the quantity is there |
| Pages.LeaderboardField | routes/pages.js:231-263 | the step-by-step `dbField` is `SelectedField` of the sort and period queries with their defaults |
| Pages.FieldSelection | routes/pages.js:237-263 | messages and voice follow the period, 'rep' ranks by reputation, 'stars' and unknown keys by stars; different periods give different fields |
| Pages.PageNumber | routes/pages.js:233 | the page query parsed with 1 as the fallback: never 0, the parsed number whenever it is not 0, and 1 when it does not parse |
| Pages.Paging | routes/pages.js:233-235 | the page count is the ceiling of players over 50, and every rank lies on exactly one page between its start rank and the next |
| Pages.PagesAreNotEmpty | routes/pages.js:300 | every page from 1 to the page count starts at a rank some player holds |
| Pages.CountGreaterBounds | routes/pages.js:288-291 | the number of profiles above a score is at most the number of profiles, and 0 exactly when nobody scores more |
| Pages.CountGreaterMonotone | routes/pages.js:288-291 | a higher score has no more players above it |
| Pages.RankLaws | routes/pages.js:284-292 | the rank is at least 1, is 1 exactly when nobody scores more, never passes the number of profiles when the viewer is one of them, and never gets worse with a higher score |
| Pages.NotAboveItself | routes/pages.js:288-292 | a score that some profile holds has fewer profiles above it than there are profiles |
| Pages.RankOnSortedBoard | routes/pages.js:265-292 | on the board sorted by score, the viewer's rank is one more than the position of the first row not above their score |
| Pages.PortfolioValue | routes/pages.js:52-62 | the accumulating loop gives `Value`: the sum of quantity times current price, unknown tickers at 0 |
| Pages.ValueAppend | routes/pages.js:55-61 | the value of two portfolios side by side is the sum of their values |
| Pages.ValueNonNegative | routes/pages.js:55-61 | non-negative quantities and prices give a non-negative value |
| Pages.ValueAfterReplace | routes/pages.js:55-61 | replacing one position changes the value by the difference of the two positions' values |
| Pages.TradeKeepsNetWorth | routes/pages.js:101 | at the trade price, every trade leaves net worth (stars plus portfolio value) unchanged |
| Pages.TradeKeepsUniqueTickers | routes/api.js:156-202 | a portfolio with one position per ticker keeps that property under every trade |
| DailyStreak.Midnight | src/models/UserDailyStreak.js:59 | `setHours(0, 0, 0, 0)`: the start of the day holding `t`, at most a day earlier |
| DailyStreak.UserDailyStreak.constructor | src/models/UserDailyStreak.js:3-8 | a new streak is 0 with no claim |
| DailyStreak.UserDailyStreak.CanClaim | src/models/UserDailyStreak.js:32-51 | claimable iff there is no claim yet or the day has changed since it, with no wait then; otherwise the wait reaches the midnight after the last claim |
| DailyStreak.UserDailyStreak.Claim | src/models/UserDailyStreak.js:56-79 | the streak becomes `NextStreak` of the old one, the claim time becomes now, and the new streak is returned |
| DailyStreak.ClaimRules | src/models/UserDailyStreak.js:61-75 | the first claim gives 1, the next day adds 1, two or more days later restart at 1, the same day keeps the streak |
| DailyStreak.ClaimAgreesWithCanClaim | src/models/UserDailyStreak.js:32-79 | the streak stays non-negative; a claim `canClaim` allows leaves at least 1, one it refuses leaves the streak |
| DailyStreak.WaitAtMostADay | src/models/UserDailyStreak.js:38-49 | with a clock that does not run back, the wait is positive and at most one day |
| DailyStreak.ConsecutiveClaimsAdd | src/models/UserDailyStreak.js:68-69 | claiming on `n` consecutive days after a claim the day before adds `n` to the streak |
| DailyStreak.DailyClaimsCount | src/models/UserDailyStreak.js:61-75 | a first claim followed by a claim on each next day gives a streak equal to the number of claims |
| DailyRewards.TableShape | utils/dailyRewardDefinitions.js:7-15 | seven entries for days 1 to 7 in order, each with a positive quantity; exactly the item rewards name an item |
| DailyRewards.LookupByDay | utils/dailyRewardDefinitions.js:17-20 | `getDailyReward` answers exactly for days 1 to 7, with an entry of the table whose day is the one asked for (the only such entry); day 7 is one weekly bonus chest |
| SnakeGame.KeyRules | public/js/404-game.js:55-66 | the first arrow sets its direction, other keys do nothing, later arrows turn unless they reverse, and no turn reverses |
| SnakeGame.SwipeRules | public/js/404-game.js:86-104 | the first swipe sets a direction along the longer axis with its sign; later swipes keep the direction or turn the swipe's way, never reversing |
| SnakeGame.MoveLaws | public/js/404-game.js:152-155 | a move goes one box to a neighbouring cell and the opposite move comes back |
| SnakeGame.StepLaws | public/js/404-game.js:146-176 | no direction changes nothing; otherwise the head moves, eating scores and keeps the tail, and the game ends exactly when the head leaves the canvas or meets the remaining body |
| SnakeGame.InitIsWellFormed | public/js/404-game.js:16-23 | a fresh game is one segment on the canvas, of length score plus one |
| SnakeGame.StepKeepsShape | public/js/404-game.js:146-176 | a surviving step keeps the snake on the canvas, connected, without overlap and one segment longer than the score |
| SnakeGame.Collision | public/js/404-game.js:179-186 | true iff some segment is at the head's cell |
| SnakeGame.Game.constructor | public/js/404-game.js:8-13 | the globals' initial values: no snake, food, score or direction, not playing |
| SnakeGame.Game.InitGame | public/js/404-game.js:16-23 | one segment at (200, 160), the given food, score 0 and no direction |
| SnakeGame.Game.Direction | public/js/404-game.js:41-67 | ignored while not playing; otherwise the direction becomes `TurnByKey` |
| SnakeGame.Game.HandleSwipe | public/js/404-game.js:86-104 | the direction becomes `TurnBySwipe` of the swipe's offsets |
| SnakeGame.Game.TouchEnd | public/js/404-game.js:79-84 | ignored while not playing; otherwise the swipe is handled |
| SnakeGame.Game.Draw | public/js/404-game.js:146-176 | the new game state is exactly `Step` of the old one |
| SnakeGame.Game.StartGame | public/js/404-game.js:188-198 | ignored while playing; otherwise the game starts afresh and is playing |

## Left out

- Persistence and HTTP are not modelled: schemas, `findOne`/`save`, replies and `StockTransaction.create`. Each handler runs on a profile already found, as one atomic step.
- Concurrency between loading and saving a profile is not modelled.
- The "profile not found" branches are not modelled. The thrown errors, and the 500 replies they become, appear only as the `ServerError` outcome of a shop item without a price.
- JavaScript floating point is replaced by exact `real` arithmetic. `toFixed(2)` on stars and `toFixed(1)` on boosted weights are modelled exactly, as rounding to tenths or hundredths with halves away from zero, not as binary-float rounding.
- Calendar arithmetic is simplified. `setDate`, `setHours`, the local time zone and daylight saving become whole days of `24 * 60 * 60 * 1000` ms since the epoch.
- Randomness becomes parameters: every `Math.random()` roll, the quest shuffle (any rearrangement of the eligible quests) and the food position of the snake game.
- SnakeGame.Game.HandleSwipe: the touch coordinates `screenX`/`screenY` are JavaScript numbers, modelled as `int`. The swipe rules only compare the offsets' signs and magnitudes, so this changes no direction chosen.
- The food-retry loop of `generateFood` is not modelled: the food is a parameter.
- Canvas drawing, DOM handling, messages, emoji, images and display names are not modelled.
- `/trade` takes the amount as a number. Parsing the request string is not modelled.
- The `/trade` price comes from a stock lookup and is passed in as an `Option`.
- The `/shop/buy` shop list and the `/inventory/use` item definition come from routes/api.js's import of utils/itemDefinitions.js. That file is not part of this model, so both are passed in. The lemmas that name a catalogue use the catalogue of src/utils/definitions/itemDefinitions.js.
- The legacy profile's quest table, utils/questDefinitions.js, is not part of this model. The legacy rules are applied to the catalogue of src/utils/definitions/questDefinitions.js.
- The leaderboard's database queries (`countDocuments`, `sort`/`skip`/`limit`) and the formatting of the viewer's value are not modelled. The scores of the guild's profiles are a parameter.
- Pages.LeaderboardField: sort keys inherited from JavaScript's object prototype (such as 'constructor') are treated as unknown keys, which select stars. The handler would fail on them instead.
- QuestDefinitions.CatalogueKeys: a quest id naming a key inherited from JavaScript's object prototype (such as 'constructor') gets no definition in the model. `questDefinitions[questId] || null` returns the inherited member. `updateQuestProgress` skips such a quest either way, because the member has no quest type.
- ItemDefinitions.FindItem: an item id naming an inherited prototype key (such as 'constructor') gets no definition in the model, while `itemDefinitions[itemId] || null` returns the inherited member.
- Api.ShopBuy: an item id naming an inherited prototype key (such as 'constructor') is answered `ItemNotFound` with no change. The source finds `premiumPlans[itemId]` truthy and enters the premium branch: the shard check passes against `undefined`, the shards become NaN and the save fails with a server error. The stored state is unchanged in both, but the outcome differs.
- ItemDefinitions.CatalogueShape: does not prove that the catalogue's item ids are distinct, only that lookups return a definition with the requested id.
- `getQuestDefinition` only has the lemmas `CatalogueKeys` and `CatalogueEntry`; it is a lookup in a constant table.
- The `fetchProfile` default-filling migrations and the `/feedback` route are left out. They are database glue.
- StockTransaction logging is left out, because it only writes a record.

## Findings

| source | as written | input that shows it | evidently intended | confidence | as-written member | corrected member |
|---|---|---|---|---|---|---|
| src/models/UserProfile.js:211-220 | the current increment rules give 0 to PRAISE_USER, GIVE_REACTION and GET_REACTION quests and to a CRAFT_ITEM quest without `criteria.itemId`, so such a quest never progresses; six of the fifteen catalogue quests (such as `daily_praise_one` and `weekly_craft_3`) can never be completed | any `daily_praise_one` quest and a PRAISE_USER event of value 1 | every catalogue quest advances on an event that counts for it, as models/UserProfile.js:509-539 does | not executed | QuestProgress.CurrentRulesStallQuests | QuestProgress.LegacyRulesAdvanceEveryQuest |
| routes/api.js:337-339 | `/inventory/use` ignores the result of `removeItemFromInventory`, so a lootbox is opened (and a consumable used, line 397) even when fewer than the requested quantity are held | an inventory of one `lootbox_bronze`, quantity "5", all rolls 0: the box opens, 3 fragments are credited and the box stays | an opening or activation needs `qty` of the item and takes exactly that many | not executed | Api.OpenWithoutRemoving | Api.CheckedUseConsumesItems |
