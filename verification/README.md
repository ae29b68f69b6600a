# Speed Clicker: a model of the game rules

This project models the rules of an idle clicker game in Dafny. The player
builds up **speed**, which is both the score and the money, by clicking a wheel.
Speed also accrues on its own at the current **acceleration**. Acceleration
is bought with upgrades from a fixed catalog of five entries, and each
upgrade's price rises by 15% every time it is bought.

In the original program the state lives in module-level variables that DOM
event handlers change. Here it is an immutable record, `Game.GameState`
(speed, acceleration and the catalog). Each handler becomes a pure function
from one state to the next:

- `Game.Click` is the wheel button's handler.
- `Game.Purchase` is the handler of one upgrade's buy button.
- `Game.Advance` and `Game.Frame` are the accrual done in one animation frame.
- `Game.Enabled` is the enabled flag the display shows on a buy button.

Numbers are exact `real`s and owned counts are `nat`s.

Modules:

- `Powers`: natural powers of a real, for the geometric price growth.
- `Catalog`: the `Item` record, the 15% inflation factor and the five starting upgrades.
- `Game`: the state, the three operations, the enabled predicate and the laws of accrual.
- `Pricing`: pressing one buy button `n` times. It covers when all `n` purchases go through and what the price, speed and acceleration then are.
- `Play`: any sequence of clicks, purchases and frames from page load. It proves the invariant every reachable state keeps. Acceleration always equals the sum of rate times copies owned. Each price is its starting price times `1.15` per copy owned. Speed is never negative.

## Model

| member | source | states |
|---|---|---|
| Catalog.InitialItems | src/main.ts:18-58 | the catalog holds exactly five upgrades |
| Catalog.InitialItemsWellFormed | src/main.ts:18-58 | every starting upgrade is unowned and has a positive price and a positive rate; no two share a name |
| Game.Init | src/main.ts:5-58 | the game starts with zero speed, zero acceleration, the five catalog entries and nothing owned |
| Game.Click | src/main.ts:126-129 | a wheel click raises speed by exactly 1 and leaves acceleration and every upgrade unchanged |
| Game.Bought | src/main.ts:136-138 | buying an upgrade adds one owned copy and multiplies its price by 1.15, keeping name, description and rate |
| Game.Purchase | src/main.ts:132-141 | when speed >= price: speed drops by the pre-inflation price, acceleration rises by the rate, the count rises by 1 and the price is multiplied by 1.15. Otherwise the whole state is unchanged. Other upgrades are never touched |
| Game.EnabledIffPurchaseSucceeds | src/main.ts:120-134 | the display's enabled flag `!(speed < cost)` holds exactly when the purchase guard `speed >= cost` holds, and exactly when pressing that button changes the state |
| Game.PurchaseKeepsNonNegative | src/main.ts:134-138 | a purchase from non-negative speed leaves speed non-negative and never lowers a non-negative price |
| Game.Advance | src/main.ts:150 | one frame of `dt` seconds raises speed by acceleration times `dt` and changes nothing else |
| Game.Frame | src/main.ts:146-150 | a frame at timestamp `time` after `lastTime` (in milliseconds) accrues acceleration times `(time - lastTime) / 1000` |
| Game.AdvanceZero | src/main.ts:150 | a frame of zero length changes nothing |
| Game.AdvanceAdditive | src/main.ts:150 | accruing for `t1` and then `t2` seconds equals accruing once for `t1 + t2` |
| Game.AdvanceKeepsNonNegative | src/main.ts:150 | with non-negative acceleration and a forward frame, speed does not fall, so it stays non-negative |
| Game.AnimateTelescopes | src/main.ts:145-150 | any run of frames accrues exactly what one frame from the first to the last timestamp would |
| Pricing.PurchaseTimes | src/main.ts:132-141 | repeated presses keep the catalog's size |
| Pricing.RepeatedPurchaseFrame | src/main.ts:132-141 | repeated presses of one button touch no other upgrade and keep the pressed upgrade's name and description |
| Pricing.RepeatedPurchaseCount | src/main.ts:134-137 | `n` presses keep the rate, never lower the count and raise it by at most `n` |
| Pricing.RepeatedPurchaseAffordable | src/main.ts:134-138 | when speed covers the sum of the `n` successive prices, the count rises by `n`, the price becomes the starting price times 1.15^n and speed falls by that sum |
| Pricing.RepeatedPurchaseAccelerates | src/main.ts:134-137 | after any number of presses, acceleration has risen by the rate once per copy actually bought |
| Pricing.RepeatedPurchaseUnaffordable | src/main.ts:134 | when speed falls short of the sum of the `n` successive prices, fewer than `n` purchases go through |
| Pricing.RepeatedPurchase | src/main.ts:134-138 | from non-negative speed, `n` presses buy `n` copies exactly when speed covers the sum of the `n` successive prices, and then acceleration rises by `n` times the rate |
| Play.Step | src/main.ts:126-150 | every event keeps the catalog's size |
| Play.Run | src/main.ts:126-150 | any sequence of events keeps the catalog's size |
| Play.AccrualUpdate | src/main.ts:137 | replacing one upgrade changes the sum of rate times copies by the difference of that upgrade's two contributions |
| Play.AccrualAfterPurchase | src/main.ts:136-137 | one more copy of an upgrade raises the sum of rate times copies by exactly its rate, matching the `acceleration += rate` of a purchase |
| Play.BoughtTracks | src/main.ts:136-138 | after a purchase the price is still the starting price times 1.15 per copy owned |
| Play.InitConsistent | src/main.ts:5-58 | the page-load state satisfies the invariant |
| Play.ClickConsistent | src/main.ts:126-129 | a click keeps the invariant |
| Play.AdvanceConsistent | src/main.ts:146-150 | a forward frame keeps the invariant, including non-negative speed |
| Play.PurchaseConsistent | src/main.ts:132-141 | a purchase keeps the invariant, whether or not it goes through |
| Play.StepConsistent | src/main.ts:126-150 | every possible event keeps the invariant |
| Play.RunConsistent | src/main.ts:126-150 | every sequence of possible events keeps the invariant |
| Play.ConsistentObservable | src/main.ts:5-6 | in a state satisfying the invariant, speed and acceleration are non-negative and no price is below its starting price |
| Play.Reachable | src/main.ts:5-150 | every state reachable from page load satisfies the invariant, has non-negative speed and acceleration, and has no price below its starting price |
| Play.OpeningScenario | src/main.ts:18-138 | ten clicks and then buying the first upgrade leave speed 0, acceleration 0.1, one copy owned at a new price of 11.5 and the other four upgrades as they started |

## Left out

- Building the page and looking up its elements (src/main.ts:61-109) is left out. This includes deriving element ids from upgrade names. It is user-interface plumbing with no effect on the state.
- Formatting the read-outs with `toFixed(3)` and `toFixed(1)` (src/main.ts:113-121) is left out. It is presentation and depends on the host's number-to-text rounding. Only the enabled flag from line 120 is modelled, as `Game.Enabled`.
- The frame scheduling (`requestAnimationFrame`, `performance.now()`, src/main.ts:145, 153-157) is left out. It is driven by the host and never ends. `Game.Frame` takes the previous and current timestamps as parameters, and `Game.Animate` takes a finite list of timestamps.
- The icon and stylesheet imports (src/main.ts:1-2) are left out. They are assets, not logic.
- Game.Purchase: does not model IEEE-754 double rounding. `cost *= 1.15` and rates such as 0.1 are exact reals here, so the program's prices can differ from the model's in the last bits. The model's prices are exact multiples of 1.15^n.
- Game.Purchase: requires the index to name a catalog entry. In the program each buy handler closes over the index of its own entry, so an out-of-range index cannot occur.
- Game.Advance: accepts any real `dt`, as the program does. Non-negativity of speed (`Game.AdvanceKeepsNonNegative`, `Play.AdvanceConsistent`) is proved only for frames with `dt >= 0`. The program relies on host timestamps never going backwards, and `Play.Possible` states that assumption.
- Pricing.RepeatedPurchase: assumes non-negative speed and price. Both hold in every reachable state (`Play.Reachable`). With negative speed, zero presses would "buy all zero copies" even though speed does not cover the empty sum.
- Play.Possible: the model has no counterpart to NaN. In floating point, `!(speed < cost)` and `speed >= cost` differ only when a value is NaN, and no reachable state contains NaN.
