# Boniata pinata engine — a verified model

This project models the game core of Boniata, a tap-the-pinata game. It is
written in Dafny and covers:

- **Models** (`Models.dfy`, module `PinataModels`): the domain values, namely
  rarity, rewards, boosters, effects, tap events and snapshots, the session
  configuration, drop-table entries, spin bonuses and loot crates. Each comes
  with the clamping initialiser the source gives it.
- **Levels** (`Levels.dfy`, module `PinataLevels`): the clamped level
  configuration, its five preset tiers (Warm Up, Brisk, Fierce, Night Run,
  Crimson), and the level deck, a cursor over a list of levels.
- **Board** (`Board.dfy`, module `PinataBoard`): the per-session board state.
  It covers:
  - the Idle/Active session;
  - pinata health and the streak counted inside a time window;
  - the tap-power formula, with capped streak and booster bonuses;
  - critical hits;
  - the two percentage-threshold roll tables, and drops crediting coins,
    candy, keys, boosters or healing.

  The whole board is one value, `Board`, and every verb is a step function on
  it. The class `BoardState` performs the same verbs in place, and each of its
  methods is proved to move its fields exactly as its step function says.
- **Rewards** (`Rewards.dfy`, module `PinataRewards`): the weighted
  "shuffle bag" reward roller. It also covers the weighted booster pick, the
  four-band spin bonus, crate guarantees by rarity, running totals, and the
  Crimson drop table.
- **Engine** (`Engine.dfy`, module `PinataEngine`): the tap engine driving one
  board. It handles level application, the tap cooldowns, heavy taps, bursts
  that stop at the pop, guarded and unguarded drops, and ending the round when
  the pinata pops.
- **Progress** (`Progress.dfy`, module `PinataProgress`): the saved progress
  snapshot and its store (load, save, merge coins, reset, status line). The
  key-value store is a map.
- **Main screen** (`MainScreen.dfy`, module `MainScreen`): the trailing-slash
  address normaliser. It feeds the portrait-lock check made when loading
  finishes.
- **Basics** (`Basics.dfy`): an option type, min/max/clamp, the uniform draw,
  and whitespace trimming.

Randomness and the clock are explicit inputs or nondeterministic choices:

- Wall-clock times, the critical-hit roll in [0, 1] and every 1..100
  percentage roll are parameters.
- A uniform `Int.random(in: lo...hi)` draw on the board is `Between(lo, hi, u)`
  for an arbitrary natural `u`. `BetweenCovers` shows that every value of the
  range is reachable.
- In the reward system, uniform draws and the bag shuffle are nondeterministic
  choices (`:|`): any value of the range, any permutation of the bag.

Three behaviours of the code are worth knowing before reading the model:

- **A level does not reach the board.** `applyLevel` stores the level, then
  resets and restarts the board. The board keeps its own session
  configuration, so a level's health, power and crit values are never used.
  Only the level's streak window is used, to size the engine's cooldowns
  (`PinataEngine.LevelDoesNotReachBoard`).
- **The first tap on a fresh board deals 1.32.** A freshly constructed board
  already holds two preview boosters (doubleTap and frenzy), so its first
  non-critical tap deals 1.32 (`PinataBoard.FirstTapOnFreshBoard`). After
  `resetAllProgress` the boosters are gone and the first tap deals 1.02
  (`PinataBoard.FirstTapAfterReset`).
- **An empty rewards table traps.** `rollSingleReward` on a table with no
  reward entries indexes `rewards[-1]`, which traps. The model makes a
  non-empty rewards table a precondition of rolling rewards.

## Model

| member | source | states |
|---|---|---|
| Basics.Clamp | boniata/PinataRewardSystem.swift:41 | `min(max(lo, v), hi)` lies in [lo, hi], keeps an in-range value, and maps values below or above the range to the nearest bound |
| Basics.Between | boniata/PinataBoardState.swift:265 | a uniform draw from `lo...hi` always lies in the closed range |
| Basics.BetweenCovers | boniata/PinataBoardState.swift:265 | every value of the range is produced by some raw draw |
| Basics.LeadingSpaces | boniata/PinataLevelConfig.swift:40 | counts exactly the whitespace prefix: all counted characters are whitespace and the next one is not |
| Basics.TrailingStart | boniata/PinataLevelConfig.swift:40 | marks exactly the whitespace suffix: all characters after it are whitespace and the one before it is not |
| Basics.Trim | boniata/PinataLevelConfig.swift:40 | the trimmed string has no whitespace at either end, and a string without edge whitespace is unchanged (so trimming is idempotent) |
| Basics.TrimKeepsMiddle | boniata/PinataModels.swift:248 | trimming keeps one contiguous slice of the input, and everything removed before and after it is whitespace |
| PinataModels.Rarity.Raw | boniata/PinataModels.swift:7-14 | the raw values of the rarities lie in 0..4 |
| PinataModels.RarityStrictTotalOrder | boniata/PinataModels.swift:7-14 | `<` on rarities is irreflexive, transitive and total, the raw value identifies the rarity, and Common < Uncommon < Rare < Epic < Legendary |
| PinataModels.NewReward | boniata/PinataModels.swift:59-64 | the amount is `max(0, amount)`; kind and rarity are kept |
| PinataModels.NewBooster | boniata/PinataModels.swift:77-82 | the seconds are `max(1, seconds)`; kind and rarity are kept |
| PinataModels.NewEffect | boniata/PinataModels.swift:96-102 | the seconds are at least 1; kind, value and rarity are kept |
| PinataModels.NewTapEvent | boniata/PinataModels.swift:111-116 | the power is `max(0, power)`; time and crit flag are kept |
| PinataModels.NewTapSnapshot | boniata/PinataModels.swift:126-132 | each field is clamped on its own: a non-negative field is kept and a negative one becomes 0 |
| PinataModels.NewSessionConfig | boniata/PinataModels.swift:159-173 | each field is clamped on its own: tap power to at least 0.01, crit chance into [0, 1], crit multiplier to at least 1, cooldown to at least 0, streak window to at least 100, streak bonus cap to at least 0; a field already in range is kept |
| PinataModels.VividDefault | boniata/PinataModels.swift:175-184 | the default tuning is exactly (1.0, 0.08, 2.25, 30, 650, 0.65) |
| PinataModels.NewRewardChance | boniata/PinataModels.swift:204-210 | `minAmount` becomes `max(0, minAmount)`, `maxAmount` becomes `max(minAmount, maxAmount)` of the clamped minimum, `weight` becomes `max(0, weight)`; kind and rarity are kept |
| PinataModels.NewBoosterChance | boniata/PinataModels.swift:220-226 | `minSeconds` becomes `max(1, minSeconds)`, `maxSeconds` becomes `max(minSeconds, maxSeconds)` of the clamped minimum, `weight` becomes `max(0, weight)`; kind and rarity are kept |
| PinataModels.NewSpinBonus | boniata/PinataModels.swift:233-236 | multiplier is at least 1 and seconds at least 1; in-range values are kept |
| PinataModels.NewLootCrate | boniata/PinataModels.swift:246-252 | the name is trimmed of surrounding whitespace; rarity, guarantee and table are kept |
| PinataModels.ClampingIsIdempotent | boniata/PinataModels.swift:159-226 | re-applying a clamping initialiser to its own output changes nothing |
| PinataLevels.NewLevelConfig | boniata/PinataLevelConfig.swift:24-52 | each field is clamped on its own (id at least 1, health at least 5, power at least 0.05, crit chance in [0, 1], multiplier at least 1, window at least 150, the rest at least 0): an in-range field is kept and an out-of-range one becomes its bound; the title is trimmed |
| PinataLevels.OutOfRangeInputsAreCorrected | boniata/PinataLevelConfig.swift:24-52 | a level id of -3 becomes 1, a crit chance of 5.0 becomes 1.0, and every other out-of-range input is corrected to its bound |
| PinataLevels.WarmUp | boniata/PinataLevelConfig.swift:54-71 | the Warm Up record exactly: id `max(1, id)`, health 70, power 1.0, crit 0.08, multiplier 2.2, window 720, bonus cap 0.55, 1 drop, 1 slot, targets 80/18/1 |
| PinataLevels.Brisk | boniata/PinataLevelConfig.swift:72-89 | the Brisk record exactly: health 110, power 0.95, crit 0.09, multiplier 2.25, window 660, bonus cap 0.60, 2 drops, 2 slots, targets 140/28/2 |
| PinataLevels.Fierce | boniata/PinataLevelConfig.swift:90-107 | the Fierce record exactly: health 165, power 0.88, crit 0.10, multiplier 2.35, window 610, bonus cap 0.68, 3 drops, 2 slots, targets 220/42/3 |
| PinataLevels.NightRun | boniata/PinataLevelConfig.swift:108-125 | the Night Run record exactly: health 215, power 0.82, crit 0.11, multiplier 2.45, window 560, bonus cap 0.74, 4 drops, 3 slots, targets 290/60/4 |
| PinataLevels.Crimson | boniata/PinataLevelConfig.swift:126-143 | the Crimson record exactly: health 275, power 0.78, crit 0.12, multiplier 2.6, window 520, bonus cap 0.80, 5 drops, 3 slots, targets 380/78/5 |
| PinataLevels.SampleSet | boniata/PinataLevelConfig.swift:144-152 | five in-range levels with ids 1 to 5 |
| PinataLevels.SampleSetIsFirstFiveTiers | boniata/PinataLevelConfig.swift:144-152 | the sample set is level `k + 1` of a rebuilt deck for each `k`, titled Warm Up, Brisk, Fierce, Night Run, Crimson |
| PinataLevels.TierLevel | boniata/PinataLevelConfig.swift:201-213 | level `i` of a rebuilt deck has id `i`, is in range, and has the tier title chosen by `i % 5` |
| PinataLevels.AdvanceSaturates | boniata/PinataLevelConfig.swift:180-186 | advancing `k` times from `i` lands on `min(i + k, n - 1)`: the cursor never wraps |
| PinataLevels.RewindInvertsAdvance | boniata/PinataLevelConfig.swift:180-194 | rewinding stays in `[0, i]`; away from the ends, rewind undoes advance and advance undoes rewind |
| PinataLevels.LevelDeck.constructor | boniata/PinataLevelConfig.swift:159-162 | a new deck holds the sample set, with the cursor at 0 |
| PinataLevels.LevelDeck.Current | boniata/PinataLevelConfig.swift:164-170 | an empty deck yields Warm Up 1; otherwise the level at the clamped cursor, which is a member of the deck |
| PinataLevels.LevelDeck.SetIndex | boniata/PinataLevelConfig.swift:172-178 | the cursor becomes the value clamped into `[0, count - 1]`, or 0 for an empty deck |
| PinataLevels.LevelDeck.Advance | boniata/PinataLevelConfig.swift:180-186 | the cursor moves one step forward, saturating at the last level |
| PinataLevels.LevelDeck.Rewind | boniata/PinataLevelConfig.swift:188-194 | the cursor moves one step back, saturating at 0 |
| PinataLevels.LevelDeck.Rebuild | boniata/PinataLevelConfig.swift:196-218 | the deck becomes `max(1, count)` levels, where level `k + 1` is its `(k + 1) % 5` tier, and the cursor returns to 0 |
| PinataLevels.RebuildSevenThenAdvanceTen | boniata/PinataLevelConfig.swift:196-218 | rebuilding 7 levels gives Warm Up, Brisk, Fierce, Night Run, Crimson, Warm Up, Brisk, and 10 advances stop at index 6 |
| PinataBoard.StatusFor | boniata/PinataBoardState.swift:293-309 | the status is Idle exactly when the board is inactive, Popped exactly when it is active with health at most 0, and never one of the "ignored/skipped" notices |
| PinataBoard.PowerSum | boniata/PinataBoardState.swift:223-242 | the summed per-kind power bonuses are non-negative |
| PinataBoard.CritSum | boniata/PinataBoardState.swift:244-259 | the summed per-kind crit bonuses are non-negative |
| PinataBoard.PowerBonus | boniata/PinataBoardState.swift:223-242 | the booster power bonus lies in [0, 0.65] and equals the sum whenever the sum is below the cap |
| PinataBoard.CritBonus | boniata/PinataBoardState.swift:244-259 | the booster crit bonus lies in [0, 0.18] and equals the sum whenever the sum is below the cap |
| PinataBoard.BonusSumsAdditive | boniata/PinataBoardState.swift:223-259 | both bonus sums are additive over concatenated booster lists |
| PinataBoard.TapPowerBounds | boniata/PinataBoardState.swift:195-206 | tap power is at least the base power and at most `base * (1 + maxStreakBonus + 0.65)`; a crit is exactly the multiplier times the plain power, and never less |
| PinataBoard.TapPowerStreakMonotone | boniata/PinataBoardState.swift:195-206 | tap power does not decrease as the streak grows, and stays constant once the streak bonus hits its cap |
| PinataBoard.CritHitClampsChance | boniata/PinataBoardState.swift:188-193 | a chance of at most 0 never crits; a roll of 0 crits exactly when the chance is positive; a chance above 1 acts as 1 |
| PinataBoard.RollReward | boniata/PinataBoardState.swift:261-275 | the reward band for each roll range: coins 5-18 (up to 55), candy 2-8 (up to 75), keys 1-3 (up to 90), one booster (up to 97), hearts 6-18 |
| PinataBoard.RollBooster | boniata/PinataBoardState.swift:277-291 | the booster band for each roll range: doubleTap up to 45, bonusDrop up to 70, magnet up to 88, shield up to 97, frenzy above that, each with its seconds range |
| PinataBoard.RollTablesRarityMonotone | boniata/PinataBoardState.swift:261-291 | a higher roll never yields a lower rarity, in either table |
| PinataBoard.Initial | boniata/PinataBoardState.swift:35-39 | a fresh board satisfies the invariant and is Idle |
| PinataBoard.CreditTouchesOneCounter | boniata/PinataBoardState.swift:119-145 | a credited drop changes exactly one counter: coins for coins and tickets, candy, keys, one appended booster, or healing that stays within the maximum; it records the reward; nothing else changes and the invariant is kept |
| PinataBoard.TapAccounting | boniata/PinataBoardState.swift:85-117 | an active tap counts one tap, adds exactly its power-formula value (`TapDamage`) to the damage total, counts a crit exactly when it crits, continues the streak inside the window and restarts it at 1 outside, keeps `streakBest` at least the streak, deals non-negative damage `health = max(0, health - damage)`, touches no currency, and keeps the invariant |
| PinataBoard.StepPreservesInv | boniata/PinataBoardState.swift:41-158 | every verb keeps the board invariant (`0 <= health <= max`, `streak <= best`, `crits <= taps`, currencies at least 0, config in range) |
| PinataBoard.RunPreservesInv | boniata/PinataBoardState.swift:41-158 | after any sequence of verbs, health stays within [0, max] |
| PinataBoard.RunWithoutResetKeepsBests | boniata/PinataBoardState.swift:85-117 | without a reset, best streak, total taps and total damage never decrease |
| PinataBoard.IdleIgnoresPlay | boniata/PinataBoardState.swift:85-123 | on an Idle board, taps and drops change nothing but the status line |
| PinataBoard.TapsAccumulate | boniata/PinataBoardState.swift:85-117 | N taps on an active board add exactly N to `tapsTotal` and the sum of their per-tap powers (`TapDamages`) to the damage total; the board stays active; health is the start health minus the damage dealt, floored at 0 |
| PinataBoard.BoardState.constructor | boniata/PinataBoardState.swift:35-39 | a new board is the initial state: default config, full health, Idle, two preview boosters |
| PinataBoard.BoardState.StartSession | boniata/PinataBoardState.swift:41-48 | the board becomes Active, with the max health floored at 10, health clamped to the max, and the streak and timestamp cleared (specified by `StartStep`) |
| PinataBoard.BoardState.StopSession | boniata/PinataBoardState.swift:50-55 | the board becomes Idle, with the streak and timestamp cleared (specified by `StopStep`) |
| PinataBoard.BoardState.ResetAllProgress | boniata/PinataBoardState.swift:57-75 | the board becomes Idle with every counter and currency at 0, health and max at 100, no boosters, and the window taken from the config (specified by `ResetStep`) |
| PinataBoard.BoardState.ClearPlay | boniata/PinataBoardState.swift:58-65 | the activity, tap and health fields take their reset values and nothing else changes |
| PinataBoard.BoardState.ClearHoldings | boniata/PinataBoardState.swift:66-72 | currencies, boosters and last events are cleared and nothing else changes |
| PinataBoard.BoardState.ApplyDefaultConfig | boniata/PinataBoardState.swift:77-83 | the default config and its window are installed, the max becomes 100, and health is clamped to it (specified by `DefaultConfigStep`) |
| PinataBoard.BoardState.SimulateTap | boniata/PinataBoardState.swift:85-117 | the new state is `TapStep` (the streak by `StreakStep`, then crit by `CritHit` and power by `TapPower` in `HitStep`; see `TapAccounting`), and the invariant is kept |
| PinataBoard.BoardState.AdvanceStreak | boniata/PinataBoardState.swift:91-105 | the streak continues inside the window or restarts at 1, the best streak is raised to it, and one tap and the time are recorded (specified by `StreakStep`) |
| PinataBoard.BoardState.Hit | boniata/PinataBoardState.swift:107-116 | a crit is counted, the damage is applied, and the tap event is recorded (specified by `HitStep`) |
| PinataBoard.BoardState.SimulateDrop | boniata/PinataBoardState.swift:119-145 | an Idle board only notes the skip; an active one is credited the rolled reward (see `CreditTouchesOneCounter`) (specified by `DropStep`) |
| PinataBoard.BoardState.CreditReward | boniata/PinataBoardState.swift:126-142 | the reward is credited to the counter its kind names (specified by `Credit`) |
| PinataBoard.BoardState.RefillPinata | boniata/PinataBoardState.swift:147-152 | health is restored to the max, and the streak and timestamp are cleared (specified by `RefillStep`) |
| PinataBoard.BoardState.DrainPinata | boniata/PinataBoardState.swift:154-158 | health becomes 0 and the streak is cleared (specified by `DrainStep`) |
| PinataBoard.BoardState.Snapshot | boniata/PinataBoardState.swift:160-169 | the snapshot is in range and copies taps, damage, crits and best streak |
| PinataBoard.BoardState.RollCritical | boniata/PinataBoardState.swift:188-193 | crits exactly when the roll is below the clamped base-plus-booster chance (specified by `CritHit`) |
| PinataBoard.BoardState.ComputeTapPower | boniata/PinataBoardState.swift:195-206 | computes the power formula with the current streak and booster bonus (specified by `TapPower`) |
| PinataBoard.BoardState.ApplyDamage | boniata/PinataBoardState.swift:208-216 | total damage grows by `max(0, v)`, health becomes `max(0, health - dmg)`, and the status becomes Popped at 0 |
| PinataBoard.BoardState.HealPinata | boniata/PinataBoardState.swift:218-221 | health becomes `min(max, health + max(0, v))` |
| PinataBoard.BoardState.CurrentPowerBonus | boniata/PinataBoardState.swift:223-242 | the loop computes the capped power bonus of the active boosters |
| PinataBoard.BoardState.CurrentCritBonus | boniata/PinataBoardState.swift:244-259 | the loop computes the capped crit bonus of the active boosters |
| PinataBoard.FirstTapAfterReset | boniata/PinataBoardState.swift:57-117 | after reset and start, a first non-crit tap deals 1.02, leaving 98.98 health |
| PinataBoard.FirstTapOnFreshBoard | boniata/PinataBoardState.swift:35-39 | on a fresh board, the preview boosters make the first non-crit tap deal 1.32, leaving 98.68 health |
| PinataRewards.RepeatCount | boniata/PinataRewardSystem.swift:113-115 | `w` appended copies of an index contain that index exactly `w` times and nothing else |
| PinataRewards.CopiesCount | boniata/PinataRewardSystem.swift:110-116 | the weighted list holds index `x` exactly `max(0, weight[x])` times, and its length is the sum of the positive weights |
| PinataRewards.CopiesAreIndices | boniata/PinataRewardSystem.swift:110-116 | every entry of the weighted list is a valid index with positive weight |
| PinataRewards.CopiesEmpty | boniata/PinataRewardSystem.swift:118-120 | the weighted list is empty exactly when no weight is positive |
| PinataRewards.BuildWeighted | boniata/PinataRewardSystem.swift:110-116 | the nested loops, which skip zero weights, produce the weighted list |
| PinataRewards.BagIsFair | boniata/PinataRewardSystem.swift:107-123 | when some weight is positive, the bag holds index `j` exactly `weight[j]` times and its size is the sum of the weights; otherwise it is ten zeros |
| PinataRewards.BagIndices | boniata/PinataRewardSystem.swift:107-123 | every index in the bag is below `max(1, count)` |
| PinataRewards.BoosterPoolIsFair | boniata/PinataRewardSystem.swift:152-165 | the booster pool holds only valid indices and is never empty for a non-empty list; with a positive weight somewhere, index `j` appears `weight[j]` times and zero weights never appear |
| PinataRewards.FallbackBooster | boniata/PinataRewardSystem.swift:148-150 | an empty booster list yields bonusDrop, 10 s, Uncommon |
| PinataRewards.RewardOf | boniata/PinataRewardSystem.swift:136-143 | the reward has the entry's kind and rarity, and an amount within its range |
| PinataRewards.BoosterOf | boniata/PinataRewardSystem.swift:170-177 | the booster has the entry's kind and rarity, and seconds within its range |
| PinataRewards.PickWeighted | boniata/PinataRewardSystem.swift:152-168 | the pick is a valid index, and has positive weight unless every weight is zero |
| PinataRewards.Credited | boniata/PinataRewardSystem.swift:180-195 | coins and tickets add to coins, candy to candy, keys to keys; boosters and hearts leave the totals alone |
| PinataRewards.CreditedAllSums | boniata/PinataRewardSystem.swift:45-49 | a bundle adds the sum of its coin and ticket amounts to coins, and never lowers a total when amounts are non-negative |
| PinataRewards.CreditedAllSnoc | boniata/PinataRewardSystem.swift:45-49 | crediting a bundle plus one reward is crediting the bundle, then the reward |
| PinataRewards.CreditedAllAppend | boniata/PinataRewardSystem.swift:45-49 | crediting two bundles in turn is crediting their concatenation |
| PinataRewards.SpinFor | boniata/PinataRewardSystem.swift:69-83 | the spin bands are ×1.25/10 s (up to 55), ×1.5/9 s (up to 80), ×1.75/8 s (up to 93), ×2.0/7 s |
| PinataRewards.SpinMonotone | boniata/PinataRewardSystem.swift:69-83 | a higher roll gives at least the multiplier and at most the seconds, trading one for the other strictly |
| PinataRewards.GuaranteedFor | boniata/PinataRewardSystem.swift:86-93 | keys exactly from Epic up, candy exactly for Rare, nothing exactly below Rare |
| PinataRewards.CrimsonTable | boniata/PinataRewardSystem.swift:199-217 | the Crimson table has five reward entries and five booster entries, all in range |
| PinataRewards.CrimsonWeightsArePercentages | boniata/PinataRewardSystem.swift:199-217 | both Crimson weight columns sum to 100 |
| PinataRewards.CrimsonBagHoldsOneHundred | boniata/PinataRewardSystem.swift:107-123 | the Crimson bag has 100 entries, 52 of them coins |
| PinataRewards.RewardSystem.constructor | boniata/PinataRewardSystem.swift:20-23 | a new system uses the Crimson table, holds a fresh bag, and has no results and zero totals |
| PinataRewards.RewardSystem.SetTable | boniata/PinataRewardSystem.swift:25-28 | the table is replaced and the bag refilled for it |
| PinataRewards.RewardSystem.ResetAll | boniata/PinataRewardSystem.swift:30-38 | last results and totals are cleared and the bag is refilled |
| PinataRewards.RewardSystem.ClearResults | boniata/PinataRewardSystem.swift:31-36 | last results are cleared and totals are set to 0 |
| PinataRewards.RewardSystem.RollBundle | boniata/PinataRewardSystem.swift:40-53 | returns and records `clamp(count, 1, 8)` rewards; the k-th reward comes from the table entry of the k-th index pulled from the bag (`idxs`); while the bag lasts, those indices are its last entries taken from the end and appended to the drawn indices, so a bundle is part of the bag's fair cycle; the totals grow by exactly their credit |
| PinataRewards.RewardSystem.RollRewards | boniata/PinataRewardSystem.swift:45-49 | `c` rounds of the loop: `c` rewards, each from the entry of its pulled index, the bag pulled from the end while it lasts, and the totals credited with every reward in order |
| PinataRewards.RewardSystem.RollAndCredit | boniata/PinataRewardSystem.swift:46-48 | one reward comes from the table entry of the index just pulled; that index is taken from the end of the bag and appended to the drawn indices, or starts a new cycle after an automatic refill; the reward is credited to the totals |
| PinataRewards.PulledFromEndSnoc | boniata/PinataRewardSystem.swift:125-130 | one more pull from the end of the bag extends a run of pulls from the end of the bag the run started with |
| PinataRewards.RewardSystem.RollBoosterBundle | boniata/PinataRewardSystem.swift:55-67 | returns and records `clamp(count, 1, 4)` boosters, each one the booster list offers |
| PinataRewards.RewardSystem.RollSpinBonus | boniata/PinataRewardSystem.swift:69-83 | the spin is the band of the roll and is recorded as the last spin |
| PinataRewards.RewardSystem.RollCrate | boniata/PinataRewardSystem.swift:85-103 | the crate has the trimmed name, the rarity, the current table, and a guarantee exactly from Rare up |
| PinataRewards.RewardSystem.RefillBag | boniata/PinataRewardSystem.swift:107-123 | the bag becomes a permutation of the weighted indices (or ten zeros), and a new cycle starts |
| PinataRewards.RewardSystem.PullIndex | boniata/PinataRewardSystem.swift:125-130 | the index is removed from the end of the bag and appended to the drawn indices; on an empty bag a fresh fill is made first, and the drawn indices restart with this one; the index is valid for the table |
| PinataRewards.RewardSystem.RollSingleReward | boniata/PinataRewardSystem.swift:132-144 | the reward comes from the table entry of the index just drawn; the index (returned as ghost `idx`) is taken from the end of the bag and appended to the drawn indices, or starts a new cycle after an automatic refill |
| PinataRewards.RewardSystem.RollSingleBooster | boniata/PinataRewardSystem.swift:146-178 | the booster is the fallback for an empty list, otherwise from an entry with positive weight (any entry if all weights are zero) |
| PinataRewards.RewardSystem.ApplyRewardToTotals | boniata/PinataRewardSystem.swift:180-195 | the totals are credited as `Credited` says |
| PinataRewards.FullCycleIsFair | boniata/PinataRewardSystem.swift:107-130 | once a bag cycle is used up, each reward index has been drawn exactly `weight` times in that cycle |
| PinataEngine.EndIfPopped | boniata/PinataTapEngine.swift:49-51 | a popped board ends up inactive; health is unchanged; an unpopped board is untouched |
| PinataEngine.TapRespectsCooldown | boniata/PinataTapEngine.swift:38-52 | a tap inside `window/1000 * 0.15` s of the last accepted tap is dropped; otherwise exactly one board tap is made and its time recorded, the round is over exactly when the pinata is popped, and the invariant holds |
| PinataEngine.HeavyTapCounts | boniata/PinataTapEngine.swift:54-72 | an accepted heavy tap makes two board taps when the multiplier exceeds 1 and one otherwise; the round is over exactly when popped; the heavy cooldown is the longer one |
| PinataEngine.BurstRunCounts | boniata/PinataTapEngine.swift:77-81 | a burst makes between 1 and `c` taps, exactly `c` unless it popped the pinata, and keeps the invariant |
| PinataEngine.BurstEndsPoppedRound | boniata/PinataTapEngine.swift:74-86 | after a burst the round is over exactly when popped, and between 1 and `clamp(count, 1, 8)` taps were made |
| PinataEngine.LevelDoesNotReachBoard | boniata/PinataTapEngine.swift:32-36 | applying any two levels gives the same board (Active, full health 100, no taps, board config kept); the level is only stored and the last tap time kept |
| PinataEngine.RestartStartsFreshRound | boniata/PinataTapEngine.swift:97-100 | after a reset and start the board is Active and Live, with every counter and currency 0, health and maximum health 100, no boosters and no last tap or reward; the session config is kept and the invariant holds |
| PinataEngine.IdleEngineIgnoresTaps | boniata/PinataTapEngine.swift:38-86 | while Idle, `tap`, `heavyTap` and `burst` leave the whole engine unchanged |
| PinataEngine.IdleDropsDiffer | boniata/PinataTapEngine.swift:88-108 | while Idle, `dropBonus` changes nothing, whereas the inject verbs still record the skipped drop |
| PinataEngine.TapEngine.Default | boniata/PinataTapEngine.swift:14-18 | a new engine at Warm Up 1 with a fresh board, reset and started |
| PinataEngine.TapEngine.WithLevel | boniata/PinataTapEngine.swift:20-24 | a new engine at the given level with a fresh board, reset and started |
| PinataEngine.TapEngine.WithState | boniata/PinataTapEngine.swift:26-30 | an engine over the given board, which is reset and started |
| PinataEngine.TapEngine.ApplyLevel | boniata/PinataTapEngine.swift:32-36 | the level is stored and the board is reset and then started (specified by `ApplyLevelStep`) |
| PinataEngine.TapEngine.Tap | boniata/PinataTapEngine.swift:38-52 | the engine moves as `TapEngineStep` says, with the cooldown given by `Cooldown` (see `TapRespectsCooldown`) |
| PinataEngine.TapEngine.HeavyTap | boniata/PinataTapEngine.swift:54-72 | the engine moves as `HeavyTapStep` says (see `HeavyTapCounts`) |
| PinataEngine.TapEngine.Burst | boniata/PinataTapEngine.swift:74-86 | the loop with its early break moves the engine as `BurstStep`, over `BurstRun`, says (see `BurstEndsPoppedRound`) |
| PinataEngine.TapEngine.DropBonus | boniata/PinataTapEngine.swift:88-91 | a drop happens only while Active (specified by `DropBonusStep`) |
| PinataEngine.TapEngine.EndRound | boniata/PinataTapEngine.swift:93-95 | the board's session is stopped |
| PinataEngine.TapEngine.Restart | boniata/PinataTapEngine.swift:97-100 | the board is reset and started (specified by `StartStep(ResetStep(..))`, whose fresh round `RestartStartsFreshRound` states); the level and last tap time are kept |
| PinataEngine.TapEngine.InjectReward | boniata/PinataTapEngine.swift:102-104 | an unguarded drop happens; the reward passed in is not used (specified by `InjectStep`) |
| PinataEngine.TapEngine.InjectBooster | boniata/PinataTapEngine.swift:106-108 | an unguarded drop happens; the booster passed in is not used (specified by `InjectStep`) |
| PinataEngine.CooldownScenario | boniata/PinataTapEngine.swift:38-52 | at Warm Up (720 ms window, so a 108 ms tap cooldown), taps at 0, 50 and 200 ms count 2 board taps: the middle one is dropped, and the third continues the streak to 2 |
| PinataProgress.NewSnapshot | boniata/PinataProgressStore.swift:18-36 | each field is clamped on its own: counts, damage and save time to at least 0, the level id to at least 1; a field in range is kept |
| PinataProgress.Fresh | boniata/PinataProgressStore.swift:38-49 | the fresh snapshot is all zeros with level id 1 |
| PinataProgress.StatusOf | boniata/PinataProgressStore.swift:132-143 | the status is "Empty" exactly when never saved (`lastSavedAt <= 0`); otherwise it shows coins, keys and best streak |
| PinataProgress.Loaded | boniata/PinataProgressStore.swift:63-79 | a missing or undecodable entry loads as fresh; a decodable one loads as stored |
| PinataProgress.SaveThenLoad | boniata/PinataProgressStore.swift:81-130 | what is saved loads back equal; after a reset, loading gives fresh; other keys are untouched |
| PinataProgress.SaveCopiesBoard | boniata/PinataProgressStore.swift:81-96 | a save copies the board's coins, candy, keys, best streak, taps and damage, plus the clamped level id and the time |
| PinataProgress.MergeTouchesOnlyCoins | boniata/PinataProgressStore.swift:98-113 | merging adds `max(0, add)` to coins, moves the save time, and changes nothing else |
| PinataProgress.StatusAfterSave | boniata/PinataProgressStore.swift:81-143 | fresh reads "Empty"; a snapshot saved at a positive time does not |
| PinataProgress.ProgressStore.constructor | boniata/PinataProgressStore.swift:58-61 | a new store loads from the key-value store |
| PinataProgress.ProgressStore.Load | boniata/PinataProgressStore.swift:63-79 | the snapshot becomes `Loaded(store)`, and the status follows it |
| PinataProgress.ProgressStore.Save | boniata/PinataProgressStore.swift:81-96 | the snapshot is taken from the board and persisted under the progress key |
| PinataProgress.ProgressStore.MergeCoins | boniata/PinataProgressStore.swift:98-113 | the merged snapshot is persisted under the progress key |
| PinataProgress.ProgressStore.ResetAll | boniata/PinataProgressStore.swift:115-119 | the snapshot becomes fresh, the key is removed, and the status is "Empty" |
| PinataProgress.ProgressStore.Persist | boniata/PinataProgressStore.swift:123-130 | the encoded value is stored under the progress key |
| PinataProgress.ProgressStore.RefreshStatus | boniata/PinataProgressStore.swift:132-143 | the status line matches the snapshot |
| PinataProgress.SaveThenReopen | boniata/PinataProgressStore.swift:58-96 | saving and then opening a new store on the same key-value store gives back the board's totals with a summary status |
| MainScreen.Normalized | boniata/BoniataMainScreen.swift:50-56 | the loop removes exactly the trailing slashes while more than one character is left: the result is a prefix, only slashes were removed, and it is non-empty for non-empty input |
| MainScreen.TrimmedIsTrimOf | boniata/BoniataMainScreen.swift:50-56 | the recursive definition meets that description |
| MainScreen.TrimOfIsUnique | boniata/BoniataMainScreen.swift:50-56 | at most one string meets it, so the description determines `normalized` |
| MainScreen.TrimmedShape | boniata/BoniataMainScreen.swift:50-56 | the result is a prefix and ends in '/' only if it is "/"; "" and "/" are unchanged; normalising is idempotent |
| MainScreen.TrailingSlashIgnored | boniata/BoniataMainScreen.swift:50-56 | one more trailing slash on a non-empty string normalises away |
| MainScreen.FinishLoading | boniata/BoniataMainScreen.swift:64-73 | portrait is locked exactly when a current address exists and normalises to the entry address |
| MainScreen.LockExamples | boniata/BoniataMainScreen.swift:64-73 | the entry address, with or without a trailing slash, locks portrait; a missing address never does |

## Left out

- Identity fields (`id: UUID`) of rewards, boosters, effects, tap events and crates: the values are plain data here.
- `PinataSkin` and the display titles (`title`, `displayName`): presentation only.
- `Double` is modelled as exact `real`. Rounding, NaN and infinity are not modelled, and nor is the `Int(pinataHealth.rounded())` of the status text.
- Swift `Int` overflow (a trap on arithmetic overflow) is not modelled: integers are unbounded.
- The status lines are modelled by their branch (Idle / Popped / Live / ignored / skipped, or Empty / Summary), not as formatted text.
- `Date()` is a parameter. The engine's clock reading and the board's own reading inside `simulateTap` are taken as the same instant.
- `Int.random`, `Double.random` and `shuffle()`:
  - on the board they are explicit parameters (a roll, a crit roll, a draw mapped into the range);
  - in the reward system they are nondeterministic choices;
  - the spin roll is a parameter.
- `Combine`, `@Published`, `ObservableObject` and `@MainActor`: change notification and threading are not modelled; every operation runs to completion.
- JSON encoding and decoding of the progress snapshot: a stored entry is either an encoded snapshot or undecodable data. `persist`'s encode-failure branch (which removes the key) is not modelled, because encoding fails only for non-finite doubles, which the real model excludes.
- Decoding does not re-run the `Snapshot` initialiser in the source, so a tampered entry can load out of range. The model keeps this: `Loaded` returns the stored value as is.
- Whitespace trimming covers space, tab, line feed and carriage return, not the full Unicode whitespace set. Strings are sequences of characters, not grapheme clusters; this matters for `count` in `normalized`.
- The SwiftUI view, the loading screen, the delayed dispatch in `finishLoading` and the orientation manager: only the decision `normalized(current) == normalized(base)` is modelled. The copy of `normalized` in boniata/BoniataStageView.swift:93-99 is the same function.
- PinataRewards.RewardSystem.RollBundle: requires a non-empty rewards table. With an empty one, the source indexes `rewards[-1]` and traps.
- PinataRewards.RewardSystem.RollSingleReward: same precondition, for the same reason.
- PinataRewards.RewardSystem.SetTable: requires every entry of the new table to be in range, as the clamping initialisers leave it. `DropTable` is `Codable`, so a decoded table can hold `minAmount > maxAmount`; the source then traps in `Int.random` when it rolls that entry. The model does not cover such a table.
- PinataRewards.RewardSystem.Valid does not include the running totals. They start at 0 and only grow with non-negative amounts (`CreditedAllSums`), but the totals are not part of the class invariant.
- PinataEngine.TapEngine.Burst: the random inputs of the burst's taps are a function from tap number to input, because the number of taps is only known as the burst runs.
- Active boosters never expire in the source; the model keeps them forever too.
