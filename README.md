# Night City Hustler — a verified model of the game core

Night City Hustler is a browser clicker game whose whole logic lives in one
`Game` class (`game.js`). The player earns €$ by clicking ("hustling"). They
spend it on three repeatable upgrades (Street Cred, Data Mining Rig,
Netrunner Contact) and on five skills (Body, Reflexes, Technical,
Intelligence, Cool). Upgrades and skills raise the click power or the passive
income per second. A timer adds passive income. A catalog of 520 threshold
achievements is checked after every display refresh. The state is saved to
and loaded from browser storage, with an offline catch-up on load.

This project models that core in Dafny:

- `numbers.dfy` (module `Numbers`): exact-real `Math.pow` with an integer
  exponent, and the `Math.floor(c * g^i)` shape of every cost and of every
  geometric threshold, with its monotonicity lemmas.
- `strings.dfy` (module `Strings`): the string operations the catalog ids and
  the achievement conditions use. These are the decimal rendering of a tier
  number, `toLowerCase().replace(/\s+/g, '_')`, and the case-sensitive
  `includes`.
- `economy.dfy` (module `Economy`): the state datatype and the upgrade
  configurations. It holds the two cost formulas and the pure state changes
  of a click, a skill purchase, an upgrade purchase and the tick's accrual.
  It also holds the `updateDisplay` affordability pass and `upgrades.find`.
- `achievements.dfy` (module `Achievements`): the three family builders, the
  eleven families, the flattened catalog, the `Holds` predicate that replaces
  the condition closures, and the unlock pass. It proves the catalog's size,
  its distinct ids, its id forms, its non-decreasing thresholds and what each
  kind of condition reads.
- `persistence.dfy` (module `Persistence`): the save snapshot, the load with
  its merge-by-id and its offline catch-up, and the save/load round trip.
- `game.dfy` (module `GameModel`): the `Game` class with the source's fields.
  The upgrades are an `array` that purchases update in place and a load
  replaces. Each method is proved against the pure state functions through
  `Abs()`.
- `scenarios.dfy` (module `Scenarios`): two worked runs from a fresh game.
- `options.dfy` (module `Options`): the `Option` datatype.

The model follows the code as written:

- The live tick does not clamp a negative elapsed time
  (`game.js:426-427`). `Economy.AccrualWithClockBackwards` shows money then
  falls.
- No evaluation throttle exists. The unlock pass runs on every display
  refresh (`game.js:371`).
- No per-predicate exception handling exists. A skill condition on a missing
  key, or an ownership condition on a missing upgrade, is simply false.
- The catalog has exactly the 520 entries built at `game.js:100-127`. There
  are no all-skills, paired-skill or alternative money families.
- A malformed save is not replaced by a fresh state. Scalars and the skills
  object are taken from the save wholesale.
- The three threshold families choose their field with
  `criterion.includes('Click')` and `criterion.includes('Passive')`. The
  search is case-sensitive and the criteria are written in lower case, so all
  three compare money. The model keeps this behaviour; see
  `Achievements.TierFamiliesCompareMoney`.

## Model

| member | source | states |
|---|---|---|
| Numbers.Power | game.js:172 | `Math.pow` with a positive base is always positive |
| Numbers.ScaledFloorMonotone | game.js:102-111 | floor(c·g^i) never decreases in i when c ≥ 0 and g ≥ 1 |
| Numbers.ScaledFloorIncreasing | game.js:316-318 | floor(c·g^i) strictly increases in i when the first step c·(g−1) is at least one |
| Strings.Decimal | game.js:71 | the `${index + 1}` rendering (also at lines 84 and 93) is a non-empty run of decimal digits; `DecimalRoundTrip` is its inverse |
| Strings.Slug | game.js:71 | `toLowerCase().replace(/\s+/g, '_')` leaves no whitespace and never lengthens the title |
| Strings.DecimalRoundTrip | game.js:71 | the rendering of a tier number reads back as that number |
| Strings.TierIdsDistinct | game.js:71 | two different tier numbers under one stem give different ids |
| Strings.PrefixedIdsDistinct | game.js:84 | ids built on different stems never collide, whatever their numbers |
| Strings.TwoWordSlug | game.js:71 | the slug of "Word Word" is the lower-cased words joined by `_` |
| Strings.Contains | game.js:74-76 | the case-sensitive `includes`: the empty needle is always found, and a found needle is never longer than the text |
| Strings.MissingFirstCharNotContained | game.js:74-76 | `includes` fails when the needle's first character never occurs in the text |
| Strings.ContainedAt | game.js:74-76 | `includes` succeeds when the needle occurs at some position |
| Economy.InitialUpgrades | game.js:51-55 | one record per configuration, in order, with count 0 and flag false |
| Economy.UpgradeCost | game.js:316-318 | an upgrade's price is never negative |
| Economy.SkillCost | game.js:171-173 | a skill level's price is never negative |
| Economy.SkillCostExamples | game.js:171-173 | levels 1, 2 and 3 cost 50, 90 and 162 |
| Economy.SkillCostIncreasing | game.js:171-173 | from level 1 on, each level costs strictly more than the one before |
| Economy.UpgradeCostIncreasing | game.js:316-318 | for each configured upgrade, each purchase makes the next one strictly dearer |
| Economy.AfterClick | game.js:296-297 | a click raises money by exactly the click power and changes nothing else |
| Economy.AfterSkillPurchase | game.js:175-202 | a skill purchase that cannot be made changes nothing; from non-negative money, money ends between zero and its old amount; the upgrades, clock and unlocked set are left alone |
| Economy.AfterUpgradePurchase | game.js:320-325 | an upgrade purchase that cannot be made changes nothing; otherwise the list keeps its length and configurations, no count goes down, and skills, clock and unlocked set are untouched |
| Economy.AfterAccrual | game.js:425-428 | the accrual adds passive income × (now − lastUpdate)/1000 to money, unclamped, moves the clock to `now` and touches nothing else; money never falls when time went forward and income is non-negative |
| Economy.TicksCompose | game.js:425-428 | two ticks, at t1 and then t2, accrue exactly what one tick at t2 does: the earnings do not depend on how often the timer fires |
| Economy.SkillPurchaseNoOp | game.js:175-179 | an unaffordable skill, or a key with no level, leaves the state unchanged |
| Economy.SkillPurchaseEffect | game.js:179-202 | an affordable skill costs exactly its price, gains one level, adds its gains once, and nothing else changes |
| Economy.SkillEffect | game.js:184-202 | the `switch` never lowers click power or passive income, and adds something exactly for the five level keys |
| Economy.CanBuySkill | game.js:176-179 | a skill can be bought only when its level key exists and money is non-negative; a missing key makes the price NaN and the comparison false |
| Economy.ApplyEffect | game.js:30-46 | the `applyEffect` closures (applied at line 325) add the effect's click gain and passive gain and change nothing else |
| Economy.SkillEffectTable | game.js:184-202 | the click/passive gains of the five skills: 0.5/0, 0/0.2, 0.3/0.1, 0/0.3, 0.2/0.2 |
| Economy.UpgradePurchaseNoOp | game.js:320-322 | an unaffordable upgrade leaves the state unchanged |
| Economy.UpgradePurchaseEffect | game.js:320-325 | an affordable upgrade costs exactly its price, counts one more purchase of that upgrade only, and applies its effect once |
| Economy.ActionsKeepSane | game.js:296-329 | clicks (line 297), purchases guarded by their price (lines 179-180 and 321-323) and forward ticks (line 427) keep money ≥ 0, click power ≥ 1 and passive income ≥ 0 |
| Economy.AccrualWithClockBackwards | game.js:426-427 | with a clock that went backwards and positive passive income, a tick takes money away |
| Economy.RepeatedSkillPurchases | game.js:175-202 | n affordable purchases of one skill pay each level's own price, raise the level by n and add n times its gains |
| Economy.RepeatedUpgradePurchases | game.js:320-325 | n affordable purchases of one upgrade pay each purchase's own price, add n to its count and apply its effect n times |
| Economy.RefreshCache | game.js:360-366 | the affordability pass keeps the list's length, and every configuration and count |
| Economy.RefreshCacheFixesFirstStale | game.js:360-366 | the `some` pass corrects exactly the first stale flag, and reports a flip exactly when there is one |
| Economy.RefreshCacheOutcome | game.js:360-366 | the pass reports true iff some flag was stale; flags up to the first stale one end up right; later flags keep their old values |
| Economy.FindUpgrade | game.js:87 | the result is the first upgrade in the list carrying the id; none is found only when no upgrade carries it |
| Economy.FindUpgradeAt | game.js:87 | in a well-formed list, the search for a configured id finds the upgrade at that configuration's position |
| Economy.FindUpgradeSeesIdsAndCounts | game.js:87 | lists that agree on configurations and counts give the same search answer and count |
| Achievements.CreateTiers | game.js:69-80 | one entry per threshold, in order, each carrying its threshold and the family's criterion (ids: `CreateTiersIds`) |
| Achievements.CreateTiersIds | game.js:71 | entry i of a titled family has the id slug(title)_(i+1) |
| Achievements.CreateUpgradeAchievements | game.js:82-89 | one entry per threshold, in order, each carrying its threshold, an id on the upgrade's stem and an ownership condition on that upgrade |
| Achievements.CreateSkillAchievements | game.js:91-98 | one entry per threshold, in order, each carrying its threshold, an id on the lower-cased skill name and a condition on that skill |
| Achievements.Holds | game.js:74-96 | a held ownership entry has a matching upgrade whose count reaches the threshold; a held skill entry has its level key in the skills |
| Achievements.Catalog | game.js:100-127 | the catalog has exactly 520 entries |
| Achievements.Geometric | game.js:103-111 | `Array.from` of floor(init·growth^i) has the requested length and, from a non-negative start, no negative threshold |
| Achievements.Linear | game.js:114-126 | `Array.from` of (i+1)·step has the requested length, starts at the step, and has no negative threshold for a non-negative step |
| Achievements.Flatten | game.js:100-127 | the spread holds exactly the entries of the families |
| Achievements.AfterUnlock | game.js:130-142 | the unlocked set only grows; every held catalog entry is unlocked; each added id belongs to a held entry; nothing else changes |
| Achievements.UnlockIdempotent | game.js:130-142 | a second unlock pass on an unchanged state adds nothing |
| Achievements.HoldsIgnoresUnlocked | game.js:74-96 | no condition reads the unlocked set |
| Achievements.TitleStems | game.js:71 | the stems of the titled families are `money_maker`, `click_master` and `passive_master` |
| Achievements.FamiliesShape | game.js:100-127 | eleven families of sizes 100, 100, 100, 40, 40, 40 and 20 five times; entry i of each has id stem_(i+1) |
| Achievements.FlattenDistinct | game.js:100-127 | the spread of families tagged by distinct stems has pairwise distinct ids |
| Achievements.CatalogIdsDistinct | game.js:100-127 | no two catalog entries share an id |
| Achievements.GeometricTiersNonDecreasing | game.js:102-111 | a geometric family's thresholds never decrease with the tier index |
| Achievements.LinearNonDecreasing | game.js:114-126 | the arithmetic thresholds (i+1)·step never decrease with i |
| Achievements.FamilyThresholdsNonDecreasing | game.js:100-127 | every family's thresholds are non-decreasing in the tier index |
| Achievements.CatalogEntryKind | game.js:100-127 | every catalog entry has the kind of one of the eleven families |
| Achievements.CatalogEntryKnown | game.js:100-127 | every catalog entry compares one of the three criteria, one of the three configured upgrade ids or one of the five skills |
| Achievements.TierFamiliesCompareMoney | game.js:74-78 | all three threshold families hold exactly when money reaches the threshold |
| Achievements.OwnershipReadsCount | game.js:87 | an ownership entry holds exactly when the named upgrade's count reaches the threshold, and a well-formed state has that upgrade |
| Achievements.SkillAchievementReadsLevel | game.js:96 | a skill entry holds exactly when the key `lower-cased name + "Level"`, one of the five initial skill keys, is present and reaches the threshold |
| Persistence.Save | game.js:237-250 | the snapshot lists every upgrade, in order, with its id and count |
| Persistence.FindSaved | game.js:268 | a found entry is in the save and carries the id; none is found only when no saved entry carries it |
| Persistence.FindSavedFirst | game.js:268 | the search finds nothing exactly when no saved entry has the id; otherwise it returns the first one that does |
| Persistence.MergeByFirstId | game.js:266-275 | the merge has the configured upgrades in order; each takes the first matching saved count and flag, or 0 and false |
| Persistence.MergeUpgrades | game.js:266-275 | whatever the save holds, the merge has exactly the configured upgrades, in order |
| Persistence.AfterLoad | game.js:255-285 | from a well-formed state, whatever the save holds, the loaded upgrades are the configured ones; the clock never ends before the saved one; with non-negative saved income, money never ends below the saved amount |
| Persistence.LoadWithoutData | game.js:255-266 | with no save nothing changes; a save without an upgrade list keeps the upgrades |
| Persistence.LoadedFields | game.js:259-284 | scalars and skills come from the save; a positive offline time adds passive income × seconds and moves the clock to now, otherwise neither changes; the unlocked set is the saved one or empty |
| Persistence.SaveLoadRoundTrip | game.js:237-285 | loading the snapshot of a well-formed state, with a clock not past its last update, restores that state exactly |
| GameModel.Clicked | game.js:296-298 | a click with its refresh adds exactly the click power to money, keeps power, income, skills and clock, and never locks an achievement |
| GameModel.SkillUpgraded | game.js:175-204 | an impossible skill purchase changes nothing; otherwise money stays between zero and its old amount, the clock is kept and nothing is locked again |
| GameModel.UpgradePurchased | game.js:320-326 | an unaffordable purchase changes nothing; otherwise the bought upgrade's count never falls, skills and clock are kept, and the upgrades stay the configured ones |
| GameModel.Ticked | game.js:424-429 | a timer tick adds passive income × elapsed seconds to money, sets the clock to `now`, keeps power, income and skills, and never locks an achievement |
| GameModel.AfterDisplay | game.js:354-372 | a display refresh changes no money, power, income, skills, clock, configuration or count, never locks an achievement, and keeps the upgrades the configured ones |
| GameModel.DisplayOutcome | game.js:354-372 | a display refresh unlocks exactly the held catalog ids, judged on the state before the affordability pass |
| GameModel.GameKeepsSane | game.js:296-329 | clicks, purchases, forward ticks and the refreshes after them keep money ≥ 0, click power ≥ 1 and passive income ≥ 0 |
| GameModel.Game.constructor | game.js:3-59 | the fields hold the initial state: 0 €$, click power 1, no income, skills at 1, fresh upgrades, the catalog, nothing unlocked |
| GameModel.Game.RefreshAffordability | game.js:360-366 | the loop leaves the array and the flag as the affordability pass prescribes |
| GameModel.Game.CheckAchievements | game.js:130-142 | the loop performs the unlock pass; the result is true iff the unlocked set changed |
| GameModel.Game.UpdateDisplay | game.js:354-372 | the fields become the display refresh of the old state |
| GameModel.Game.Click | game.js:296-300 | the fields become a click followed by a display refresh |
| GameModel.Game.UpgradeSkill | game.js:175-207 | the fields become the skill purchase, refreshed only when it happened |
| GameModel.Game.ApplySkillEffect | game.js:184-202 | the `switch` adds the skill's gains and touches nothing else |
| GameModel.Game.PurchaseUpgrade | game.js:320-329 | the fields become the upgrade purchase, refreshed only when it happened, updating the array in place |
| GameModel.Game.ApplyEffect | game.js:325 | the effect adds its amount to click power or passive income and touches nothing else |
| GameModel.Game.Tick | game.js:424-429 | the fields become the accrual at `now` followed by a display refresh |
| GameModel.Game.SaveGame | game.js:237-250 | the snapshot returned is the one the state prescribes |
| GameModel.Game.LoadGame | game.js:255-286 | the fields become the loaded state, with the upgrade array rebuilt when the save lists upgrades |
| Scenarios.ClickStep | game.js:296-298 | a click adds the click power to money and keeps the power and the counts |
| Scenarios.FirstStreetCred | game.js:316-325 | with exactly 10 €$, the first Street Cred spends it all, adds one click power and prices the next at 15 |
| Scenarios.StreetCredScenario | game.js:296-329 | from a fresh game, ten clicks and one Street Cred leave money 0, click power 2 and a next cost of 15 |
| Scenarios.BodySkillScenario | game.js:171-202 | with 302 €$, three Body levels cost 50 + 90 + 162, take the level to 4 and click power to 2.5 |

## Left out

- Rendering and notifications are not modelled: `initializeUI`, `renderSkills`, `renderUpgrades`, `renderAchievements`, the notifications, the floating text and the text writes of `updateDisplay`. They are presentation only.
- The timers of `startGameLoop` and `setupAutosave` are not modelled. The tick body is `Game.Tick(now)`, and a save is `Game.SaveGame()`.
- `Date.now()` becomes the parameter `now`, in milliseconds.
- `localStorage`, `JSON.stringify` and `JSON.parse` are not modelled. A save is the `Snapshot` value, and "nothing stored" is `None`.
- Malformed JSON, and saves whose scalar fields or `skills` object are missing or of the wrong type, are not modelled, because the code does not handle them either. A save without `skills` would leave `this.skills` undefined, so `renderSkills` and the skill conditions would throw (game.js:219, game.js:96); the model's `Snapshot.skills` is always a map.
- A save that lacks its upgrade list or its unlocked list is modelled, as `None` in that field.
- `formatNumber`, `toLocaleString`, and the titles and descriptions of upgrades, skills and achievements are display text. Only ids are kept.
- JavaScript doubles are replaced by exact reals. Thresholds above 2^53 and the inexact deltas 0.1, 0.2 and 0.3 are therefore exact here. No claim of bit-equality with the browser is made.
- `toLowerCase` maps only the ASCII capitals, which are the only letters the catalog's titles and names use.
- The unlocked achievements are a set. The insertion order of the JavaScript `Set`, and hence the order of the saved id list, is not modelled.
- The constructor's start-up sequence at game.js:61-65 is not modelled: the load, UI wiring, timers, autosave and the first achievement check. `Game.constructor` stops at the field initialisation. The other steps are the separate `LoadGame` and `CheckAchievements` methods.
- `purchaseUpgrade` takes the upgrade object, which is always an element of `this.upgrades`. The model passes its index, so aliasing between the argument and the array element cannot arise.
- The upgrade effect closures become the `Effect` datatype, and the achievement condition closures become `Achievements.Holds`.
- Numbers.ScaledFloorMonotone: stated for non-negative exponents only, which are the only ones the threshold arrays use.
