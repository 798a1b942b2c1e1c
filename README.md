# Magic Click — a verified model of the game state

Magic Click is a single-screen idle game. The player owns a pool of
**mana**, and four **generators** (Mana Crystal, Arcane Tower, Ley Line
Node, Elder Artifact) each have a cost, a level and a mana multiplier. The
program runs 60 ticks per simulated second. On every tick:

- a click on one of the four corner panels buys one level of that
  generator, if the mana covers its cost and its level is below 100;
- every 60th tick, the product of the four multipliers is credited to the
  mana;
- every generator with a level above 0 turns its indicator by
  `speedPerLevel * level` turns per second. Each completed turn adds 0.01
  to its multiplier.

This project models that state machine in Dafny and proves what it
promises:

- `model.dfy` (module `GameModel`) holds the state as values. It has the
  `Generator` and `State` datatypes, the start-up constants and one
  reference function per operation: `Recompute`, `Purchase`, `Click`,
  `Accrue`, `Turn`, `Rotate`, `Step` and `Run`.
- `game.dfy` (module `GameImpl`) holds the class `Game`. It updates the
  state in place: the generators and rotation angles are arrays, and the
  methods contain the program's loops. Each method is proved to change the
  state exactly as its reference function says.
- `properties.dfy` (module `GameProperties`) holds the lemmas. It defines
  the invariant of reachable states and proves it holds at start-up and
  after every tick. It also proves the guarded purchase, the disjoint click
  panels, the once-per-second accrual, the rotation rule and the behaviour
  of a game left alone from start-up.

Every float64 of the program is an exact `real`. Two constants come from
the program: `Pi` is the decimal that float64(math.Pi) prints as,
3.141592653589793, and one turn is `2.0 * Pi`. The lemmas' statements hold
for any positive `Pi`, but the proofs of `RotationBelowOneTurn` and
`TurnFirst` use its literal value to keep their arithmetic linear. The conversion `int64(x*100 + 0.5)` truncates toward zero; the
model writes this out and proves that it equals `Floor` for every value the
game rounds.

Two facts about the code are worth stating, because its comments suggest
otherwise:

- The cached `totalMultiplier` is not always the product of the
  multipliers. It is rebuilt as that product (main.go:78-83) only at
  start-up (main.go:71), on the tick that completes a second
  (main.go:109-111) and on a purchase (main.go:350). The rebuild happens before the rotation, and the rotation
  can raise a multiplier afterwards (main.go:133) without rebuilding the
  cache. The invariant proved here is therefore
  `1 <= totalMultiplier <= product`. `StaleCacheAfterRevolution` shows the
  lag in a run from start-up: after tick 120 the cache is 1.0 while the
  product is 1.01.
- The angle is reset by a single subtraction of one turn (main.go:137-139),
  not fully normalised. The angles stay in [0, 2π) only because of the
  fixed constants: a generator turns at most 0.1 × 100 / 60 of a turn per
  tick (`RotationBelowOneTurn`).

## Model

| member | source | states |
|---|---|---|
| `GameModel.MultiplierProduct` | main.go:79-83 | the aggregate multiplier is at least 1 whenever every generator's multiplier is at least 1 |
| `GameModel.Hundredths` | main.go:86 | the stored rate is the aggregate in hundredths, rounded half up: `r - 0.5 <= 100 x < r + 0.5` for every non-negative value |
| `GameModel.HitFrom` | main.go:320-338 | the click selects the first panel containing the point; no panel is selected exactly when no panel contains it |
| `GameModel.InitialGenerators` | main.go:60-65 | the four fixed generators; their levels 5, 0, 0, 0, multipliers 1.0 and positive costs are stated by `InitialState` and kept by `Inv` |
| `GameModel.Initial` | main.go:55-71 | the start-up state, whose invariant, levels, aggregate 1.0 and rate 100 are stated by `InitialState` |
| `GameModel.Recompute` | main.go:77-87 | the cache refresh, whose effect (aggregate equal to the product, rate its rounded hundredths, nothing else changed) is stated by `AccrueOnceASecond` and `PurchaseOutcome` |
| `GameModel.ZoneOrigin` | main.go:321-335 | the switch's four corner origins, whose panels `ZonesDisjoint` proves disjoint |
| `GameModel.InZone` | main.go:337-338 | the inclusive 370 x 130 panel test, characterised by `HitIsZone` |
| `GameModel.Hit` | main.go:320-358 | the first panel hit, stated by `HitIsZone` (selected if and only if on the panel) |
| `GameModel.Purchase` | main.go:340-355 | the guarded purchase, whose effect is stated by `PurchaseOutcome` and `PurchasePreservesInv` |
| `GameModel.Click` | main.go:318-360 | a click, stated by `ClickTouchesAtMostOne` and `ClickPreservesInv` |
| `GameModel.Accrue` | main.go:108-117 | the counter and the once-a-second credit, stated by `AccrueOnceASecond` |
| `GameModel.RotationSpeed` | main.go:123-126 | radians per tick, bounded by `RotationBelowOneTurn` |
| `GameModel.Turn` | main.go:121-139 | one generator's tick, stated by `TurnEffect` |
| `GameModel.Rotate` | main.go:119-141 | every generator's tick, stated by `RotatePreservesInv` |
| `GameModel.Run` | main.go:89-144 | n ticks without clicks keep four generators and four angles; from start-up `RunFromInitial` gives the closed form |
| `GameModel.Step` | main.go:89-144 | a tick keeps four generators and four rotation angles |
| `GameImpl.Game.constructor` | main.go:55-71 | the start-up state: the four fixed generators, angles 0, mana 0, the cache computed once; the invariant holds |
| `GameImpl.Game.CalculateManaPerSec` | main.go:77-87 | the multiplying loop leaves `totalMultiplier` equal to the product of all multipliers and `manaPerSec` its rounded hundredths; nothing else changes |
| `GameImpl.Game.HandleGeneratorClicks` | main.go:318-360 | the hit-testing loop with its early exit has the effect of `Click`: at most one guarded purchase, on the first panel hit; it keeps the invariant |
| `GameImpl.Game.Update` | main.go:89-144 | one tick (the click, then accrual, then rotation) has the effect of `Step` and keeps the invariant |
| `GameImpl.Game.RotateGenerators` | main.go:119-141 | the rotation loop turns every generator independently, exactly as `Turn` says |
| `GameProperties.ProductMonotone` | main.go:79-83 | raising multipliers that are all at least 1 never lowers their product |
| `GameProperties.ProductOfMultipliersOnly` | main.go:350-354 | the product depends on the multipliers alone, so refreshing the cache before scaling the cost gives the same value as after |
| `GameProperties.ProductOfFirstOnly` | main.go:79-83 | when every multiplier but the first is 1 (only the first generator has a level at start-up), the product is the first multiplier |
| `GameProperties.HundredthsRoundsHalfUp` | main.go:86 | for non-negative values the truncating conversion equals `floor(100 x + 0.5)` |
| `GameProperties.InitialState` | main.go:55-71 | start-up satisfies the invariant, with levels 5, 0, 0, 0, aggregate 1.0 and rate 100 hundredths |
| `GameProperties.ZonesDisjoint` | main.go:321-338 | no point lies on two of the four 370 x 130 corner panels |
| `GameProperties.HitIsZone` | main.go:320-358 | a click selects generator i if and only if it lies on i's panel |
| `GameProperties.PurchaseOutcome` | main.go:340-355 | no purchase unless mana >= cost and level < 100, and then nothing changes; otherwise mana drops by the old cost, the level rises by one, the cost is scaled by 1.15 or 1.2, the cache is refreshed, and the other generators, the angles and the counter stay the same |
| `GameProperties.ClickTouchesAtMostOne` | main.go:318-360 | a click changes only the generator whose panel it hits, by at most one level; a click outside all panels changes nothing |
| `GameProperties.PurchasePreservesInv` | main.go:340-355 | a purchase keeps mana non-negative, levels within [0, 100], costs at least their starting value and the cache consistent |
| `GameProperties.ClickPreservesInv` | main.go:318-360 | a click keeps the invariant |
| `GameProperties.ClickMonotone` | main.go:340-354 | a click never lowers a level or a cost and never changes a multiplier |
| `GameProperties.FirstPurchase` | main.go:61 | the first generator at start-up, given 3 mana, is bought to level 6 for all the mana, and its cost becomes 3.45 |
| `GameProperties.AccrueOnceASecond` | main.go:108-117 | the counter becomes (counter + 1) mod 60; mana grows by the freshly computed product exactly on the tick that reaches 60 and is otherwise unchanged; off that tick the cache and rate are unchanged; generators and angles are untouched |
| `GameProperties.AccruePreservesInv` | main.go:108-117 | accrual keeps the counter within [0, 59], mana non-negative and the cache consistent |
| `GameProperties.RotationBelowOneTurn` | main.go:123-126 | with speeds of at most 0.1 and levels of at most 100, a generator turns at most a sixth of a turn per tick |
| `GameProperties.TurnEffect` | main.go:120-141 | a generator of level 0 keeps its angle and multiplier; otherwise the multiplier gains exactly 0.01 when the angle crossed a full turn and nothing otherwise; a crossing is exactly a wrap to a smaller angle; the angle ends in [0, 2π) |
| `GameProperties.RotatePreservesInv` | main.go:119-141 | rotation keeps the invariant, changes only multipliers, and raises each by exactly 0 or exactly 0.01 |
| `GameProperties.StepPreservesInv` | main.go:89-144 | every tick keeps the invariant: levels within [0, 100], counter within [0, 59], mana non-negative, multipliers at least 1, angles within one turn, and the cache at least 1 and at most the product |
| `GameProperties.StepMonotone` | main.go:89-144 | no tick lowers any level, cost or multiplier |
| `GameProperties.StaleCacheAfterRevolution` | main.go:108-141 | left alone from start-up, tick 120 refreshes the cache to 1.0 before the first revolution raises the product to 1.01, so the cache lags |
| `GameProperties.RunFromInitial` | main.go:55-144 | left alone from start-up, after n ticks: counter n mod 60; first angle (n mod 120)/120 of a turn; first multiplier 1 + 0.01 × (n div 120); the other generators as at start-up; mana 0 before the first second and 1 during the second |
| `GameProperties.OneSecondCreditsOneMana` | main.go:108-117 | from start-up, 60 ticks credit exactly 1.0 mana and reset the counter to 0 |
| `GameProperties.TenRevolutionsIn1200Ticks` | main.go:119-141 | from start-up, 1200 ticks complete ten revolutions of the first generator, raising its multiplier to 1.1 |

## Left out

- Rendering and layout are not modelled: `Draw`, `drawCircularGenerators`, `drawCenterProductionStatus`, `drawArcSegment` and `Layout` (main.go:146-185, 195-316). They do drawing, text formatting and trigonometry only.
- Input polling is not modelled (`inpututil.IsMouseButtonJustPressed`, `ebiten.CursorPosition`, main.go:91-92). `Update` takes the click of the tick as an optional parameter instead.
- `main` (main.go:362-372) is not modelled. It only opens the window and runs the game loop.
- Font loading in `NewGame` (main.go:50-53) is not modelled. It is a library call that may end the process, so the `fontSource` field is not modelled either.
- The visual-only fields are not modelled: `orbClicked`, `clickAnimation`, `animationTime` (main.go:96-105), `orbX` and `orbY`. `isMouseOverOrb` (main.go:187-193) is never called and is not modelled.
- `Update`'s `error` result is not modelled. It is always nil.
- IEEE-754 rounding is not modelled: float64 values are exact reals. The model therefore proves that 3.0 × 1.15 is 3.45 exactly. It does not say how the program prints that value.
- The overflow of the `int64` conversion at main.go:86 is not modelled. Nothing caps the multipliers: each revolution adds 0.01 (main.go:133), so after days of continuous play at high levels the aggregate can pass 9.2e16, where Go's conversion gives an implementation-defined value and the conjunct `manaPerSec == Hundredths(totalMultiplier)` of `Inv` would no longer describe the program. `manaPerSec` is only ever written (main.go:57, 86), never read, so no other behaviour depends on it.
- `GameModel.ZoneOrigin` requires an index below 4. The program's `switch` would fall back to (0, 0) for a fifth generator, but there are always exactly four.
- `GameImpl.Game.HandleGeneratorClicks` and `GameImpl.Game.Update`: the class invariant `Valid` covers only the shape (four generators, four angles). These methods preserve the game invariant `Inv` on the condition that it held before the call. `StepPreservesInv` proves that it always does from start-up.
