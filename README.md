# Wall-mounted battery: the wick and the placement rule

This project models the two pieces of logic in the wall-mounted battery building mod.

- **The wick** (`battery.dfy`, module `Battery`). The battery holds one persisted counter, `ticksToExplode`. A value of 0 means dormant and a positive value means armed.
  - A fire-damage event can light the wick. The battery must not be destroyed, must be dormant, the damage must be Flame, a random draw must fall below 0.05, and stored energy must exceed 250. The counter is then set to a draw in [70, 150) and a hiss sound is started.
  - Each tick while armed, the sound is started or maintained and the counter drops by one.
  - On the tick the counter reaches 0, a Flame explosion of radius `draw * 1.5` goes off, and 200 energy is requested from the battery.
  - The behaviour is specified by the functions `TickWick` and `ApplyDamage` over a `Wick` value (the counter plus an optional sound handle).
  - The class `WallmountedBattery` holds the fields that the source mutates. Its methods `Tick` and `PostApplyDamage` are proved against those functions.
  - It records the explosions and the power draws, in order, in an `effects` log.
  - Saving writes only the counter; loading gives a wick with no sound handle.
- **The placement rule** (`place_worker.dfy`, module `PlaceWorker`). This is a pure function from a cell, a facing and a view of the map to an acceptance report. The rules run in order and the first failure wins:
  - the cell's edifice must have graphic data that links as Rock or Wall (`WMB.onsupport`);
  - the cell in front must be walkable (`WMB.walkable`);
  - no thing in the cell may have def name `WallmountedBattery` (`WMB.existing`).
  It changes no state.
- `grid.dfy` (cells, the four facings, the facing cell) and `wrappers.dfy` (`Option`, standing in for nullable references) are shared by both.

Randomness is passed in as parameters, with the host random generator's ranges as preconditions:
- `chance`: the `Rand.Value` draw;
- `ticksDraw`: the `Rand.Range(70, 150)` draw;
- `radiusDraw`: the `Rand.Range(0.5, 1)` draw.

The host's `Destroyed` state and the power component's `StoredEnergy` at the time of a damage event are also parameters. Single-precision floats are modelled as reals.

The placement rule keeps the map abstract: only the edifice, walkability and thing list of a cell are modelled. The source's `AllowsPlacing` also takes `checkingDef`, `thingToIgnore` and `thing`, and ignores all three, so the model leaves them out.

## Model

| member | source | states |
|---|---|---|
| `Battery.TickWick` | Source/WallmountedBattery/Building_WallmountedBattery.cs:30-56 | A tick while not armed changes nothing and sets nothing off. A tick while armed lowers the counter by exactly 1 and leaves a sound handle: a fresh one if there was none, otherwise one maintained once more. The tick explodes if and only if the counter was 1. A non-negative counter stays non-negative. |
| `Battery.WallmountedBattery.Tick` | Source/WallmountedBattery/Building_WallmountedBattery.cs:30-56 | The new counter and handle are those of `TickWick`. On the exploding tick the log gains a Flame explosion at the facing cell with radius `ExplosionRadius(draw)`, then a 200-energy draw; on any other tick the log is unchanged. Preserves `Valid` (counter >= 0). |
| `Battery.ApplyDamage` | Source/WallmountedBattery/Building_WallmountedBattery.cs:58-70 | The wick is unchanged if any one condition holds: the battery is destroyed, the counter is non-zero, the damage is not Flame, the chance draw is at least 0.05, or stored energy is at most 250. Otherwise the wick is armed with a counter in [70, 150) and a fresh sound handle. The counter changes if and only if all five arming conditions hold. Preserves non-negativity. |
| `Battery.WallmountedBattery.PostApplyDamage` | Source/WallmountedBattery/Building_WallmountedBattery.cs:58-70 | The new counter and handle are those of `ApplyDamage`. The effects log is unchanged. Preserves `Valid`. |
| `Battery.WallmountedBattery.StartWickSustainer` | Source/WallmountedBattery/Building_WallmountedBattery.cs:72-76 | The handle is a freshly started sustainer. Only the handle field changes. |
| `Battery.ExplosionRadius` | Source/WallmountedBattery/Building_WallmountedBattery.cs:53 | For a draw in [0.5, 1], the radius lies in [0.75, 1.5]. |
| `Battery.ExplosionCenter` | Source/WallmountedBattery/Building_WallmountedBattery.cs:54 | The corrected centre: the cell in front of the battery, a neighbour of its position. |
| `Battery.ExplosionCenterAsWritten` | Source/WallmountedBattery/Building_WallmountedBattery.cs:54 | The centre as the source computes it: always one of the four neighbours of the map origin, whatever the battery's position. |
| `Battery.AsWrittenCenterMissesFacingCell` | Source/WallmountedBattery/Building_WallmountedBattery.cs:54 | The as-written centre equals the facing cell if and only if the battery stands at the origin. Example: a battery at (10,0,10) facing North. |
| `Battery.DormantIsStable` | Source/WallmountedBattery/Building_WallmountedBattery.cs:33-36 | Any number of ticks on a wick that is not armed leave it unchanged, with no explosion. |
| `Battery.CountdownExplodesOnce` | Source/WallmountedBattery/Building_WallmountedBattery.cs:38-55 | From an armed counter N, after n ticks the counter is `max(N - n, 0)`. The number of explosions is 0 for n < N and exactly 1 for every n >= N. |
| `Battery.ExplodesOnTickN` | Source/WallmountedBattery/Building_WallmountedBattery.cs:47-55 | From an armed counter N, the first N - 1 ticks set off nothing and the N-th tick explodes. |
| `Battery.ArmingCycle` | Source/WallmountedBattery/Building_WallmountedBattery.cs:47-69 | A wick lit by damage with draw T explodes once within T ticks and not before the T-th tick. It ends dormant, with counter 0, so it can be lit again. |
| `Battery.CountdownIgnoresSustainer` | Source/WallmountedBattery/Building_WallmountedBattery.cs:38-55 | Two wicks with the same counter follow the same countdown and explosions, whatever their sound handles. |
| `Battery.SaveTicks` | Source/WallmountedBattery/Building_WallmountedBattery.cs:24-28 | Loading the saved record gives back the counter. The record holds only the `ticksToExplode` key, and holds it exactly when the counter is not the default 0. |
| `Battery.SaveLoadRoundTrip` | Source/WallmountedBattery/Building_WallmountedBattery.cs:21-41 | After save and load, the counter is restored and the handle is empty. An armed wick's next tick starts a fresh handle. Every later countdown and explosion count matches the original's. |
| `Battery.WallmountedBattery.Save` | Source/WallmountedBattery/Building_WallmountedBattery.cs:24-28 | The saved record is `SaveTicks` of the counter. |
| `Battery.WallmountedBattery.Restore` | Source/WallmountedBattery/Building_WallmountedBattery.cs:24-28 | A loaded battery has the counter loaded from the record, no sound handle and an empty log. |
| `Battery.WallmountedBattery.constructor` | Source/WallmountedBattery/Building_WallmountedBattery.cs:21-22 | A new battery is dormant (counter 0), has no sound handle and has an empty log. |
| `PlaceWorker.AllowsPlacing` | Source/WallmountedBattery/WallmountedBattery_PlaceWorker.cs:5-45 | These cases give `WMB.onsupport`: no edifice; an edifice with no def or no graphic data; link flags with neither Rock nor Wall. It is `WMB.onsupport` if and only if the support is not a rock/wall edifice. Good support and an unwalkable facing cell give `WMB.walkable`. Good support and a walkable facing cell give `WMB.existing` if and only if a non-null thing in the cell has def name `WallmountedBattery`. The result is `Accepted` if and only if all three checks pass. No other key is produced. |
| `PlaceWorker.ContainsBattery` | Source/WallmountedBattery/WallmountedBattery_PlaceWorker.cs:33-42 | The search of the thing list finds a battery if and only if some entry is non-null, has a def, and has def name `WallmountedBattery`. Null entries and things without a def are skipped. |
| `PlaceWorker.SupportRejectionIgnoresRest` | Source/WallmountedBattery/WallmountedBattery_PlaceWorker.cs:11-25 | Without a valid support the result is `WMB.onsupport`, whatever the facing, the walkability and the things in the cell. |
| `PlaceWorker.WalkabilityBeforeDuplicates` | Source/WallmountedBattery/WallmountedBattery_PlaceWorker.cs:27-42 | With a valid support and an unwalkable facing cell, the result is `WMB.walkable` even when a battery already stands in the cell. |
| `PlaceWorker.CheckedCellIsNeighbour` | Source/WallmountedBattery/WallmountedBattery_PlaceWorker.cs:27-31 | With a valid support, the walkability rejection depends exactly on the cell `loc + rot.FacingCell`. |
| `Grid.Facing` | Source/WallmountedBattery/WallmountedBattery_PlaceWorker.cs:27 | The facing cell is a different, level neighbour one step away. |

## Findings

| source | as written | input that shows it | evidently intended | confidence | as-written member | corrected member |
|---|---|---|---|---|---|---|
| Source/WallmountedBattery/Building_WallmountedBattery.cs:54 | The explosion is centred on `Rotation.FacingCell`. That value is the one-cell direction offset, not a map position, so the blast lands next to the map origin wherever the battery stands. The placement rule does add the position (`loc + rot.FacingCell`, WallmountedBattery_PlaceWorker.cs:27). | A battery at (10,0,10) facing North explodes at (0,0,1), not at (10,0,11). | `Position + Rotation.FacingCell`: the cell in front of the battery, which placement required to be walkable. | high; not executed | `Battery.ExplosionCenterAsWritten`, `Battery.AsWrittenCenterMissesFacingCell` | `Battery.ExplosionCenter` (used by `WallmountedBattery.Tick`) |

## Left out

- Fill-bar drawing (`DrawAt`, `DrawFillableBarVerbatim`) and the bar materials and colours: float rendering geometry on the engine's vector, matrix and mesh types.
- The sound system: a sustainer is modelled only as present or absent, plus a count of its per-tick `Maintain` calls. `TrySpawnSustainer` is taken to succeed, and the expiry of a sustainer that is no longer maintained is not modelled.
- The explosion's effect on the map: only an `Exploded(center, radius, Flame)` entry is logged.
- `DrawPower`: only a `DrewPower(200)` request is logged. Its effect on stored energy, including clamping, belongs to the host's power component. Stored energy is an input to `PostApplyDamage`.
- The random generator: draws are inputs. The order in which the source consumes draws is not modelled, and neither is its short-circuiting, which skips the chance draw when an earlier condition already fails.
- Translation of the rejection keys: only the key strings are kept.
- The base-class `Tick`, `PostApplyDamage` and `ExposeData` calls, and the host's serialisation mechanism. Saving is modelled as a map from key to value. A value equal to its default (0) is not written, and a missing key loads as 0.
- `PostApplyDamage`'s `totalDamageDealt` and the damage amount: the source does not use them.
- The host's `GetEdifice`, `Walkable` and `GetThingList` are fields of the abstract `Map`. `Rot4.FacingCell` takes its host values (North +z, East +x, South -z, West -x).
- Single-precision float rounding: 0.05, 250, 200, 1.5 and the draws are exact reals.
- `LinkFlags` is modelled as a set of flags. Only Rock and Wall are named; the source's bitwise test `(flags & (Rock | Wall)) == 0` becomes an intersection with `{Rock, Wall}` being empty.
