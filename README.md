# AlienWaste game server core, in Dafny

AlienWaste is a Telegram Web App game. Players feed an alien companion by scanning waste items. Its Node.js server keeps one mutable game-state record per Telegram user in an in-memory `Map`. Every scan request passes an anti-cheat gate, checked in this order:

1. lazy daily reset of the per-day counter;
2. daily scan limit (100);
3. five-minute cooldown;
4. location-proximity check.

An accepted scan then updates points, level, hunger, counters, the daily mission and the recent-activity list. Completing the mission has a separate endpoint. A leaderboard lists the ten players with the most points. Each new player's alien gets a seed and a colour palette from a 31x rolling string hash.

This project models that core and proves what the code does. The modules are:

- `Alien` (alien.dfy): `hashString` over UTF-16 code units with ECMAScript `ToInt32` wrap-around, the seed string, and the palette and attributes.
- `Records` (records.dfy): the `GameState` record, the level formula and the defaults of a new record.
- `AntiCheat` (anti_cheat.dfy): the `ANTI_CHEAT_CONFIG` constants, JavaScript truthiness of coordinates and timestamps, the daily reset, and the three checks.
- `Progress` (progress.dfy): the accepted-scan updates, the mission, the activity list, the scan, complete-mission and regenerate-alien handlers as pure functions on one record, and the lemmas about them.
- `GameStore` (store.dfy): the `gameStates` map as a class. `ids` holds the keys in insertion order and `states` holds the records. The handlers are methods that change the stored record field by field and are proved equal to the pure functions.
- `Leaderboard` (leaderboard.dfy): projection, stable sort by points (highest first), and the first ten.

Inputs that the source reads from the environment are parameters:

- `now` (milliseconds) replaces `Date.now()`;
- `today` replaces `new Date().toDateString()`;
- `distance` stands for `calculateDistance`.

The model follows the code where it behaves differently from what its names and comments suggest (the level formula at `index.js:295`, the location check at `index.js:271`, "Keep only last 10 activities" at `index.js:327`):

- The level is computed before the mission bonus is added, and the complete-mission endpoint never recomputes it. So after either kind of mission completion the level can lag `floor(ecoPoints / 200) + 1`; `LevelLagsAfterMissionBonus` gives a concrete case.
- The location check can never reject. Its condition includes the cooldown condition, which has already returned.
- A coordinate of `0` counts as "no location", and a timestamp of `0` counts as "never scanned".
- Points are not validated, so they may be negative.
- The complete-mission endpoint is not idempotent, and it does not cap the activity list at ten.

## Model

| member | source | states |
|---|---|---|
| `Alien.ToInt32` | index.js:15 | the result is a signed 32-bit value that differs from the input by a multiple of 2^32 (the value `hash & hash` leaves) |
| `Alien.HashStepIsTimes31` | index.js:14-15 | one loop step `((hash << 5) - hash) + char`, then `& hash`, equals `31 * hash + char` reduced to signed 32 bits |
| `Alien.RollingHashIsHornerMod32` | index.js:10-16 | after the loop, `hash` is the base-31 polynomial hash of the code units modulo 2^32, read as a signed value |
| `Alien.RollingHash` | index.js:11-16 | the loop's value after every prefix: a fold of the step over the code units; its contract states only that it is a signed 32-bit value, and `RollingHashIsHornerMod32` and `HashString` state what it computes |
| `Alien.Hash` | index.js:17 | `Math.abs` of the 32-bit hash lies in [0, 2^31] |
| `Alien.HashString` | index.js:10-18 | the loop, with its invariant, returns exactly `Hash(s)`, within [0, 2^31] |
| `Alien.Decimal` | index.js:21 | the template literal renders the hash as decimal digits, with no leading zero, that denote the hash |
| `Alien.AlienSeed` | index.js:20-22 | the seed starts with "alien_" and is longer than the prefix, the user id and the separator together |
| `Alien.SeedRoundTrip` | index.js:20-22 | parsing a seed at its last underscore gives back the user id and its hash |
| `Alien.PaletteIndex` | index.js:33-34 | `hash % colorPalettes.length` is a valid palette position, in [0, 4] |
| `Alien.GenerateAlienAttributes` | index.js:24-52 | the three colours are those of palette `hash % 5` of the seed, in the source's palette order; the other eleven fields are the fixed values of the source |
| `Alien.AttributesDependOnlyOnPalette` | index.js:24-52 | two seeds give identical attributes exactly when they select the same palette |
| `Records.InitialState` | index.js:94-117 | the defaults of a new record; no contract of its own, and `InitialStateWellFormed` and `Store.InitializeGameState` state its properties |
| `Records.Level` | index.js:295 | the level is the 200-point band that contains the points: `(level - 1) * 200 <= points < level * 200` |
| `AntiCheat.Truthy` | index.js:272 | JavaScript truthiness of a coordinate, used at index.js:272 and index.js:300: a missing coordinate and `0` are false; no contract of its own, and `Gate` and `AcceptedScanUpdates` use it |
| `AntiCheat.HasScanned` | index.js:261 | JavaScript truthiness of the stored timestamp: `null` and `0` read as never scanned; no contract of its own, and `Gate` and `CooldownExactly` use it |
| `AntiCheat.RemainingMinutes` | index.js:263 | the minutes reported are the ceiling of the remaining milliseconds over 60000, at least 1, and at most 5 when elapsed time is non-negative |
| `AntiCheat.Round` | index.js:286 | `Math.round` gives the integer within half a unit, halves rounded up |
| `AntiCheat.DailyReset` | index.js:246-250 | afterwards the stored day is today; the count is kept for the same day and 0 otherwise; nothing else changes |
| `AntiCheat.Gate` | index.js:252-289 | DAILY_LIMIT_EXCEEDED iff the count is at the limit; COOLDOWN_ACTIVE iff under the limit and in cooldown, with its minutes; no rejection iff neither; never LOCATION_TOO_CLOSE |
| `Progress.Fed` | index.js:294 | hunger drops by 15 and stops at 0 |
| `Progress.Newest` | index.js:328 | `slice(0, 10)` keeps the first min(n, 10) entries |
| `Progress.PushActivity` | index.js:318-328 | the new entry comes first, the list holds between 1 and 10 entries, and the rest is a prefix of the old list |
| `Progress.AdvanceMission` | index.js:304-315 | a completed mission is untouched; an open one moves progress to min(progress + 1, target), completes exactly at the target and then adds 25 points; nothing else changes |
| `Progress.ApplyScan` | index.js:291-328 | the updates of an accepted scan in the source's order; no contract of its own, and `AcceptedScanUpdates`, `ScanActivityShape` and `GameStore.UpdateAcceptedScan` state them |
| `Progress.Scan` | index.js:243-337 | the scan-waste handler on an existing record; no contract of its own, and the gate lemmas from `ScanResetsDayFirst` to `AcceptedScanIsOneStep` state its behaviour |
| `Progress.CompleteMission` | index.js:372-382 | the complete-mission handler on an existing record; no contract of its own, and `CompleteMissionEffects` and the lemmas after it state its behaviour |
| `Progress.ScanResetsDayFirst` | index.js:246-269 | after any scan request the stored day is today; a rejected request changes only the daily reset, so a new day leaves the count at 0; an accepted one leaves the reset count plus one |
| `Progress.DailyLimitCheckedFirst` | index.js:252-258 | the answer is DAILY_LIMIT_EXCEEDED exactly when the count after the reset is at the limit, whatever the cooldown and location |
| `Progress.CooldownExactly` | index.js:260-269 | COOLDOWN_ACTIVE exactly when under the limit, a truthy timestamp exists and less than 5 minutes have elapsed; the minutes reported are at least 1, and at most 5 unless the clock went backwards |
| `Progress.LocationCheckIsDead` | index.js:271-289 | LOCATION_TOO_CLOSE is never returned, for any locations and any distance function |
| `Progress.AcceptExactly` | index.js:252-289 | a scan is accepted exactly when the count after the reset is under the limit and no cooldown runs |
| `Progress.AcceptedScanUpdates` | index.js:291-302 | on accept: points plus the scan's points (plus 25 if the mission completes); level from the points before the bonus; both scan counters up by one; hunger down by 15, floored at 0; timestamp now; day today; location replaced only when both coordinates are truthy; mission progress min(progress + 1, target) while open, completed exactly when it reaches the target; seed, attributes, achievements, accuracy, streak and last-active time unchanged |
| `Progress.LevelLagsAfterMissionBonus` | index.js:292-314 | a 10-point scan that completes the mission from 180 points ends at 215 points and level 1, which is not the level of 215 points |
| `Progress.ScansRemainingNonNegative` | index.js:336 | the reported `scansRemaining` is 100 minus the new count, in [0, 99] |
| `Progress.ScanKeepsWellFormed` | index.js:246-330 | every scan request keeps the record invariant: 0 <= scansToday <= 100, 0 <= progress <= target, hunger in [0, 100], scans non-negative |
| `Progress.ScanMissionMonotone` | index.js:304-315 | on the scan path progress never passes the target, a completed mission stays completed, and a mission completed earlier adds no second bonus |
| `Progress.ScanActivityShape` | index.js:317-328 | after an accepted scan, its entry is first, the list has exactly min(n + 1, 10) entries, and the rest is the front of the old list |
| `Progress.AcceptedScanIsOneStep` | index.js:291-328 | an accepted scan is exactly one push onto the activity list, one feeding and one mission step; the three lemmas below iterate these steps |
| `Progress.MissionAfterScans` | index.js:304-315 | from a fresh mission, n runs of the mission block (one per accepted scan) give progress min(n, target), completion exactly when n reaches the target, and a single 25-point bonus |
| `Progress.HungerAfterScans` | index.js:294 | n feedings (one per accepted scan) lower hunger by 15 n, floored at 0 |
| `Progress.PushAllKeepsNewest` | index.js:317-328 | after any non-empty run of pushes (one per accepted scan), the list is the first ten of the new entries (newest first) followed by the old list |
| `Progress.TenMostRecent` | index.js:317-328 | after ten or more pushes the list is exactly the ten most recent scan entries, newest first |
| `Progress.CompleteMissionEffects` | index.js:372-382 | the complete-mission endpoint sets the flag, adds 25 points, and puts one entry in front of the whole old list; every other field, the level included, is unchanged |
| `Progress.CompleteMissionNotIdempotent` | index.js:372-373 | calling the endpoint twice differs from calling it once and adds 50 points |
| `Progress.CompleteMissionExceedsActivityLimit` | index.js:375-382 | from a list of ten entries, the endpoint leaves more than ten |
| `Progress.CompleteMissionKeepsWellFormed` | index.js:372-382 | the endpoint keeps the record invariant |
| `Progress.InitialStateWellFormed` | index.js:89-117 | a new record satisfies the invariant, its level matches its points, and its seed reads back as the user id and its hash |
| `Progress.StampedId` | index.js:403 | the template `${userId}_${Date.now()}` is the user id, an underscore, and decimal digits that denote the time |
| `Progress.RegenerateAlien` | index.js:403-407 | the new attributes are those of the new seed; no field other than the seed and the attributes changes |
| `Progress.RegeneratedSeedReadsBack` | index.js:403 | the new seed parses back as the time-stamped id and its hash |
| `Progress.RegeneratedSeedIsNew` | index.js:402-403 | a regenerated seed always differs from the seed the record was created with |
| `Progress.RegeneratedSeedsDiffer` | index.js:402-403 | regenerating at two different times gives two different seeds |
| `Progress.RegenerateKeepsWellFormed` | index.js:406-407 | regeneration keeps the record invariant |
| `GameStore.Store.constructor` | index.js:69 | the server starts with an empty map |
| `GameStore.Store.InitializeGameState` | index.js:89-120 | stores the default record only when the id is absent, appending the id to the map's order; an existing record is returned and nothing changes |
| `GameStore.Store.ScanWaste` | index.js:234-342 | missing record: "not found", nothing changes; otherwise the answer and the stored record are those of `Scan`, and the store invariant is kept; an accepted scan reports `scansRemaining` in [0, 99] |
| `GameStore.CheckGate` | index.js:252-289 | the three early-return checks give exactly `Gate` |
| `GameStore.UpdateAcceptedScan` | index.js:291-328 | the field-by-field updates give exactly `ApplyScan` |
| `GameStore.Store.CompleteMission` | index.js:363-391 | missing record: "not found", nothing changes; otherwise the stored and returned record is `CompleteMission` of the old one, and the store invariant is kept |
| `GameStore.Store.RegenerateAlien` | index.js:393-416 | missing record: "not found", nothing changes; otherwise the stored and returned record is `RegenerateAlien` of the old one, and the store invariant is kept |
| `GameStore.Store.GetLeaderboard` | index.js:344-361 | reads the store without changing it: at most ten entries, highest points first, each showing a stored record |
| `Leaderboard.Project` | index.js:346-352 | one entry per stored user, in map order, with that record's points, level and scan count |
| `Leaderboard.Insert` | index.js:353 | inserting keeps the list sorted by points, highest first, and adds one element |
| `Leaderboard.SortByPointsDesc` | index.js:353 | the sort returns a permutation of its input, ordered by points from highest to lowest |
| `Leaderboard.Leaderboard` | index.js:346-354 | min(n, 10) entries, sorted by points from highest to lowest, a sub-multiset of the projection, each showing the record stored under its id |
| `Leaderboard.LeaderboardIsTop` | index.js:346-354 | every projected entry left off the board has no more points than any entry on it |

## Left out

- `verifyTelegramWebAppData` (index.js:72-86) is HMAC-SHA256 over URL parameters sorted with `localeCompare`. These are foreign calls. The `/api/auth` route that uses it is routing glue.
- `calculateDistance` (index.js:123-136) is Haversine trigonometry on floating-point numbers. It is the parameter `distance`, and `LocationCheckIsDead` holds for every such function.
- `Date.now()`, `new Date()` and `toDateString()` become the parameters `now` and `today`. `Date.now()` is a natural number of milliseconds. Time-zone day boundaries are not modelled.
- The activity field `id` (a second `Date.now()` read) is dropped. The fields `time` and `icon` are constant display data and are not kept. The same goes for the achievements' icons and the response message strings.
- HTTP status codes, JSON bodies, the 500 error paths, the Telegram bot commands (index.js:147-197), the webhook and server startup are glue.
- Request values are typed. `points` is an integer, coordinates are reals or missing, and the user id is a string. JavaScript coercions are not modelled: string concatenation when `points` is a string, and `NaN` coordinates.
- Numeric user ids are not modelled, and in the deployed program this matters. `/api/auth` stores the record under `user.id.toString()` (index.js:217) but answers with the numeric `user.id` (index.js:222). The bundled client keeps that number (public/app.js:67) and sends it back as `userId` (public/app.js:166, 250, 449). `Map.get` compares keys without conversion, so a number never finds the string key. Every scan, complete-mission and regenerate-alien request from an authenticated Telegram user therefore takes the "game state not found" path. Only the client's demo user, whose id is the string `demo`, sends a string, and no record is created under that id. The model types `userId` as a string, so it describes the requests that do find their record.
- `AntiCheat.RemainingMinutes` uses exact integer ceiling division for `Math.ceil(x / 1000 / 60)`. For the integer millisecond counts involved, the two floating-point divisions give the same ceiling.
- Integers are unbounded. Points and scan counts past 2^53, where JavaScript numbers lose precision, are not modelled.
- `Leaderboard.SortByPointsDesc`: ties keep their insertion order, as JavaScript's stable sort does. This holds by construction of the insertion, but no lemma states it.
- Client code (public/app.js) is not part of this model, including the hunger increase it shows locally.
- Concurrency is not modelled: Node runs each handler to completion.
