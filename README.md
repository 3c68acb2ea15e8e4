# Replay analyzer core, modelled in Dafny

This project models the core of the replay analyzer. The analyzer replays a recorded game against the
OpenFront simulation engine, checks the engine's checkpoint hashes against those recorded with the replay,
and gathers per-tick telemetry. Three pieces are modelled:

- **The replay driver** (`simulateReplay`, `countHumans`): modules `ReplayDriver`, `HashCheck`, `IntentTally`
  and `PeakTiles`. The engine is opaque, so its behaviour is an input. `steps[i]` is what the engine does when
  it is given `turns[i]` and stepped once: the one update its tick callback receives, and the game it leaves
  behind (`players()` and `allPlayers()`). The callback's captured variables become the fields of the class
  `HashCheck.TickListener`. The driver's loop is a method whose loop invariants tie every accumulator to a
  specification function of the turns and steps processed so far. The lemmas prove what those functions
  promise:
  - one sample per turn, and each sample's fields;
  - the per-type counters add up to the total;
  - mismatches never outnumber comparisons, and at most 10 are stored, in emission order;
  - the peak map holds the running maximum per player and never decreases.
- **The player summary builder** (`summarizePlayers`): module `PlayerSummary`. The record for each player is a
  pure function. The loop that fills the sparse `unitsOwned` object is a method proved equal to its
  specification. `null` is `None`: an economy column is `None` exactly when the player has no truthy client
  id or no totals entry.
- **The map asset loader** (`FileSystemGameMapLoader`): module `MapLoader`. The loader is a class whose `maps`
  field is reassigned by `GetMapData`. A ghost `Repr` tracks the loaders of every cached entry, and a ghost `owner` map records the map
  each loader belongs to. The cache's invariant keeps every loader valid and no loader shared between two maps,
  so a caller can call a loader of an entry it got from the cache without disturbing any other. Each `lazy` thunk is a `LazyLoader` object with a once-only
  `cachedPromise` cell, and a ghost counter shows that `load` runs at most once. `mapDirName` is a pure lookup.

Two behaviours of the loader code are worth stating:
- `LazyLoader.Call` keeps whatever promise `load()` returned, including a rejected one, as
  `cachedPromise ??= load()` does, so a failed read is never retried.
- `mapDirName` also throws "Unknown map" when the first matching enum key is the empty string, because `!key`
  is true for `""`. `MapDirName` models this.

Because each `ensures` of `SimulateReplay` determines a result field from the turns, the steps and the
expected hashes, two runs over the same input agree on every field.

## Model

| member | source | states |
|---|---|---|
| `ReplayDriver.SimulateReplay` | tools/replay-analyzer/simulateReplay.ts:31-143 | The run fails exactly when some step's update is the error variant. Its message is "Game error: …" from the first such step, and every earlier step succeeded. On success: samples, durations, `totalIntents`, `intentsByType`, hash counters, mismatch samples and `maxTilesBySmallID` each equal the specification function over all turns and steps. |
| `ReplayDriver.CountIntents` | tools/replay-analyzer/simulateReplay.ts:90-96 | After a turn, `totalIntents` and `intentsByType` are those of all turns so far, with this turn's intents added. |
| `ReplayDriver.RecordTick` | tools/replay-analyzer/simulateReplay.ts:103-119 | After a step without error: the peaks cover the new `allPlayers()` snapshots, one duration is appended, and one sample is appended. |
| `ReplayDriver.SamplesMatchTurns` | tools/replay-analyzer/simulateReplay.ts:112-119 | Exactly one sample per turn. Sample i is `SampleAfter(turn i, step i)`: turn i's number and intent count, and step i's tick, duration (0 when absent) and human counts. |
| `ReplayDriver.DurationsMatchSamples` | tools/replay-analyzer/simulateReplay.ts:111-116 | `tickExecutionMsValues` is as long as `samples`, and entry i equals `samples[i].tickExecutionMs`. |
| `ReplayDriver.ReplayNoTurns` | tools/replay-analyzer/simulateReplay.ts:82-89 | A replay of zero turns succeeds with empty samples, zero intents, zero comparisons, no mismatches and an empty peak map. |
| `ReplayDriver.CountHumans` | tools/replay-analyzer/simulateReplay.ts:19-29 | connected-and-alive ≤ alive ≤ number of humans, and spawned ≤ number of humans. |
| `ReplayDriver.NonHumansNotCounted` | tools/replay-analyzer/simulateReplay.ts:24 | Adding a player that is not Human changes none of the three counts. |
| `HashCheck.TickListener.constructor` | tools/replay-analyzer/simulateReplay.ts:43-47 | The callback state starts with zero counters, no samples and no records checked. |
| `HashCheck.TickListener.OnTickUpdate` | tools/replay-analyzer/simulateReplay.ts:55-76 | An error update returns the error and changes nothing. Otherwise the update records duration (0 when absent), tick and conquest events. Both counters then grow by this update's comparisons and mismatches, and the samples are the first 10 of the old samples followed by the new mismatches. |
| `HashCheck.TickListener.CheckRecord` | tools/replay-analyzer/simulateReplay.ts:65-75 | A record is counted as compared only when its tick is expected. A mismatch is counted, and it is stored only while fewer than 10 are stored. |
| `HashCheck.TickListener.CountersBounded` | tools/replay-analyzer/simulateReplay.ts:68-74 | `hashMismatches ≤ hashesCompared`, and the number of stored samples is min(10, `hashMismatches`). |
| `HashCheck.ComparedIn` | tools/replay-analyzer/simulateReplay.ts:65-68 | The comparisons never outnumber the records. |
| `HashCheck.MismatchesIn` | tools/replay-analyzer/simulateReplay.ts:65-74 | Never more mismatches than comparisons. Each mismatch has an expected tick, carries that tick's expected hash, and differs from it. |
| `HashCheck.FirstSamples` | tools/replay-analyzer/simulateReplay.ts:71-73 | The stored samples are a prefix of the mismatches, of length min(10, count). |
| `HashCheck.CheckOneMore` | tools/replay-analyzer/simulateReplay.ts:65-74 | One more record adds 1 comparison exactly when its tick is expected, and adds its mismatch, if any, at the end. |
| `HashCheck.UnexpectedTickIgnored` | tools/replay-analyzer/simulateReplay.ts:66-67 | A record whose tick has no expected hash changes neither the comparisons nor the mismatches. |
| `HashCheck.ComparedInAppend` | tools/replay-analyzer/simulateReplay.ts:65-68 | Comparisons over two batches add up. |
| `HashCheck.MismatchesInAppend` | tools/replay-analyzer/simulateReplay.ts:69-74 | Mismatches over two batches are those of the first followed by those of the second, in emission order. |
| `HashCheck.FirstSamplesSnoc` | tools/replay-analyzer/simulateReplay.ts:71-73 | A new mismatch is stored exactly when fewer than 10 are stored. |
| `HashCheck.FirstSamplesAppend` | tools/replay-analyzer/simulateReplay.ts:71-73 | Sampling across ticks keeps the first 10 mismatches of the whole run. |
| `HashCheck.TwoCheckpointsOneMismatch` | tools/replay-analyzer/simulateReplay.ts:65-74 | With expected {5: 111, 10: 222} and records {5: 111}, {10: 999}: 2 comparisons, and the single mismatch {10, 222, 999}. |
| `IntentTally.CountTurnIntents` | tools/replay-analyzer/simulateReplay.ts:93-96 | The per-type loop counts each intent of the turn in its bucket, on top of the counters before. |
| `IntentTally.TotalIntentsCountsAll` | tools/replay-analyzer/simulateReplay.ts:91 | The sum of `turn.intents.length` is the number of intents of all turns. |
| `IntentTally.TallySumsToTotal` | tools/replay-analyzer/simulateReplay.ts:93-96 | The per-type counters add up to the number of intents counted. |
| `IntentTally.TallyCountsEachType` | tools/replay-analyzer/simulateReplay.ts:94-95 | A bucket is present exactly when some intent falls in it, and it holds that number of intents. An intent without a type falls under "unknown". |
| `IntentTally.TallyMatchesTotal` | tools/replay-analyzer/simulateReplay.ts:91-96 | The counters of `intentsByType` add up to `totalIntents`. |
| `PeakTiles.RaisePeaks` | tools/replay-analyzer/simulateReplay.ts:103-109 | The loop over `allPlayers()` brings the map to the peaks over all snapshots seen, these included. |
| `PeakTiles.PeakMapSnoc` | tools/replay-analyzer/simulateReplay.ts:104-108 | Visiting one more snapshot sets its entry only when its tiles exceed the entry (0 when absent). |
| `PeakTiles.PeakMapIsMaxSeen` | tools/replay-analyzer/simulateReplay.ts:103-109 | Each entry is the maximum tile count seen for that player. A player whose tiles were never above 0 has no entry. |
| `PeakTiles.MaxSeenCovers` | tools/replay-analyzer/simulateReplay.ts:104-107 | The maximum seen is at least every snapshot's tile count. |
| `PeakTiles.PeakCoversObserved` | tools/replay-analyzer/simulateReplay.ts:103-109 | Each player's entry is at least any tile count it was seen with, the current one included. |
| `PeakTiles.MaxSeenGrows` | tools/replay-analyzer/simulateReplay.ts:103-109 | More snapshots never lower a maximum. |
| `PeakTiles.PeakMapNeverDecreases` | tools/replay-analyzer/simulateReplay.ts:103-109 | Entries are never removed and never decrease over later ticks. |
| `PlayerSummary.EconomyColumn` | tools/replay-analyzer/playerSummary.ts:32-67 | A column is `null` exactly when the client id is absent or empty, or has no totals entry. Otherwise it is the matching totals field. |
| `PlayerSummary.ReplayColumn` | tools/replay-analyzer/playerSummary.ts:68-73 | `goldEarnedReplayTotal` is `null` exactly when the client id is absent or empty, or has no replay entry. A stored zero is kept. |
| `PlayerSummary.CollectUnitsOwned` | tools/replay-analyzer/playerSummary.ts:13-19 | `unitsOwned` holds exactly the listed unit types with a count > 0, each mapped to its count. |
| `PlayerSummary.SummarizePlayer` | tools/replay-analyzer/playerSummary.ts:20-75 | Identity and state fields are copied from the player. `tilesOwnedMax` is the peak entry, or the current tiles when there is none. The economy, replay and unit columns follow the rules above. |
| `PlayerSummary.SummarizePlayers` | tools/replay-analyzer/playerSummary.ts:12 | One record per player, in `allPlayers()` order, and none when `allPlayers` is missing. |
| `PlayerSummary.PeakNotBelowFinal` | tools/replay-analyzer/playerSummary.ts:29 | When the peaks were gathered over snapshots that include a player's, that player's `tilesOwnedMax` is at least its tile count. |
| `MapLoader.ToLower` | tools/replay-analyzer/FileSystemGameMapLoader.ts:62 | The result has the same length and no upper-case ASCII letter. Each upper-case letter becomes its lower-case letter, and every other character is kept. |
| `MapLoader.FindKey` | tools/replay-analyzer/FileSystemGameMapLoader.ts:56-58 | The result is the first entry, in key order, whose value is the map id. It is absent exactly when no entry has that value. |
| `MapLoader.MapDirName` | tools/replay-analyzer/FileSystemGameMapLoader.ts:55-63 | Throws "Unknown map: id" exactly when no key matches or the first matching key is empty. Otherwise returns that key, lowercased. |
| `MapLoader.Load` | tools/replay-analyzer/FileSystemGameMapLoader.ts:31-48 | The thumbnail thunk never reads the disk and always yields its path. `readBin` and `readJson` reject exactly when the file is missing; otherwise they yield that file's bytes, as binary data or as the manifest respectively. |
| `MapLoader.LazyLoader.constructor` | tools/replay-analyzer/FileSystemGameMapLoader.ts:23-24 | A new lazy loader has no promise and has run `load` zero times. |
| `MapLoader.LazyLoader.Call` | tools/replay-analyzer/FileSystemGameMapLoader.ts:25-28 | The first call runs `load` once and stores its promise, rejected or not. Later calls return the stored promise and change nothing. `load` never runs more than once. |
| `MapLoader.LazyLoader.CallTwice` | tools/replay-analyzer/FileSystemGameMapLoader.ts:23-29 | Two calls return the same promise, even if the disk changed in between, and `load` has run once. |
| `MapLoader.MapData.constructor` | tools/replay-analyzer/FileSystemGameMapLoader.ts:43-49 | An entry has exactly five fresh, unloaded loaders. They read map.bin, map4x.bin and map16x.bin as bytes and manifest.json as a document, and give the path of thumbnail.webp. All five are under one base directory. |
| `MapLoader.FileSystemGameMapLoader.constructor` | tools/replay-analyzer/FileSystemGameMapLoader.ts:6-12 | A new loader has no cached maps. |
| `MapLoader.FileSystemGameMapLoader.GetMapData` | tools/replay-analyzer/FileSystemGameMapLoader.ts:14-53 | A cached map returns its identical entry and changes nothing. An unknown map throws and caches nothing. Any other map gets a fresh, unloaded entry under `mapsRoot/dir`, and only that key is added to `maps`. Every entry returned has five valid, distinct loaders. |
| `MapLoader.FileSystemGameMapLoader.AddEntry` | tools/replay-analyzer/FileSystemGameMapLoader.ts:43-51 | The new entry has five fresh, distinct, unloaded loaders under `dir`. It is added under its map id alone, and its loaders join `Repr`. |
| `MapLoader.FileSystemGameMapLoader.Insert` | tools/replay-analyzer/FileSystemGameMapLoader.ts:51 | `maps.set(mapId, entry)`: only that key changes, the entry's loaders join `Repr`, and the cache invariant is kept. |
| `MapLoader.FileSystemGameMapLoader.ReadManifest` | tools/replay-analyzer/FileSystemGameMapLoader.ts:14-53 | `getMapData(id).manifest()` fails exactly when the map is uncached and unknown. It then fails with the "Unknown map" message, and `maps` and `Repr` stay as they were. A manifest promise already stored is returned as is. A cached map whose manifest was never read, and a newly cached map, both get the read of that map's `manifest.json`. Either way the promise stays stored, and only fresh loaders join `Repr`. On a cache hit `maps` and `Repr` are unchanged, and only `mapId`'s key can be added. Every earlier loader except this map's manifest loader is left as it was. |
| `MapLoader.FileSystemGameMapLoader.EntriesDisjoint` | tools/replay-analyzer/FileSystemGameMapLoader.ts:23-51 | The cached entries of two different maps share no loader object, since each `getMapData` call builds its own closures. |
| `MapLoader.FileSystemGameMapLoader.ReadManifestLeavesOthers` | tools/replay-analyzer/FileSystemGameMapLoader.ts:14-28 | Reading the manifest of a cached map `a` leaves the cache alone. The other loaders of `a` and the manifest loader of any other map `b` keep their stored promises. |
| `MapLoader.FileSystemGameMapLoader.ReadManifestTwice` | tools/replay-analyzer/FileSystemGameMapLoader.ts:14-29 | Two `getMapData(id).manifest()` calls give the same result, even if the disk changed in between: the same failure, or the same promise. |
| `MapLoader.FileSystemGameMapLoader.GetMapDataTwice` | tools/replay-analyzer/FileSystemGameMapLoader.ts:14-18 | Two requests for the same map get the identical result, and a success stays cached. |

## Left out

- The engine (`createGameRunnerForReplay`, `addTurn`, `executeNextTick`, the player accessors) is given as data, one step per turn, with the callback firing exactly once per step. gameRunnerForReplay.ts, openfrontLoader.ts and openfrontCheckout.ts are not part of this model: they are engine loading, subprocess and file-system plumbing.
- Progress logging (simulateReplay.ts:121-127) is left out. It formats floating-point percentages and wall-clock time, and it never feeds back into the result, so the result is the same with or without it.
- The `runner` and `elapsedMs` fields of the result are left out because they depend on wall-clock time (`performance.now`).
- The `onGameInitialized` and `onAfterTick` hooks are external observers and are treated as no-ops. The callback still records the tick's conquest events in `TickListener`, but nothing reads them.
- `IntentTally.Tally` models `intentsByType` as a fresh dictionary. Property names a plain JavaScript object inherits, such as "constructor", are not modelled.
- Counters are unbounded integers. JavaScript numbers are exact only up to 2^53, far above any replay's counts.
- Durations are `real` values, and only their storage is modelled.
- The string rendering of `type`, `gold` and the economy totals (`String(...)`, `toString()`) is left out: the summary carries the values themselves.
- How economy totals are accumulated, and the clamp on the "earned other" residual, are done by a module that is not part of this model. The totals are an input map.
- In the map loader, file reads are a snapshot of the disk, as a map from path to bytes, taken when a loader first runs.
- A promise is modelled by its settled value, so concurrent callers awaiting one in-flight promise are not distinguished from later callers.
- `MapLoader.Load`: the reason a failed read rejects with is abstract. The model's `"ENOENT: " + path` stands for the error object `fs.readFile` rejects with, and its text is not modelled.
- `JSON.parse` is not modelled, so a malformed manifest cannot fail in the model.
- `Uint8Array` views are plain byte sequences.
- `MapLoader.JoinPath` is `dir + "/" + name`, without `path.join`'s normalisation.
- `MapLoader.ToLower` lowercases ASCII letters only; JavaScript's `toLowerCase` also maps non-ASCII letters.
- HTML report rendering (reportHtml.ts) is presentation and is not part of this model.
