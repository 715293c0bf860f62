# XP tracker: progression and save debounce

This project models the core of a small editor extension that turns coding
activity into experience points. It keeps one persisted `Stats` record with the
fields `xp`, `level`, `streak` and `linesOfCode`. Saving a document awards
10 XP, opening one awards 5 XP and each edit awards 1 XP. `gainXP` adds the
award and then rolls over levels. While the XP reaches the current level's
threshold, it pays that threshold and goes up a level, so one award can climb
several levels. A debounce flag drops every save that arrives while a reset
timer from an earlier rewarded save is still pending.

- `progress.dfy` (module `Progress`) covers the arithmetic as functions: the
  record, its default `{xp: 0, level: 1, streak: 0, linesOfCode: 0}`, the
  rollover loop (`Settle`) and one award (`Gain`). Lemmas prove conservation
  across rollovers, where the loop stops, non-negativity and the concrete
  scenarios.
- `extension.dfy` (module `Extension`) covers the state kept between events as
  the class `Session`. Its fields are the stored record, the `throttleSave`
  flag and the number of pending reset timers. Each host event is a method,
  and the reset timer firing is an explicit event of its own. `GainXP` keeps
  the source's `while` loop and is proved equal to `Gain`.

The per-level threshold `floor(100 * level^1.008)` is computed in floating
point in the source. The model does not compute it. It passes it around as a
function `xpFor: int -> int`. The predicate `IsThreshold` states all the model
assumes about it: the threshold is exactly 100 at level 1 and at least 100 at
every level from 1 on. That lower bound makes each loop iteration lower the
XP by at least 100, so the loop terminates.

`Session.Valid()` is the invariant every event keeps:
- the record is settled, meaning `level >= 1` and `xp` is below the current
  level's threshold;
- the record accounts for every award. The ghost field `earned` starts at
  the total XP of the record found at activation (0 on the first run) and
  grows by each award, and `TotalXP` (the XP left plus the thresholds of
  every level below the current one) equals it;
- a reset timer is pending exactly while `throttleSave` is set, so there is
  never more than one.

`gainXP` never checks its amount, so `Gain` accepts any integer. `Normalised`
(`0 <= xp`) is proved only for non-negative awards, and
`GainNegativeBreaksNormalised` shows an award of -1 breaking it. Every event
handler awards a positive amount, so every event keeps `Normalised`.

## Model

| member | source | states |
|---|---|---|
| `Progress.IsThreshold` | src/extension.ts:82-87 | defines the model of `getXPForNextLevel`: any function `xpFor` that gives exactly 100 at level 1 and at least 100 at every level from 1 on. It is an assumption about the floating-point threshold and carries no ensures of its own |
| `Progress.DefaultIsFreshStart` | src/extension.ts:48 | the default record `DefaultStats` is `{xp: 0, level: 1, streak: 0, linesOfCode: 0}`; it is normalised (`0 <= xp < threshold(1)`) and stands for 0 total XP |
| `Progress.Gain` | src/extension.ts:57-63 | `gainXP`'s update of the loaded record: add the amount to `xp`, then run the rollover loop. The result is settled (its `xp` is below its level's threshold), its level is not lower, and `streak` and `linesOfCode` are untouched |
| `Progress.Settle` | src/extension.ts:60-63 | the rollover loop ends with `level >= 1` and `xp` below that level's threshold (the loop's exit condition); the level never drops; `streak` and `linesOfCode` are untouched |
| `Progress.SettleConserves` | src/extension.ts:57-62 | the XP left plus the thresholds of every level passed (old level up to new level minus 1) equals the XP the loop started with |
| `Progress.SettleStopsAtFirstShortfall` | src/extension.ts:60-63 | the loop stops at the first level whose threshold the remaining XP does not reach; every level before it was paid for in turn; the result's XP is the start XP minus those thresholds, so the level rises by exactly the number of thresholds paid |
| `Progress.FirstShortfallIsSettleLevel` | src/extension.ts:60-63 | conversely, any level meeting that first-shortfall description is the level the loop stops at, so the description determines the result uniquely |
| `Progress.SettleKeepsNonNegative` | src/extension.ts:60-62 | the loop never takes a non-negative XP count below zero |
| `Progress.LevelCostSplit` | src/extension.ts:60-62 | the thresholds paid from level lo to hi are those paid from lo to mid plus those from mid to hi |
| `Progress.LevelCostAtLeast` | src/extension.ts:82-87 | climbing from level lo to hi (lo >= 1) costs at least 100 XP per level |
| `Progress.GainKeepsNormalised` | src/extension.ts:56-66 | on a record with `0 <= xp < threshold(level)`, an award of a non-negative amount leaves `0 <= xp < threshold(level)` and does not lower the level |
| `Progress.GainConservesTotal` | src/extension.ts:56-66 | an award raises the total XP since level 1 (XP left plus the thresholds of all levels below) by exactly the amount |
| `Progress.GainClimbsBoundedLevels` | src/extension.ts:58-62 | a non-negative award climbs at most (xp + amount) / 100 levels |
| `Progress.GainZeroIsIdentity` | src/extension.ts:56-66 | an award of 0 on a settled record leaves the record unchanged |
| `Progress.GainNegativeSkipsLoop` | src/extension.ts:58-60 | a negative award on a settled record never enters the loop: the level stays and `xp` becomes `xp + amount` |
| `Progress.GainNegativeBreaksNormalised` | src/extension.ts:56-66 | from the default record, an award of -1 gives `xp == -1`, which breaks `0 <= xp` |
| `Progress.GainTenFromDefault` | src/extension.ts:47-63 | 10 XP on the default record gives `{xp: 10, level: 1}`: no rollover |
| `Progress.GainRollsOverIntoLevelTwo` | src/extension.ts:56-63 | 10 XP on `{xp: 95, level: 1}` pays the 100 XP threshold and gives `{xp: 5, level: 2}` |
| `Extension.Session.constructor` | src/extension.ts:16 | activation starts with the flag clear and no reset timer pending; the store (read at lines 47-49) holds the record an earlier activation saved (which a `gainXP` loop left settled), or nothing on the first run, in which case `getStats` gives the default record; the ghost total starts at the XP the saved record stands for |
| `Extension.Session.Current` | src/extension.ts:47-49 | defines what `getStats` reads: the stored record, or `DefaultStats` when nothing is stored. It carries no ensures of its own; `GetStats` is proved to return it |
| `Extension.Session.GetStats` | src/extension.ts:47-49 | returns `Current()`: the stored record, or `{xp: 0, level: 1, streak: 0, linesOfCode: 0}` when nothing is stored; it changes nothing, so two calls agree |
| `Extension.Session.GainXP` | src/extension.ts:56-66 | the loop stores exactly `Gain(old record, amount)`; it keeps `Valid()`, so the stored XP is below the new level's threshold and all awards stay accounted for; the level never drops; `streak` and `linesOfCode` are unchanged; a non-negative award keeps `0 <= xp` |
| `Extension.Session.OnDidSave` | src/extension.ts:17-27 | while the flag is set, a save changes nothing; with the flag clear, the stored record becomes exactly one 10 XP award on the old one, the flag is set and one reset timer is pending |
| `Extension.Session.OnTimerFires` | src/extension.ts:24-26 | the pending reset timer clears the flag, leaves no timer pending and leaves the record alone |
| `Extension.Session.OnDidOpen` | src/extension.ts:34-37 | opening a document stores exactly one 5 XP award on the old record and leaves the debounce state alone |
| `Extension.Session.OnDidChange` | src/extension.ts:38-40 | an edit stores exactly one 1 XP award on the old record and leaves the debounce state alone |
| `Extension.RapidSavesAwardOnce` | src/extension.ts:16-27 | two saves in a row on a fresh session give `{xp: 10, level: 1}`: the second save is dropped. After the timer fires, a third save is rewarded again and gives `{xp: 20, level: 1}` |

## Left out

- The floating-point threshold `Math.floor(100 * Math.pow(level, 1.008))` (src/extension.ts:82-87) is not computed. The model assumes only its value at level 1 (100) and its lower bound of 100. Its values above level 1, such as 201 at level 2, and its growth from level to level are not modelled.
- JavaScript numbers are doubles. The model uses unbounded integers, so it does not capture loss of precision above 2^53.
- The 5000 ms delay of the reset timer is not modelled. The timer is an explicit `OnTimerFires` event that can only arrive while a reset is pending.
- The host's key-value store (`globalState.get` and `update`) is a plain field `stored`. A restart is modelled only as a new `Session` built from the saved record. How the host persists it and any aliasing of the returned object are not modelled. `gainXP` works on a copy of the record and writes it back.
- The status bar is not modelled: `clockIn`, `updateStatusBarItem`, `updateStats`'s indicator refresh and `deactivate` (src/extension.ts:6-14, 51-54, 69-73, 89-93). These are UI calls into the host.
- The transient decorations are not modelled: `addEditorDecorations` and `highlightSelectedLine`, with their timers (src/extension.ts:95-151). The selection-change handler (src/extension.ts:41-43) only calls `highlightSelectedLine`, so it is not modelled either.
- Command and event registration and the no-op `test` command (src/extension.ts:29-45) are host wiring.
- `streak` and `linesOfCode` are carried along unchanged. The source never updates them.
