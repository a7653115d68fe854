# CatOS state engine in Dafny

CatOS ("9.lives") is a joke desktop whose user is a cat. Most of `catos.js`
builds DOM, but the `CatOS` class also holds a small state engine, and that is
what this project models. Its state is the attention level, the current
priority, the list of open windows, the shared `windowId` counter, the log
buffer, the zoomies flag, the log panel's minimized flag and the process table.
Timers drive it: attention decay, priority redraw and process simulation. The
user drives it too: opening and closing windows, raising them, playing with
the yarn ball and toggling the log panel.

All of this is the class `Desktop.CatOS` (`desktop.dfy`). Every timer firing
and every user action that changes the engine's state is one method on it. Each `Math.random()` call becomes a
`real` parameter in [0, 1) (`Draws.IsDraw`). The formatted clock text becomes a
`time: string` parameter. The methods keep an object invariant, `Valid()`:

- attention is never above 100;
- the log holds at most 50 entries;
- window ids strictly increase along the list;
- every id and z-index is at most `windowId`;
- all five processes are present with their fixed names.

Each method's new state is stated through the pure functions of the component
modules. Those modules carry the lemmas:

- `LogBuffer` (log_buffer.dfy): the log buffer.
- `Windows` (windows.dfy): the window registry and z-index raising.
- `Vitals` (vitals.dfy): attention arithmetic and the weighted priority redraw.
- `ProcessTable` (process_table.dfy): the process table.
- `CrashOverlay` (crash_overlay.dfy): the crash progress loop.
- `Draws` (draws.dfy): the `Math.floor(Math.random() * n)` bucket.

`Desktop.WindowSession` and `Desktop.AttentionSession` are client methods that
drive a fresh desktop through a short sequence of calls using only the
contracts. One opens, raises and closes windows. The other runs decay ticks,
a yarn play and lost-interest penalties.

The model follows what the code does, including these points where it is easy
to expect something else:

- "Lost interest" takes 20 off attention and does not clamp
  (catos.js:97), so attention can go below 0 until the next decay tick
  clamps it. `Valid()` therefore keeps only the upper bound. The range
  [0, 100] is proved for decay and yarn together (`Vitals.ReplayStaysInRange`).
- `closeWindow` returns nothing (catos.js:205-213). The model states
  instead whether the id was open and what changed.
- A newly opened window gets no inline z-index (`Windows.ZIndex.Auto`). Only
  a raise assigns `++windowId` as its z-index. `Windows.Level` counts an unset
  one as 0, so `RaiseMakesTopmost` compares the counter values handed out, not
  the browser's stacking order (catos.js:190, 228).
- `triggerBSOC` has no guard against a second crash sequence
  (catos.js:518-548).
- `triggerZoomies` itself has no guard. The only check is the
  `!this.isZooming` at its one call site (catos.js:482).
- The crash step is `Math.floor(r * 15) + 5`, an integer in [5, 19]; 20 is
  never reached.
- A redrawn process load is `Math.floor(r * 100)`, in [0, 99]; 100 is never
  reached.

## Model

| member | source | states |
|---|---|---|
| `Draws.Bucket` | catos.js:476-477 | `Math.floor(r * n)` for a draw `r` is an index below `n` whose slice `[k/n, (k+1)/n)` holds `r` |
| `LogBuffer.Prepend` | catos.js:554-556 | the new entry is at the head, old entry `i` is at `i + 1`, and the length grows by one only while below 50 (the oldest entry is dropped otherwise) |
| `LogBuffer.PrependAllKeepsNewest` | catos.js:550-557 | from a log within the cap, any run of calls leaves the newest entries most recent first, then the old log, cut to 50 |
| `LogBuffer.FiftyOneCallsEvictTheFirst` | catos.js:554-556 | after 51 calls the log is exactly the last 50 entries, newest first: the first call's entry is gone and the 51st is at index 0 |
| `Windows.WindowConfig` | catos.js:103-143 | an app name has a configuration exactly when it is the key of one of the six apps, and the configuration found is that app's; names inherited from `Object.prototype` are not covered (see Left out) |
| `Windows.WindowConfigOfKey` | catos.js:104-142 | each of the six keys finds its own app |
| `Windows.FindIndex` | catos.js:206 | `find` by id: the first index holding the id, or -1 when no entry has it |
| `Windows.Without` | catos.js:209 | the filter never lengthens the list |
| `Windows.WithoutMembers` | catos.js:209 | exactly the entries with another id survive the filter |
| `Windows.WithoutAbsent` | catos.js:205-213 | filtering an id that is not open leaves the list unchanged |
| `Windows.WithoutPresent` | catos.js:209 | with increasing ids, closing the id at position `k` removes exactly that entry and keeps the others in order |
| `Windows.WithoutTwice` | catos.js:205-213 | closing the same id twice leaves the list as closing it once |
| `Windows.WithoutKeepsWellFormed` | catos.js:209 | closing keeps ids increasing and within the counter, and the id is no longer open |
| `Windows.OpenKeepsWellFormed` | catos.js:86-88 | appending `windowId + 1` keeps ids increasing, distinct and at most the counter |
| `Windows.Raise` | catos.js:226-228 | the list keeps its length and every entry keeps its id, app and shake flag; an entry that changes has the raised id and gets z-index `level`; an open id does get it |
| `Windows.RaiseMakesTopmost` | catos.js:226-229 | raising to `windowId + 1` gives the window a level above every id and z-index handed out before, its own included; every other entry is unchanged |
| `Windows.RaiseAbsent` | catos.js:226-229 | a raise of an id with no entry changes nothing |
| `Vitals.Decayed` | catos.js:405-406 | after a decay tick attention is at least 0, has lost less than 5, and is either 0 or the old value minus `5r` |
| `Vitals.Boosted` | catos.js:375-376 | after yarn attention is at most 100 and is either 100 or the old value plus 10 |
| `Vitals.ReplayStaysInRange` | catos.js:403-415 | any sequence of decay ticks and yarn plays keeps attention within [0, 100] |
| `Vitals.PickIsSlice` | catos.js:423-432 | weighted selection picks the slice of the cumulative weights that holds the draw |
| `Vitals.PriorityWeightsSumToOne` | catos.js:423-432 | the weights 0.4, 0.25, 0.2 and 0.15 add up to 1 |
| `Vitals.PriorityFor` | catos.js:424-432 | the priority chosen is the one whose slice of the cumulative weights 40/25/20/15% holds the draw |
| `Vitals.PriorityFollowsWeights` | catos.js:423-432 | the thresholds 0.4/0.65/0.85 select, for every draw, what weighted selection over food 40%, chaos 25%, sleep 20% and affection 15% selects |
| `Vitals.PriorityMonotone` | catos.js:423-432 | a larger draw never selects an earlier priority |
| `ProcessTable.KeyIndex` | catos.js:473 | each key has its own position in the table's key order |
| `ProcessTable.CpuFor` | catos.js:477 | a redrawn load is a whole percentage in [0, 99] |
| `ProcessTable.Perturb` | catos.js:474-478 | an entry drawn at or above 0.2 is unchanged; a selected one gets the state whose quarter of [0, 1) holds its status draw, and the load `Math.floor(r * 100)` in [0, 99]; the name never changes |
| `ProcessTable.Perturbed` | catos.js:473-479 | a tick keeps the key set and every name, so a complete table stays complete |
| `ProcessTable.InitialTable` | catos.js:17-23 | every entry of the constructor's table carries its key's fixed name and a load in [0, 99] |
| `ProcessTable.InitialTableIsComplete` | catos.js:17-23 | the initial table has all five keys with their names |
| `CrashOverlay.Reason` | catos.js:532 | the reason is one of the six codes, chosen by the draw's slice |
| `CrashOverlay.Increment` | catos.js:537 | a crash step is an integer in [5, 19] |
| `CrashOverlay.Advance` | catos.js:537-540 | a tick never passes 100, is exactly 100 iff the sum reaches 100, and otherwise adds the step |
| `CrashOverlay.RunProgress` | catos.js:535-547 | the progress loop started at 0 terminates; the counter strictly increases, each value follows from the previous one by one tick, only the last value is 100, and there are between 6 and 20 ticks |
| `Desktop.CatOS.constructor` | catos.js:3-37 | the initial fields and the three log entries of `init`, newest first |
| `Desktop.CatOS.AddLog` | catos.js:550-557 | the log becomes `Prepend` of the old log, so it stays within 50 |
| `Desktop.CatOS.OpenApp` | catos.js:82-101 | an unknown name changes nothing; otherwise `windowId` goes up by 1 and `{windowId, appName}` is appended; reports whether the lost-interest timer was scheduled (draw below 0.2) |
| `Desktop.CatOS.LostInterest` | catos.js:95-99 | logs a warning and takes exactly 20 off attention, with no clamp |
| `Desktop.CatOS.CloseWindow` | catos.js:205-213 | the list becomes the old list filtered by id; logs only when the id was open; a second close changes neither windows nor logs |
| `Desktop.CatOS.HeaderMouseDown` | catos.js:186-191 | `windowId` goes up by 1 and becomes the window's z-index, above every other window's; nothing else changes |
| `Desktop.CatOS.TaskbarClick` | catos.js:224-230 | an open id is raised as by the header; an id with no entry changes nothing |
| `Desktop.CatOS.PlayWithYarn` | catos.js:374-377 | logs success and sets attention to `Boosted` of the old value |
| `Desktop.ChaosEntry` | catos.js:513-514 | an error entry at the given time whose message is "CHAOS: Destroyed " followed by the target whose seventh of the draw holds it |
| `Desktop.CatOS.TriggerRandomChaos` | catos.js:512-516 | logs one error entry naming the drawn target |
| `Desktop.CatOS.AttentionDecayTick` | catos.js:403-415 | attention becomes `Decayed`; the critical error is logged exactly when the result is below 20, then chaos when its draw is below 0.3 |
| `Desktop.CatOS.PriorityTick` | catos.js:421-435 | the new priority is `PriorityFor(r)`, whatever the old one was |
| `Desktop.CatOS.SimulateProcesses` | catos.js:473-479 | the loop over the keys leaves exactly `Perturbed(old table, draws)` |
| `Desktop.CatOS.SetShaking` | catos.js:499-501 | the loop over the windows sets every window's shake flag and changes nothing else |
| `Desktop.CatOS.TriggerZoomies` | catos.js:493-502 | sets the flag, logs the activation, and shakes every open window |
| `Desktop.CatOS.ZoomiesConcluded` | catos.js:503-509 | stops every shake, clears the flag and logs the conclusion |
| `Desktop.CatOS.TriggerBSOC` | catos.js:518-548 | returns `Reason(reasonDraw)`; the trace is the chain of `Advance` steps over the progress draws, strictly increasing, reaching exactly 100 in 6 to 20 ticks; then logs the recovery |
| `Desktop.CatOS.ProcessSimulationTick` | catos.js:470-491 | perturbs the table; zoomies start only when the draw is below 0.05 and none is running, so the flag becomes old flag or draw below 0.05; a crash runs exactly when its draw is below 0.01, and then it returns `Reason(reasonDraw)` and the strictly increasing `Advance` chain of the progress draws ending at 100 in 6 to 20 ticks, and logs the recovery at `recoveryTime` |
| `Desktop.CatOS.ToggleLogs` | catos.js:574 | the minimized flag flips |

## Left out

- Rendering is left out, since it is presentation with nothing to check:
  `createWindow`'s markup, `renderLogs`, `updateTaskbar`, `updateAttentionMeter`,
  `updatePriorityIndicator`, `showNotification`, `showPawPrint`, the shake
  keyframes and the content and icon templates.
- Window dragging is left out except for the z-raise on header mousedown,
  which `HeaderMouseDown` models. The offsets and `mousemove`/`mouseup` are
  pixel glue.
- The app templates and their random numbers are left out. Of
  `getWindowConfig` only the key set matters to the engine.
- The yarn score text is left out: it is parsed from and written to the DOM.
- Clock and timestamp formatting are left out. `time` is an opaque string.
- Timers are left out. Each `setInterval`/`setTimeout` firing is an explicit
  method call, and their delays are not modelled. `OpenApp` only reports that the
  lost-interest timer was scheduled. Its firing is `LostInterest`, which a
  caller may invoke at any time.
- The crash sequence's interleaving is left out. `TriggerBSOC` runs the
  progress loop and the recovery log as one step, so log entries from other
  timers between its ticks are not modelled. Neither are two crash sequences
  running at once, which the missing guard allows. The overlay's visibility
  and percent text are DOM; the displayed values are the returned `trace`.
  Each `addLog` stamps its own clock reading (catos.js:551-552). The model
  passes the recovery entry's time separately (`recoveryTime`), because it is
  written 4 to 11 seconds after the tick that starts the crash. Entries logged
  together in one synchronous call share one `time`.
- `Math.random()` is a parameter, and draws are reals. There is no IEEE
  rounding, so `0.4 + 0.25` is exactly `0.65`.
- Event wiring is left out. This covers the icon double-click and its "Launched"
  log, the start menu, the desktop click, the minimize and maximize buttons
  of a window with their log entries (catos.js:168-173), and the keyboard
  intercept with its 30% and 10% draws. What these handlers call (`openApp`, `addLog`,
  `triggerRandomChaos`) is modelled.
- `startRandomEvents` (catos.js:447-468) and `toggleBox` (catos.js:380-390)
  are not part of this model. Each only adds one log entry.
- The three delayed greeting logs of `init` (catos.js:40-42) are left out.
  Each is a plain `addLog` from a timer.
- Windows.WindowConfig: names that `configs[appName]` finds through
  `Object.prototype` (`"toString"`, `"constructor"`, `"__proto__"` and the like)
  are treated as unknown and find no configuration. In the code they are found.
  The only caller passes an icon's `data-app` attribute (catos.js:49). The
  markup holding those attributes is not part of this model, and the engine's
  own promise is stated over the six app keys.
- Desktop.CatOS.OpenApp: for such an inherited name the code allocates an id
  and appends a window (catos.js:84-88). The model changes nothing, as for any
  other unknown name.
- Windows.Without: the function's own contract states only the length bound.
  Membership, order and idempotence are separate lemmas (`WithoutMembers`,
  `WithoutPresent`, `WithoutTwice`), which keeps the proofs within the
  resource limit.
