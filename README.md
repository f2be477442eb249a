# Water-management dashboard: the state machine, in Dafny

This project models the state machine of a browser dashboard for a simulated
water-management system (`app.js`). The state holds:

- water tanks with a fill level and filling/draining switches;
- three pumps, four valves and two alerts;
- a flow-rate reading with its peak;
- the theme preference and the auto/manual mode;
- the two quick-action modes, Fill All and Empty All.

The handlers that change this state are methods of one class,
`App.Dashboard`. Rendering is not modelled. The rules these handlers apply
are pure functions, with lemmas about them, in the modules:

- `Lookup`: finding a record by id, as `Array.prototype.find` does.
- `Themes`: the theme cycle.
- `Tanks`: tank records, level clamping, the "Est. Full" label, one
  simulation tick per tank, the quick-action effect per tank, and the
  defaults of a new tank.
- `Valves`: valve records and snapping a typed percentage to a dial step.
- `Flow`: pump records and the flow reading.
- `Alerts`: alert records and dismissing an alert.

Scaling and parameters:

- A tank level is an `int` in hundredths of a percent. 0 is empty and
  10000 is 100%. The per-tick changes +0.5, -0.3 and -0.05 percent are +50,
  -30 and -5. The initial levels 65 and 40 are 6500 and 4000.
- Flows are `real` liters per minute.
- Each `Math.random()` draw is a `real` parameter in [0, 1).
- The stored theme preference is a parameter of the constructor. The empty
  string means "nothing stored".
- One call of `Tick` is one firing of the 3-second simulation interval.
- One call of `UpdateFlowRate` is one flow update, whether it comes from the
  5-second interval or from a handler.

The invariant `Valid()` holds after every operation. It says:

- every level is in [0, 100%];
- tank ids are distinct and below `nextTankId`;
- Fill All and Empty All are never both on;
- pump 1 exists;
- every pump is consistent: enabled exactly when active, with a flow from
  8 to 18 when on and 0 when off;
- valve ids are distinct, and so are alert ids;
- the flow reading is non-negative and at most its peak.

## Model

| member | source | states |
|---|---|---|
| `Lookup.FirstIndexOf` | app.js:169-171 | The record `find` returns: none exactly when no record has the id, otherwise the first position holding it |
| `Themes.IndexOf` | app.js:106-107 | `indexOf`: -1 exactly when the theme is not in the list, otherwise the first position holding it |
| `Themes.NextTheme` | app.js:105-108 | The next theme is always light, dark or system; a stored value outside the list becomes light |
| `Themes.ThemeCycle` | app.js:105-108 | The button moves light to dark, dark to system, and system to light |
| `Themes.ThreeTogglesReturn` | app.js:105-108 | Three presses from a listed theme return to it |
| `Themes.UnknownThemeJoinsCycle` | app.js:105-108 | An unlisted theme goes to light, and four presses bring it back to light |
| `Tanks.Clamp` | app.js:173 | The clamped level lies in [0, 100%], equals the raw value inside that range, and is 0 below it and 100% above it |
| `Tanks.EstFullTime` | app.js:155-167 | Full exactly at 100% or more; "--" exactly for an idle tank below 100%; for a filling tank, the remaining percent over 1.5 rounded half up; for a draining tank, the level over 2 rounded half up (both as bounds on the minutes) |
| `Tanks.TickTank` | app.js:887-917 | A ticked tank keeps its id, name and capacity; it is still filling only if it was and is below 100%; it is still draining only if it was and is above 0% |
| `Tanks.TickLevel` | app.js:888-897 | For a level in range the new level stays in range, and it rises only when the tank fills with pump 1 on, by at most 0.5 |
| `Tanks.TickTankEffect` | app.js:887-917 | For a level in range, one tick: keeps it in range; raises it only when filling with pump 1 on below 100%, and then to the clamped level plus 0.5; otherwise lowers a draining tank above 0% to the clamped level minus 0.3, and never by more; leaves a flagged tank that can neither fill (pump 1 off, or already at 100%) nor drain (not draining, or already at 0%) where it is; leaks an idle tank by 0.05; leaves no tank filling at 100% or draining at 0% |
| `Tanks.FillAllEffect` | app.js:566-589 | Only the two flags change: with Fill All on, a tank below 100% ends filling and not draining; any other tank ends not filling, its draining untouched |
| `Tanks.EmptyAllEffect` | app.js:612-635 | Only the two flags change: with Empty All on, a tank above 0% ends draining and not filling; any other tank ends not draining, its filling untouched |
| `Tanks.DecimalString` | app.js:236 | The decimal text of the id in a default tank name is non-empty, all digits, without a leading zero unless it is "0", and reads back as the id (`DigitsValue`) |
| `Tanks.DefaultTankName` | app.js:236 | The default name is "Tank " followed by digits, without a leading zero unless the id is 0, that read back as the id |
| `Tanks.DefaultNamesDiffer` | app.js:236 | Different ids give different default names |
| `Tanks.RequestedCapacity` | app.js:762 | The submitted capacity is never 0: a non-zero parsed value is kept, and 0 or an unparsable field gives 1000 |
| `Tanks.CapacityAccepted` | app.js:764 | The form's range check: from 100 to 100000 liters |
| `Tanks.RequestedCapacityAccepted` | app.js:762-764 | A blank, unparsable or zero field gives 1000, which is accepted; a typed non-zero value is accepted exactly when it lies from 100 to 100000 |
| `Tanks.NewTank` | app.js:234-247 | The new tank has the given id, level 0 and both flags off; its name is the given one, or "Tank <id>" (`DefaultTankName`) when blank; its capacity is the given one, or 1000 when 0 |
| `Valves.NearestStep` | app.js:437-446 | The closed form of the snap always gives one of the steps 0, 25, 50, 75, 100 |
| `Valves.NearestStepIsNearest` | app.js:434-446 | The closed form of the snap is a dial step, no farther from the input than any step, and strictly nearer than every lower step |
| `Valves.NearestStepUnique` | app.js:437-446 | Only one step can meet that specification, so the snap is determined by it |
| `Valves.SnapToStep` | app.js:434-446 | The scan over 0, 25, 50, 75, 100 returns the nearest step; a tie would keep the lower step, because only a strictly smaller distance replaces the choice; the result equals the closed form |
| `Valves.SnapEdges` | app.js:434-446 | A value on a step is kept; a value below 0 snaps to 0; a value above 100 snaps to 100 |
| `Flow.PumpFlow` | app.js:368 | A started pump reports a flow from 8 up to 18 |
| `Flow.Switched` | app.js:365-368 | A switched pump is enabled as asked; active with a flow when on; inactive with flow 0 when off |
| `Flow.Jitter` | app.js:480 | The noise added to the reading lies in [-1, 1) |
| `Flow.NonNegative` | app.js:480 | The reading is never negative and never below the raw value |
| `Flow.EnabledFlow` | app.js:465-471 | The forEach total of the enabled pumps' flows; its properties are `EnabledFlowNonNegative` and `StoppedPumpsGiveNoFlow` |
| `Flow.Passing` | app.js:474 | The filter of the valves that count: open with a positive percentage |
| `Flow.OpenCount` | app.js:474-476 | The number of valves the filter keeps, never more than there are valves |
| `Flow.OpenSum` | app.js:475-476 | The reduce over the kept valves' percentages; bounded by `OpenSumBounds` |
| `Flow.Throttle` | app.js:475-478 | Scaling by the average opening when a valve counts, none otherwise; bounded by `ThrottleBounds` |
| `Flow.ScaledFlow` | app.js:464-478 | The enabled pumps' flow throttled by the counted valves; bounded by `ScaledFlowBounds` |
| `Flow.PeakAfter` | app.js:486-490 | The peak after a series of flow updates never falls below the starting peak |
| `Flow.PeakAfterIsMax` | app.js:486-490 | That peak is at least every reading of the series and is either the starting peak or one of the readings: their maximum |
| `Flow.LatestReading` | app.js:480 | Defined as the last reading of a series of updates, or the current one when there was none; its properties are `LatestReadingConcat` and `App.ClosedReading` |
| `Flow.PeakAfterStep` | app.js:486-490 | One more reading raises the peak to it exactly when it exceeds the peak so far |
| `Flow.PeakAfterConcat` | app.js:486-490 | Two series of updates in a row leave the peak the joined series leaves |
| `Flow.LatestReadingConcat` | app.js:480 | Two series of updates in a row leave the reading the joined series leaves |
| `Flow.EnabledFlowNonNegative` | app.js:465-471 | The summed flow of the enabled pumps is non-negative when every pump's flow is |
| `Flow.OpenSumBounds` | app.js:474-476 | With no valve beyond 100%, the open valves' percentages sum to between 1 and 100 per counted valve |
| `Flow.ThrottleBounds` | app.js:476-477 | Scaling by an average opening of at most 100% keeps a flow between 0 and its unscaled value |
| `Flow.ScaledFlowBounds` | app.js:464-480 | With non-negative pump flows and no valve beyond 100%, the valves only throttle, and the reading stays below the pumps' sum plus 1 |
| `Flow.ClosedValvesDoNotScale` | app.js:474-478 | With every valve closed, no valve counts and the pump flow is not scaled |
| `Flow.StoppedPumpsGiveNoFlow` | app.js:467-471 | With every pump switched off, the summed pump flow is 0 |
| `Alerts.Dismiss` | app.js:496-499 | Only dismissed flags change; every alert with another id is unchanged; when an alert has the id, an alert with that id ends dismissed |
| `Alerts.DismissKeepsIds` | app.js:496-499 | Dismissing changes no alert id |
| `Alerts.DismissIdempotent` | app.js:496-499 | Dismissing the same id twice equals dismissing it once |
| `Alerts.DismissOnlyMatching` | app.js:496-499 | With distinct ids, exactly the alert with that id becomes dismissed, and nothing else changes |
| `Alerts.DismissUnknown` | app.js:496-499 | An id that no alert carries changes nothing |
| `App.StopFirst` | app.js:661-668 | After the pump pass has reached position `k`, every pump keeps its id and name; each earlier pump whose id is not 3 is off, inactive and without flow; every other pump is as it was |
| `App.StopFirstStep` | app.js:662-667 | Reaching one more pump switches it off, unless its id is 3 |
| `App.SwitchedOffCount` | app.js:663 | How many of the first `k` pumps have an id other than 3: at most `k` |
| `App.NoExemptStopsAll` | app.js:663 | Without pump 3 among the first `k`, all `k` are switched off |
| `App.OneExemptStopsAllButOne` | app.js:662-667 | With distinct ids and pump 3 among the first `k`, exactly `k - 1` are switched off |
| `App.StopReadings` | app.js:661-668 | The pump pass produces at most one reading per pump, and every reading is non-negative; `StopReadingsCount` gives the exact number |
| `App.StopReadingsCount` | app.js:662-667 | The pump pass produces exactly one reading for each pump it switches off (each `updatePumpState` runs the flow update once) |
| `App.StopAdvance` | app.js:661-668 | One more pump: switched off with one more reading, or, for pump 3, nothing changes; the pass state moves from `k` to `k + 1` |
| `App.CloseFirst` | app.js:691-694 | After the valve pass has reached position `k`, every valve keeps its id and name; each earlier valve is closed at 0%; every later one is as it was |
| `App.CloseFirstStep` | app.js:692-693 | Reaching one more valve closes it at 0% |
| `App.CloseReadings` | app.js:691-694 | The valve pass produces exactly one reading per valve |
| `App.CloseAdvance` | app.js:691-694 | One more valve: it is closed and adds one reading; the pass state moves from `k` to `k + 1` |
| `App.EmergencyFlow` | app.js:659-698 | The pump pass followed by the valve pass leaves the peak and reading of the joined series, and the last reading is the pump flow plus its noise (`StopFlow`) |
| `App.ClosedReading` | app.js:691-694 | Once every valve is closed, the last reading is the unscaled pump flow plus the last noise |
| `App.AllClosedAgree` | app.js:691-694 | After the valve pass, every valve's open flag agrees with its percentage |
| `App.CloseOnly` | app.js:391-395 | With distinct ids, the update found by valve `j`'s id closes valve `j` and no other |
| `App.Dashboard.constructor` | app.js:13-56 | The initial state: two tanks at 65% and 40%, next id 3, three pumps, four valves, two alerts, reading 12.5 with peak 18.2, auto mode on, both quick actions off (app.js:512-513); the stored theme when there is one, else system (app.js:68-71). The invariant holds |
| `App.Dashboard.ToggleTheme` | app.js:105-108 | The theme becomes its successor in the cycle |
| `App.Dashboard.ToggleAutoMode` | app.js:642-643 | The mode flips |
| `App.Dashboard.UpdateTankLevel` | app.js:169-173 | The tank with that id gets the clamped sum of its level and the delta. Every other tank is unchanged, and an unknown id changes nothing |
| `App.Dashboard.FillTank` | app.js:192-201 | A tank below 100% has its filling switch toggled; a full tank is refused; every other tank is unchanged |
| `App.Dashboard.EmptyTank` | app.js:213-222 | A tank above 0% has its draining switch toggled; an empty tank is refused; every other tank is unchanged |
| `App.Dashboard.AddNewTank` | app.js:234-249 | The new tank is appended under the old next id, and the next id grows by one. It starts empty and idle, named "Tank <id>" when no name is given and with 1000 liters when the capacity is 0. Existing tanks are unchanged, ids stay distinct, and the reading is then updated (app.js:334) |
| `App.Dashboard.ConfirmAddTank` | app.js:760-770 | The tank is added exactly when the requested capacity is from 100 to 100000 liters; otherwise the state is untouched |
| `App.Dashboard.UpdatePumpState` | app.js:365-384 | Only the pump at that index is switched; switched off, its flow is 0 and it is inactive; then the reading is updated |
| `App.Dashboard.UpdateValveState` | app.js:390-395 | The valve with that id takes the percentage and open flag; the others and all ids are unchanged; valve consistency is kept when the pair agrees; then the reading is updated (app.js:426) |
| `App.Dashboard.HandleDialClick` | app.js:429-432 | The valve takes the dial value and is open exactly when that value is positive; valve consistency is kept |
| `App.Dashboard.HandleInputChange` | app.js:434-450 | The valve takes the nearest step to the typed value and is open exactly when that step is positive; valve consistency is kept |
| `App.Dashboard.HandleValveToggle` | app.js:452-459 | An existing valve flips: opening sets 100%, closing sets 0%. An unknown id changes nothing, not even the reading |
| `App.Dashboard.UpdateFlowRate` | app.js:464-491 | The reading is the enabled pumps' flow, scaled by the open valves' average opening, plus noise, never below 0. The peak rises to the reading when exceeded and otherwise stays |
| `App.Dashboard.SumEnabledFlow` | app.js:465-471 | The loop's total is the summed flow of the enabled pumps |
| `App.Dashboard.SumOpenValves` | app.js:474-476 | The loop counts the valves that are open with a positive percentage and sums their percentages |
| `App.Dashboard.DismissAlert` | app.js:496-499 | The alerts become `Dismiss` of the old alerts: that alert is marked, and the call is idempotent |
| `App.Dashboard.FillAllTanks` | app.js:550-589 | Fill All flips and Empty All ends off, so the two are never both on. If Fill All ends on, every tank below 100% is filling and not draining and every full tank is not filling; if it ends off, no tank is filling. Starting the mode while Empty All was on first clears every tank's draining |
| `App.Dashboard.EmptyAllTanks` | app.js:596-635 | The mirror image of Fill All, with filling and draining swapped and 0% in place of 100% |
| `App.Dashboard.EmergencyStop` | app.js:659-698 | Every pump but pump 3 is off with flow 0; no tank fills or drains; both quick actions are off; every valve is closed at 0%. The flow readings are those of the pump pass followed by those of the valve pass (`StopFlow`): the peak is the old peak raised by each in turn, the reading is the last of them, and with at least one valve the final reading is the remaining pump flow plus the last noise |
| `App.Dashboard.StopPumps` | app.js:661-668 | Every pump whose id is not 3 is switched off; pump 3 is untouched. Each switch-off updates the reading (app.js:384), so the peak is the old peak raised by each of those readings in turn and the reading is the last of them |
| `App.Dashboard.StopPumpAt` | app.js:662-667 | One step of the pump pass: the pump is switched off with one more reading, unless it is pump 3; the pass state moves on by one |
| `App.Dashboard.HaltPumpsAndTanks` | app.js:661-679 | The pump pass, then every tank and both quick-action modes stop filling and draining |
| `App.Dashboard.ClearTankFlags` | app.js:670-674 | Every tank ends neither filling nor draining, its level untouched |
| `App.Dashboard.CloseValves` | app.js:691-694 | Every valve ends closed at 0%, with its open flag agreeing. Each closure updates the reading (app.js:426), so the peak is the old peak raised by each of those readings in turn and the reading is the last of them; with all valves closed it is the unscaled pump flow plus the last noise |
| `App.Dashboard.CloseAll` | app.js:691-694 | The loop of the valve pass: every valve is closed, with the peak and reading of its readings |
| `App.Dashboard.CloseValveAt` | app.js:692-693 | One step of the valve pass: the valve is closed with one more reading; the pass state moves on by one |
| `App.Dashboard.Tick` | app.js:884-919 | Every tank moves by one `TickTank` step with pump 1 as it is. Levels stay in range, and no tank is left filling at 100% or draining at 0% |
| `App.Dashboard.TickTankAt` | app.js:887-917 | Only the tank at that position changes, to its ticked state |
| `App.Dashboard.MoveTankLevel` | app.js:888-897 | Only that tank's level changes, by 0.5 up, 0.3 down, 0.05 down or not at all, through the clamped update |

## Left out

- Rendering is not modelled: card HTML, button styling, DOM lookups, event
  wiring, toasts, the injected CSS, the dial/input/badge updates in the valve
  handler, and the attribute `applyTheme` sets. They hold no state the
  handlers read back.
- The low-level warning toast in the level update (app.js:187-189) is not
  modelled. It only shows a message, and it reads the first alert whatever
  tank is low.
- `applyTheme` and the system-theme listener (app.js:76-103) are not
  modelled. They depend on the browser's colour-scheme query and set nothing
  in the state.
- The theme is not written back to local storage (app.js:110). Only reading
  the stored value at start-up is modelled, as a constructor parameter.
- Timer scheduling is not modelled (app.js:863, 881, 884). Each firing is one
  method call. The "last update" text (app.js:866-880) is not modelled: it
  depends on the clock and is display only.
- The emergency stop's confirmation dialog (app.js:660) is not modelled.
  Only the confirmed branch is.
- `flowAvg`, `lastUpdate` and each tank's `icon` are not modelled. They are
  set once; `lastUpdate` is read only by the display timer (app.js:870), and
  the other two are never read by any handler.
- `App.Dashboard.ConfirmAddTank` takes the name already trimmed and the
  capacity already parsed (`None` stands for NaN). `trim` and `parseInt` are
  not modelled. The dial and input handlers likewise take integer values.
- `Flow.PumpFlow` does not model the `toFixed(1)` rounding of a started
  pump's flow, nor the string/number round-trip through `parseFloat`
  (app.js:368, 469). The flow is the unrounded `8 + 10 * draw`.
- `Tanks.Clamp` does not model floating-point rounding drift. Levels and
  flows are exact here, while the source holds them as doubles, so after
  many ticks a source level can differ from the model in its last bits.
  Every constant the source uses is a whole number of hundredths, so the
  model is exact.
- `App.Dashboard.UpdateValveState` requires the valve id to exist. The
  source updates only a valve it found, but then reads that valve's name
  unconditionally (app.js:423), which throws for an unknown id. No caller
  passes an unknown id: the dial and input handlers use the four fixed ids,
  and the toggle checks first.
- `App.Dashboard.UpdatePumpState` requires a valid pump index, because the
  source indexes `pumps` without a check (app.js:366).
- Valve percentages are not checked against the dial steps. The typed-value
  handler snaps to 0, 25, 50, 75 or 100 (app.js:435), but a dial click stores
  whatever value its button carries (app.js:429-432), so this model keeps any
  integer there. Only the typed-value path snaps, and for it the step
  property is proved. The valve open flag agrees with the percentage
  (`ValvesConsistent`) for every handler. It is not part of `Valid()`,
  because the underlying update accepts any pair.
- With integer inputs (`parseInt` results), a tie between two steps cannot
  occur, since steps are 25 apart. The tie rule is still stated in
  `IsNearestStep`.
