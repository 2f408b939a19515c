# VitalViz sampling engine, modelled in Dafny

VitalViz has three system monitors: a feature-rich GUI (`vitalviz_gui.py`), a basic GUI
(`system_dashboard_gui.py`) and a terminal dashboard (`system_dashboard.py`). Each one repeats
the same small sampling engine inside its UI code. Once per tick the engine:

- reads the clock, the per-core CPU usage, memory, disks and the network counters;
- pushes the new values onto bounded history lists (the two GUIs);
- turns two readings of the cumulative network counters into per-second rates;
- sets `prev_net_io` and `prev_time` to the tick's values.

Around the engine sit a handful of pure presentation rules: the byte-size formatter, the colour
buckets, the CPU bar, and the uptime display. The rich GUI adds threshold alerts with
hysteresis, CSV export of the histories, a reset and a settings dialog.

The model has these modules:

- `Errors`: the two Python exceptions the engine can raise, and a `Result` type.
- `Counters`: the rate formula, with its division by the elapsed time.
- `History`: the bounded push, as used by both GUIs.
- `Sampling`: the pushes and rates of one tick, shared by both GUIs.
- `Alerts`: `check_thresholds`.
- `Classify`: colours and the CPU bar.
- `SizeFormat`: `size_formatter`.
- `Uptime`: the uptime arithmetic.
- `DashboardGui`: the basic GUI.
- `VitalVizGui`: the rich GUI.
- `Terminal`: the terminal dashboard.

The GUI objects are classes whose fields are the Python attributes. Their methods change
those fields and are proved against functions over values:

- `Record` is one tick's pushes.
- `Step` is one worker iteration.
- `Run` is the worker loop over a sequence of readings.

Where the code and the intended design differ, the model follows the code:

- A counter that went down (for example after a reset) gives a negative rate. Nothing clamps
  it to zero.
- A tick whose clock did not advance divides by zero and raises ZeroDivisionError. The basic
  GUI has no handler, so the worker thread ends. The terminal dashboard ends too. The rich GUI
  catches it and goes on.
- The history capacity is the local constant `MAX_HISTORY = 60` of each worker loop. The rich
  GUI's `max_history` setting is stored, and read back only to fill the settings dialog; the
  worker loop never reads it.
- The CPU loop indexes `cpu_history[i]` for every reported core. More cores than lists raises
  IndexError, after the earlier cores were pushed.
- Only the length of the sent list decides the network pops. If the received list is empty
  then, its `pop(0)` raises IndexError after the sent list was already popped.

Values the source gets from the operating system are parameters of the model: a `Reading` per
tick, the partitions, and a `usageOf` function. The clock text `now` of a CSV export is also a
parameter.

## Model

| member | source | states |
|---|---|---|
| `Counters.Rate` | system_dashboard_gui.py:283-284 | raises ZeroDivisionError exactly when the elapsed time is zero; otherwise the rate times the elapsed time is the counter's change |
| `Counters.RateHasSignOfDelta` | vitalviz_gui.py:602-603 | over a positive elapsed time the rate is negative exactly when the counter went down and zero exactly when it stayed (no clamping) |
| `Counters.CounterResetGivesNegativeRate` | system_dashboard.py:139-140 | a counter reset from 3000 to 500 over one second gives -2500 bytes/s, not 0 |
| `Counters.NetworkTable` | system_dashboard.py:139-160 | all four rates of the network table share one divisor: they fail together on a zero elapsed time, and otherwise each one is the rate of its own counter |
| `History.Push` | vitalviz_gui.py:586-588 | a push keeps a history within 60 items, puts the new item last, and grows the list by one until it is full |
| `History.PushIsWindow` | vitalviz_gui.py:597-599 | on a history of at most 60 items, pop-if-full-then-append leaves the last 60 items of the old history plus the new item |
| `History.WindowOfWindow` | system_dashboard_gui.py:278-280 | trimming to the last 60 items early or late gives the same history |
| `History.PushAllIsWindow` | system_dashboard_gui.py:267-269 | any number of successive pushes leaves exactly the last 60 items of everything pushed, in order |
| `History.OverflowKeepsLastPushed` | vitalviz_gui.py:571 | after 60 or more pushes the history holds exactly 60 items, the last 60 pushed |
| `History.PushPair` | vitalviz_gui.py:606-611 | the sent list gets a plain bounded push; when both lists have equal length the received list does too, and the lengths stay equal |
| `History.PushCores` | vitalviz_gui.py:591-594 | the reference per-core push: list i gets a bounded push of core i's usage when core i was reported |
| `History.AppendCoreUsage` | vitalviz_gui.py:591-594 | the per-core loop pushes core i's usage onto list i for every reported core and leaves the other lists alone; it fails (IndexError) exactly when more cores are reported than there are lists |
| `Sampling.Record` | system_dashboard_gui.py:257-292 | one tick's pushes and rates in source order: time point, the reported cores, memory, then the two rates and the network pair; each exception keeps what was pushed before it |
| `Sampling.Initial` | vitalviz_gui.py:164-168 | the start-up histories: one empty list per core and empty time, memory and network lists, which are bounded |
| `Sampling.RecordKeepsBounded` | system_dashboard_gui.py:267-292 | a tick, whether it completes or raises part-way, keeps every list within 60 items and the two network lists of equal length |
| `Sampling.RecordPushesInOrder` | system_dashboard_gui.py:257-292 | a tick always pushes the time point and the reported cores; it raises IndexError on too many cores and ZeroDivisionError on a zero elapsed time, and nothing else; when it completes, the memory value and both rates are pushed and the rates are those of the counters |
| `Sampling.ZeroElapsedSkipsNetwork` | vitalviz_gui.py:597-611 | when no more cores are reported than there are lists and the network lists have equal length, a tick with a zero elapsed time raises ZeroDivisionError after pushing the memory value, and leaves both network lists unchanged; so a memory list as long as the network lists and not yet full gets one item ahead of them |
| `Alerts.Hysteresis` | vitalviz_gui.py:823-827 | a notification is sent exactly when the flag goes from unset to set; the flag is set only by a value above the raise threshold and cleared only by one below the clear threshold |
| `Alerts.StaysNotified` | vitalviz_gui.py:823-827 | over the values of the checks that actually run (`FlagAfter` applies `Hysteresis` to each), once set, the flag stays set while no value falls below the clear threshold |
| `Alerts.NoRenotifyWithoutClear` | vitalviz_gui.py:823-827 | over the values of the checks that actually run, between two notifications some value fell below the clear threshold (ticks that raised before the check contribute no value) |
| `Alerts.CpuHysteresisScenario` | vitalviz_gui.py:822-827 | mean CPU 95, 85, 75, 65 notifies once, at 95, with the flag still set at 75 and clear after 65 |
| `Alerts.Mean` | vitalviz_gui.py:822 | the mean of the cores raises ZeroDivisionError exactly when there are no cores; otherwise it times the core count is the sum, where `Alerts.Sum` adds left to right as Python's `sum` |
| `Alerts.SumAtMost` | vitalviz_gui.py:822 | the sum of values that are each at most t is at most the count times t |
| `Alerts.MeanAboveNeedsCoreAbove` | vitalviz_gui.py:822-823 | a mean above a threshold needs some core above it |
| `Alerts.CheckThresholds` | vitalviz_gui.py:819-834 | the CPU check on the mean of the cores, then the memory check, each by its hysteresis rule |
| `Alerts.CheckThresholdsIsHysteresis` | vitalviz_gui.py:819-834 | a check raises ZeroDivisionError exactly when there are no cores; otherwise each flag moves by its hysteresis rule (90/70 on the mean CPU, 85/75 on memory), and each alert is sent exactly when its flag goes up |
| `Classify.GaugeColour` | vitalviz_gui.py:784-789 | the gauge is green below 60, orange from 60 to below 80, red from 80 |
| `Classify.CpuColour` | system_dashboard.py:76 | a core is green below 50, yellow from 50 to below 80, red from 80 |
| `Classify.DiskColour` | system_dashboard.py:119 | a partition is green below 70, yellow from 70 to below 85, red from 85 |
| `Classify.ColoursMonotone` | vitalviz_gui.py:784-789 | in all three rules a higher reading never gets a less alarming colour |
| `Classify.Blocks` | system_dashboard.py:75 | the repetition count `int(p / 2)`: floor(p/2) for p >= 0, and none for a negative p |
| `Classify.CpuBar` | system_dashboard.py:75 | the bar as written: that many copies of the three-character literal, so three characters per repetition |
| `Classify.IntendedCpuBar` | system_dashboard.py:75 | the bar as intended: one full block per repetition |
| `Classify.MisEncodedBarAtTenPercent` | system_dashboard.py:75 | at 10% the bar as written is 15 characters with no block among them, where 5 blocks are meant |
| `Classify.CpuBarBounds` | system_dashboard.py:75 | a percentage up to 100 repeats the text at most 50 times (150 characters as written, 50 blocks as intended), and a higher percentage never draws a shorter bar |
| `SizeFormat.UnitIndex` | system_dashboard.py:59-65 | the reference choice of unit: the first of B, KB, MB, GB, TB whose scaled value is below 1024, else PB |
| `SizeFormat.SizeFormatter` | system_dashboard.py:59-65 | the loop picks the first unit in which the value is below 1024, scaled by 1024 per skipped unit, with PB as the fall-back; every skipped unit had a value of at least 1024 |
| `SizeFormat.SmallValuesStayInBytes` | system_dashboard.py:61-63 | every value below 1024, negative rates included, is shown in B, unscaled |
| `SizeFormat.UnitIndexSkipsLarge` | system_dashboard.py:61-64 | the units passed over all had a scaled value of at least 1024, and the one chosen (below PB) has one below 1024 |
| `SizeFormat.ScaledValueInRange` | system_dashboard.py:61-64 | a value shown in KB, MB, GB or TB lies in [1, 1024) of that unit |
| `SizeFormat.UnitIndexMonotone` | system_dashboard.py:59-65 | a larger value never gets a smaller unit |
| `Uptime.Decompose` | system_dashboard.py:181 | hours lie in 0..23 and minutes in 0..59, and days, hours and minutes together are the uptime rounded down to the minute |
| `Uptime.SameMinuteSameDisplay` | system_dashboard_gui.py:414 | two uptimes are displayed alike exactly when they fall in the same whole minute |
| `Uptime.MinutesDetermineFields` | vitalviz_gui.py:754 | the days, hours and minutes of an in-range display are determined by its total minutes |
| `DashboardGui.Step` | system_dashboard_gui.py:255-303 | one worker iteration: the pushes of `Record`, then the previous values advance only if nothing raised |
| `DashboardGui.Run` | system_dashboard_gui.py:255-305 | the worker loop over the readings, ending after the first tick that raised |
| `DashboardGui.StepAdvancesPrevOnlyOnCompletion` | system_dashboard_gui.py:255-303 | a worker iteration keeps what it pushed, and moves `prev_net_io` and `prev_time` to its own reading exactly when it completed |
| `DashboardGui.StepKeepsBounded` | system_dashboard_gui.py:267-292 | an iteration keeps the histories bounded |
| `DashboardGui.ZeroElapsedEndsWorker` | system_dashboard_gui.py:283 | when no more cores are reported than there are lists and the network lists have equal length, a reading whose clock did not advance raises ZeroDivisionError, and it is the last tick the worker performs |
| `DashboardGui.RunStopsAtFirstException` | system_dashboard_gui.py:255-305 | the worker handles readings in order until one raises; that one is its last, every earlier one completed, and the histories stay bounded |
| `DashboardGui.SystemMonitorGui.constructor` | system_dashboard_gui.py:46-54 | start-up: one empty list per core, empty histories, and the first counters and clock as previous values |
| `DashboardGui.SystemMonitorGui.PushTimePoint` | system_dashboard_gui.py:267-269 | the time-point list is the bounded push of the clock text |
| `DashboardGui.SystemMonitorGui.PushMemory` | system_dashboard_gui.py:278-280 | the memory list is the bounded push of the percentage |
| `DashboardGui.SystemMonitorGui.PushNetwork` | system_dashboard_gui.py:287-292 | the pair push; it fails exactly when the sent list is full and the received list is empty, and then the sent list has already lost its oldest item |
| `DashboardGui.SystemMonitorGui.RecordTick` | system_dashboard_gui.py:257-292 | the fields after the pushes, and the rates or the exception, are exactly those of `Record` |
| `DashboardGui.SystemMonitorGui.UpdateDataTick` | system_dashboard_gui.py:256-303 | one iteration leaves the object in the state `Step` computes, and keeps it bounded |
| `DashboardGui.SystemMonitorGui.UpdateData` | system_dashboard_gui.py:255-305 | the worker loop over a sequence of readings ends in the state and with the outcomes of `Run`, bounded throughout |
| `VitalVizGui.Step` | vitalviz_gui.py:574-630 | one pass of the `try` block: the pushes of `Record`, the alert check when notifications are on, and the previous values and flags advanced only if nothing raised |
| `VitalVizGui.StepAdvancesPrevOnlyOnCompletion` | vitalviz_gui.py:574-630 | an iteration keeps what it pushed; it completes exactly when the pushes, the rates and (when checking) the mean succeed; only then do `prev_net_io`, `prev_time` and the flags change; a caught exception sends nothing |
| `VitalVizGui.StepKeepsBounded` | vitalviz_gui.py:585-611 | an iteration keeps the histories bounded, caught exception or not |
| `VitalVizGui.StepNotifiesOnRaiseOnly` | vitalviz_gui.py:622-623 | with notifications off or unavailable nothing is sent and the flags stay; otherwise each alert is sent exactly on a completed tick whose value (the mean of the cores, `Alerts.Mean`, for CPU) is above the raise threshold with its flag unset, and the flag is then set; the check runs only when `VitalVizGui.SystemMonitorGui.Checking` holds (notifications available and enabled) |
| `VitalVizGui.ZeroElapsedIsCaught` | vitalviz_gui.py:629-630 | when no more cores are reported than there are lists and the network lists have equal length, a reading whose clock did not advance raises ZeroDivisionError and is caught after memory was pushed; no network rates are pushed and the previous values stay |
| `VitalVizGui.Run` | vitalviz_gui.py:573-632 | the worker yields one outcome per reading, because every exception is caught |
| `VitalVizGui.RunKeepsBounded` | vitalviz_gui.py:571-611 | the histories stay bounded over any number of iterations |
| `VitalVizGui.TraceIsRun` | vitalviz_gui.py:573-632 | a chain of states, each one iteration after the last, is what the worker loop computes |
| `VitalVizGui.CoreSum` | vitalviz_gui.py:1061 | the generator sum over the cores that have an item i |
| `VitalVizGui.CsvRowAt` | vitalviz_gui.py:1056-1064 | row i: the time point or `now`, the core sum over the number of cores, and the three values with 0 past a list's end (`VitalVizGui.ValueAt`) |
| `VitalVizGui.CoreSumOfFullColumn` | vitalviz_gui.py:1061 | when every core has an item i, the export's core sum is the plain sum of those items |
| `VitalVizGui.FullColumnAverageIsMean` | vitalviz_gui.py:1061 | when every core has an item i, the exported CPU figure is the mean of those items, as in the alert check |
| `VitalVizGui.CoreSumWithinPercent` | vitalviz_gui.py:1061 | percentages give a core sum between 0 and 100 times the core count |
| `VitalVizGui.CpuAverageWithinPercent` | vitalviz_gui.py:1061 | the exported CPU average of percentages lies between 0 and 100 |
| `VitalVizGui.ShortCoreCountsAsZero` | vitalviz_gui.py:1061 | a core with no item i still counts in the divisor: cores [50] and [] export 25 |
| `VitalVizGui.SystemMonitorGui.constructor` | vitalviz_gui.py:136-172 | start-up: interval 1, history 60, notifications on, no flags, empty histories with one list per core |
| `VitalVizGui.SystemMonitorGui.PushTimePoint` | vitalviz_gui.py:586-588 | the time-point list is the bounded push of the clock text |
| `VitalVizGui.SystemMonitorGui.PushMemory` | vitalviz_gui.py:597-599 | the memory list is the bounded push of the percentage |
| `VitalVizGui.SystemMonitorGui.PushNetwork` | vitalviz_gui.py:606-611 | the pair push; it fails exactly when the sent list is full and the received list is empty, and then the sent list has already lost its oldest item |
| `VitalVizGui.SystemMonitorGui.RecordTick` | vitalviz_gui.py:576-611 | the fields after the pushes, and the rates or the exception, are exactly those of `Record` |
| `VitalVizGui.SystemMonitorGui.CheckThresholds` | vitalviz_gui.py:819-834 | the flag attributes move as the hysteresis check says and the sent alerts are its alerts; on an empty core list the flags are untouched and ZeroDivisionError is raised |
| `VitalVizGui.SystemMonitorGui.UpdateDataTick` | vitalviz_gui.py:574-630 | one iteration leaves the object in the state `Step` computes, with its outcome and alerts, and keeps it bounded |
| `VitalVizGui.SystemMonitorGui.UpdateData` | vitalviz_gui.py:569-632 | the worker loop ends in the state, outcomes and alerts of `Run`, bounded throughout |
| `VitalVizGui.SystemMonitorGui.ExportToCsv` | vitalviz_gui.py:1054-1064 | one row per memory item with the time point (or `now`), the core average and the three values (0 past a list's end); ZeroDivisionError exactly when there are items but no cores |
| `VitalVizGui.SystemMonitorGui.ResetGraphs` | vitalviz_gui.py:872-878 | every history is emptied, one list per core now reported; the previous values and flags stay |
| `VitalVizGui.SystemMonitorGui.SaveSettings` | vitalviz_gui.py:979-983 | the three settings are stored and the engine state is untouched; alert checks then run exactly when notifications are available and enabled (`VitalVizGui.SystemMonitorGui.Checking`, the condition at vitalviz_gui.py:622) |
| `Terminal.KeepTyped` | system_dashboard.py:41-53 | the reference filter: the partitions with a non-empty file system type (`Terminal.Typed`, the truth of `partition.fstype`) with their usage, in provider order |
| `Terminal.GetDiskInfo` | system_dashboard.py:38-53 | the loop's list is the filter of the partitions (with their usage) by a non-empty file system type |
| `Terminal.KeepTypedAppend` | system_dashboard.py:41-42 | filtering keeps provider order: the result on a concatenation is the concatenation of the results |
| `Terminal.KeepTypedSingle` | system_dashboard.py:42-52 | one partition is kept, with its fields and usage, exactly when its file system type is non-empty |
| `Terminal.KeepTypedMembers` | system_dashboard.py:41-52 | an entry is in the result exactly when it describes some partition with a non-empty file system type |
| `Terminal.KeepTypedLength` | system_dashboard.py:41-53 | the result is never longer than the partition list, and as long exactly when every partition has a type |
| `Terminal.AllTypedKeepsEvery` | system_dashboard.py:41-53 | when every partition has a type, entry i describes partition i |
| `Terminal.RunDashboard` | system_dashboard.py:213-234 | pass k renders the rates between the reading before it (the start-up one for the first pass) and its own; the loop ends early exactly at the first pass whose clock did not advance |

## Left out

- The user interface is not modelled: Tk/CustomTkinter widgets, matplotlib plots, the rich layout, themes, the tray icon, the about, process and settings windows, and `.2f`/`.1f` text formatting. Sizes are modelled as scaled value plus unit, not as formatted text.
- psutil, `platform`, `time.time()` and `datetime.now()` are operating-system calls. They are parameters: one `Reading` or `Sample` per tick, `usageOf` for `psutil.disk_usage`, and `now` for the clock text of an export.
- An exception raised by a provider call (for example a `PermissionError` from `psutil.disk_usage`) is not modelled.
- Threading is not modelled: `self.running`, `time.sleep`, `root.after` scheduling, and `reset_graphs` or `save_settings` running at the same time as a tick. The worker loop runs over a finite sequence of readings.
- The `notify` call is not modelled. The alerts are returned as values (`CpuAlert`, `MemoryAlert`); their constant title and message text, and a failing `notify`, are not modelled.
- The `print` in the rich GUI's handler is not modelled.
- UI callbacks are not modelled: `update_ui_*`, and `update_dashboard` with its own division by the core count, which runs on the UI thread.
- File output is not modelled: CSV writing (only the data rows are; the constant header row is not), JSON and PNG export, and file dialogs.
- `VitalVizGui.SystemMonitorGui.ExportToCsv`: takes one `now` value for the whole export, where the source reads the clock again for each row past the end of `time_points`.
- `SaveSettings`: takes the two settings as integers. The dialog's `IntVar`s already hold integers; an entry that `IntVar.get()` cannot parse raises, and this is not modelled.
- Python floats are modelled as exact reals, so rounding in the rates, the means and the size scaling is not modelled. The uptime is modelled in whole microseconds, as `timedelta` stores it.
- The KeyboardInterrupt that ends the terminal dashboard is not modelled. Its loop runs over a finite sequence of samples, and only the network table's division can end it early.

## Findings

| source | as written | input that shows it | evidently intended | confidence | as-written member | corrected member |
|---|---|---|---|---|---|---|
| system_dashboard.py:75 | the bar repeats `"â–ˆ"`, three characters (U+00E2 U+2013 U+02C6: the UTF-8 bytes of U+2588 decoded as Windows-1252) | `percentage = 10.0` gives 15 characters and no block | one full block U+2588 per repetition, 5 blocks at 10% | high that the literal is as described; not executed | `Classify.CpuBar`, with `Classify.MisEncodedBarAtTenPercent` | `Classify.IntendedCpuBar`, with `Classify.CpuBarBounds` |
