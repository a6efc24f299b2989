# Raspberry Pi temperature monitor: a Dafny model of the sampling loop

The monitor asks a sensor for the CPU temperature once per poll interval. It
smooths each reading with a trailing five-sample moving average and prints the
smoothed value in a colour picked by its band: green up to 40 °C, yellow up to
65 °C, magenta up to 75 °C, red above. It appends the value to a log file when
it is above 65 °C, rotating the log to a `.bak` name once the log reaches 1 MiB.
It prints a warning when the value is strictly above the alert threshold.

The model has five modules:

- `Wrappers` (`wrappers.dfy`): `Option`, the result of a sensor query.
- `Bands` (`bands.dfy`): the colour classification and its ANSI escapes.
- `Smoothing` (`smoothing.dfy`): the ring buffer as a class `SmoothingWindow`.
  It holds a five-slot `array<real>`, the push counter `index` and a ghost
  `history` of every pushed reading. `Push` and `Average` are proved against
  the pure specification `Smoothed(history)`, the mean of the last
  `min(N, 5)` readings.
- `LogFiles` (`logfiles.dfy`): the file system as a map from path to `File`.
  A `File` is a size in bytes plus the lines the monitor appended. The class
  `FileSystem` holds that map. The methods `RotateLog` and `LogTemperature`
  update it and are proved against the pure functions `Rotated` and `Logged`.
- `Monitor` (`monitor.dfy`): one pass of the loop body (`Cycle`) and a run of
  finitely many passes (`Run`). Both are proved against the pure `Step` and
  `RunFrom`, over a `MonitorState` of history, files and printed output.

Temperatures are `real`, not IEEE doubles. The push counter is a `nat`.
Things the model does not compute are inputs to each cycle (`CycleInput`):
- the sensor's answer;
- whether the log opens;
- the local time;
- the byte length of the formatted log line.

Facts proved:
- During start-up only the slots written so far are averaged.
- The division in `moving_average` never divides by zero.
- Green and yellow can never be chosen for a log line, because of the
  65-degree floor.
- A log path of exactly 255 bytes is never rotated. For that path, the backup
  name cut to 255 characters is the log name itself, and renaming a file onto
  its own name does nothing.

## Model

| member | source | states |
|---|---|---|
| Bands.BandOf | enhanced_temperature_monitor.c:32-40 | the if/else-if chain tested top to bottom against 40, 65 and 75; the same chain picks the console colour at lines 166-174 (its intervals are stated by `BandIntervals`) |
| Bands.Escape | enhanced_temperature_monitor.c:33-39 | the ANSI escape written for each band: 32 green, 33 yellow, 35 magenta, 31 red |
| Bands.BandIntervals | enhanced_temperature_monitor.c:32-40 | each temperature gets exactly one band: green ≤ 40, yellow in (40, 65], magenta in (65, 75], red > 75 |
| Bands.BandMonotone | enhanced_temperature_monitor.c:166-174 | a hotter temperature never gets a cooler colour in the console classification |
| Bands.HotBand | enhanced_temperature_monitor.c:18-40 | above 65 only magenta (≤ 75) or red (> 75) can be chosen, so the green and yellow branches of the logger are dead |
| Bands.EscapeInjective | enhanced_temperature_monitor.c:33-39 | the four escapes differ, so a line's colour identifies its band |
| Smoothing.SampleCount | enhanced_temperature_monitor.c:108 | the count averaged is min(N, 5); after at least one push it is in 1..5, so the division at line 112 is defined |
| Smoothing.Smoothed | enhanced_temperature_monitor.c:104-113 | the value a push returns, as a specification: the mean of the last min(N, 5) readings of the history |
| Smoothing.LastSamples | enhanced_temperature_monitor.c:108-111 | the averaged readings are the last min(N, 5) pushed, and all of them while N ≤ 5 |
| Smoothing.MeanBounds | enhanced_temperature_monitor.c:107-112 | a sum divided by its count lies between any bounds of the summed values |
| Smoothing.StartupMean | enhanced_temperature_monitor.c:108-112 | with N ≤ 5 pushes the result is the plain average of all N readings, with no zero padding |
| Smoothing.SteadyMean | enhanced_temperature_monitor.c:108-112 | from the fifth push on the result is the average of the last five readings |
| Smoothing.SmoothedWithinRecent | enhanced_temperature_monitor.c:104-113 | the smoothed value lies between the smallest and the largest of the readings it averages |
| Smoothing.Least | enhanced_temperature_monitor.c:109-111 | the least of the averaged readings: a member of them and at most each of them |
| Smoothing.SmoothedAtMost | enhanced_temperature_monitor.c:104-113 | an upper bound of the averaged readings bounds the smoothed value |
| Smoothing.Forgetting | enhanced_temperature_monitor.c:105 | readings older than the last five have no influence on the result |
| Smoothing.SteadyReading | enhanced_temperature_monitor.c:104-113 | five equal readings in a row make the smoothed value that reading, whatever came before |
| Smoothing.StartupScenario | enhanced_temperature_monitor.c:104-113 | pushes 10, 20, 30 give 20.0 |
| Smoothing.SteadyScenario | enhanced_temperature_monitor.c:104-113 | pushes 10, 20, 30, 40, 50, 60 give 40.0, the mean of the last five |
| Smoothing.SlotsDistinct | enhanced_temperature_monitor.c:105 | pushes less than five apart write different slots |
| Smoothing.PushKeepsSlots | enhanced_temperature_monitor.c:105-106 | writing reading N into slot N % 5 keeps "slot j % 5 holds reading j for the last five j, unwritten slots hold 0" |
| Smoothing.StartupSlots | enhanced_temperature_monitor.c:105-111 | with fewer than five pushes, the slots the loop reads are exactly the readings in push order |
| Smoothing.SteadySlots | enhanced_temperature_monitor.c:105-111 | once the ring is full, its five slots are the last five readings rotated by N % 5 |
| Smoothing.SlotSum | enhanced_temperature_monitor.c:108-111 | the first min(N, 5) slots sum to the sum of the last min(N, 5) readings: in order during start-up, rotated afterwards |
| Smoothing.SmoothingWindow.constructor | enhanced_temperature_monitor.c:14-15 | the buffer starts as five zero slots, the counter at 0 and the history empty |
| Smoothing.SmoothingWindow.Push | enhanced_temperature_monitor.c:104-113 | writes only slot old index % 5, leaves the other four slots alone, advances the index by one, and returns the mean of the last min(N, 5) readings |
| Smoothing.SmoothingWindow.Average | enhanced_temperature_monitor.c:107-112 | the summation loop over the first min(index, 5) slots, then the division, returns the mean of the last min(N, 5) readings |
| LogFiles.BackupPath | enhanced_temperature_monitor.c:98-99 | the backup name is the longest prefix of path + ".bak" that fits 255 characters |
| LogFiles.BackupIsLogPath | enhanced_temperature_monitor.c:98-100 | the backup name equals the log name exactly when the log name is 255 bytes long |
| LogFiles.ShortPathBackup | enhanced_temperature_monitor.c:99 | a name of at most 251 bytes gets the whole ".bak" suffix |
| LogFiles.NeedsRotation | enhanced_temperature_monitor.c:97 | the size test: the file exists (stat succeeds) and holds at least 1048576 bytes |
| LogFiles.Rename | enhanced_temperature_monitor.c:100 | renaming replaces any earlier backup with the log, removes the log name, and leaves every other path alone; renaming onto itself changes nothing |
| LogFiles.Rotated | enhanced_temperature_monitor.c:95-102 | no change unless the file exists with size ≥ 1048576; then the backup name holds the old file and, when the names differ, the log name is gone; no other path changes |
| LogFiles.RotationChangesIff | enhanced_temperature_monitor.c:97-100 | rotation changes the file system if and only if the file is due and its backup name differs from it |
| LogFiles.Appended | enhanced_temperature_monitor.c:24-46 | opening for append creates a missing file; the write adds exactly one line and its bytes, and no other path changes |
| LogFiles.OpenFails | enhanced_temperature_monitor.c:25-27 | the error report happens exactly when the floor test passed and the open for appending failed |
| LogFiles.Logged | enhanced_temperature_monitor.c:17-47 | the file system after one logging call: unchanged at or below 65.0, else rotated, then one line appended when the open succeeds |
| LogFiles.LoggedBelowFloor | enhanced_temperature_monitor.c:18-20 | at or below 65.0 nothing is rotated and nothing is written |
| LogFiles.LoggedAddsOneLine | enhanced_temperature_monitor.c:22-46 | above the floor, when the open succeeds, exactly one line is added after the rotation; it reports the temperature in magenta or red |
| LogFiles.LoggedOpenFailure | enhanced_temperature_monitor.c:22-28 | a failed open still leaves the rotation done and writes nothing |
| LogFiles.FreshFileScenario | enhanced_temperature_monitor.c:17-47 | logging 70.0 to a missing file creates it with one magenta line |
| LogFiles.LoggedAfterRotation | enhanced_temperature_monitor.c:22-46 | a full log with a distinct backup name becomes the backup, and the log restarts with the new line alone |
| LogFiles.FullLogAt255Bytes | enhanced_temperature_monitor.c:97-100 | a full log whose name is 255 bytes long is never rotated; the line is appended to the full file |
| LogFiles.LoggedTouchesOnlyLogAndBackup | enhanced_temperature_monitor.c:17-47 | a logging call changes at most the log path and its backup path |
| LogFiles.WellFormedLineIsHot | enhanced_temperature_monitor.c:32-40 | a line that was logged is never green or yellow |
| LogFiles.LoggedKeepsWellFormed | enhanced_temperature_monitor.c:17-47 | rotation and logging keep every monitor line above the floor and coloured by its own band |
| LogFiles.RotateLog | enhanced_temperature_monitor.c:95-102 | performs exactly the rotation `Rotated` describes |
| LogFiles.LogTemperature | enhanced_temperature_monitor.c:17-47 | changes the file system exactly as `Logged` describes, and reports an open failure exactly when above the floor and the open fails |
| Monitor.AlertScenarios | enhanced_temperature_monitor.c:49-54 | 85 against 80 warns; 80 against 80 does not |
| Monitor.SensorValue | enhanced_temperature_monitor.c:56-71 | what the sensor query hands to the loop: the parsed reading, or -1 when the command cannot run or its output does not parse |
| Monitor.Skips | enhanced_temperature_monitor.c:158 | a cycle is skipped exactly when that value is negative, so a genuine negative reading is skipped too |
| Monitor.WarnsAbove | enhanced_temperature_monitor.c:50 | the alert test: strictly above the threshold |
| Monitor.CycleOutput | enhanced_temperature_monitor.c:165-185 | what an accepted cycle prints, in order: the coloured current value, the log-open error if any, the warning if any, the poll pause |
| Monitor.Step | enhanced_temperature_monitor.c:157-185 | one pass of the loop body over history, files and output: skip with a retry pause, or push, print, log and alert |
| Monitor.RunFrom | enhanced_temperature_monitor.c:156-186 | the first n passes of the loop, one `Step` per input in order |
| Monitor.SkipLeavesState | enhanced_temperature_monitor.c:157-161 | a negative reading leaves the window and the files unchanged and only waits one second |
| Monitor.AcceptedCycle | enhanced_temperature_monitor.c:163-185 | an accepted reading is pushed; the cycle prints the smoothed value in its band first and the poll pause last, warns if and only if the value is strictly above the threshold, and reports an open error exactly when the log open fails above the floor |
| Monitor.CoolWindowLeavesFiles | enhanced_temperature_monitor.c:163-178 | when every averaged reading is at most 65, the cycle neither writes nor rotates |
| Monitor.RunHistory | enhanced_temperature_monitor.c:156-163 | after any run the window has seen exactly the non-skipped readings, in order |
| Monitor.FailedPassSkips | enhanced_temperature_monitor.c:157-161 | a pass whose sensor query fails, after any run, leaves the window and the files as they were and adds only the retry pause |
| Monitor.RunExtendsOutput | enhanced_temperature_monitor.c:156-186 | a run only ever adds to what was printed |
| Monitor.RunKeepsLogWellFormed | enhanced_temperature_monitor.c:156-186 | a run keeps every monitor line in every file above the floor and in its own band |
| Monitor.Cycle | enhanced_temperature_monitor.c:157-185 | one pass of the loop body on the window and the file system is the pure `Step`; a skipped pass changes neither |
| Monitor.Run | enhanced_temperature_monitor.c:156-186 | the first n passes of the loop equal `RunFrom` on the inputs of those passes |

## Left out

- Reading the sensor (`read_temperature`) runs an external command and parses
  its output. That I/O is outside the model. Its result is an `Option<real>`
  input, and a failure becomes the -1 sentinel. The two error messages a
  failed query writes to the error stream are not in the output trace.
- Daemonizing (`daemonize`), the SIGINT handler and process exit are process
  control and asynchronous signals.
- Option parsing (`getopt`, `atof`, `atoi`) is library code. `Config` holds its
  result (threshold, log path, poll interval).
- Text formatting is left out: the timestamp from `localtime`, the `%.2f`
  rendering and the two header lines printed at start-up. A log line keeps its
  band, timestamp and temperature. Its byte length is an input.
- The sleeps (`usleep`, `nanosleep`) appear only as `RetryWait` and
  `PollWait` events. How long they take is not modelled.
- The model assumes that `stat` succeeds exactly when the path exists, and
  that `rename` and `fprintf` always succeed. A failed rename at line 100
  would leave the full log in place, and the next open would append to it.
  A failed write would add nothing. Neither case is modelled.
- `Run`, `RunFrom` and `RunKeepsLogWellFormed` assume that nothing outside the
  monitor changes the file system between passes.
- Paths are plain keys, so two spellings of one file (`./log` and `log`, or
  links) are different paths in the model.
- IEEE-754 rounding of the sum and the division is not modelled. The mean is
  exact over `real`.
- Smoothing.SmoothingWindow.Push: does not model overflow of the C `int`
  counter after 2^31 pushes, where a negative `%` would index outside the
  array, because the counter is a `nat`.
- The while (1) loop never ends. `Run` models its first n passes for any n.
