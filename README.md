# System monitor: sampling engine in Dafny

This project models the sampling and decision logic of a terminal system monitor
(`system_moniter.cpp`): the CPU utilisation calculator that keeps the previous
`/proc/stat` counters between calls, the `/proc/meminfo` scan and used-memory
percentage, the enumeration of processes from the `/proc` directory with each
process's `comm` name and `VmRSS` figure, and the small decisions of the render
loop (uptime as hours/minutes/seconds, colour bands, what a key press does, and
the outcome of the kill path). The `/proc` files, the terminal, the clock and
the `kill` system call are replaced by plain inputs: a parsed CPU sample,
`(key, value)` lines for `meminfo` and `status`, a list of directory entries,
the elapsed seconds, the pending key and the answers the kill path receives.

Modules, one per file: `Common` (Option, the `Field` line type), `Cpu`
(`getCPUUsage` as class `CpuMonitor` whose fields are the four `static`
counters), `Memory` (`getMemoryUsage`), `Processes` (`getProcesses`, `atoi`,
`getline`), `Display` (`colorForUsage`, the uptime split, key dispatch, kill
path) and `Monitor` (the `main` loop over a finite script of ticks).

Percentages and megabyte figures are exact `real` ratios, not IEEE doubles.
C++ integer division and remainder (truncating toward zero) are written out in
`Display.TruncDiv` and `Display.TruncRem`.

The model follows the code as written, including these behaviours:

- Counters that go backwards are not treated as a reset. There is no guard, so when every
  aggregate decreases the result lies strictly between 0 and 100, not 0
  (`Cpu.CounterResetNotZero`). When the active and idle deltas have opposite signs, the
  result is 0 if they cancel. Otherwise it exceeds 100 when the total delta has the sign of
  the active delta, and it is negative when it has the opposite sign
  (`Cpu.OppositeDeltasLeaveRange`). `Cpu.MixedDecreaseExceedsHundred` and
  `Cpu.IdleDecreaseGoesNegative` are one example of each. The [0, 100] range therefore needs
  non-decreasing counters as a precondition.
- The bootstrap test is "the remembered counters are all zero", not "first call". A sample
  whose aggregates are all zero makes the next call bootstrap again (`Cpu.ZeroSampleRebootstraps`).
- A process is skipped only when its `comm` file cannot be opened. A missing `status` file,
  or one without `VmRSS:`, still yields a row with memory 0.
- The kill path reports success only when the liveness probe fails with ESRCH. Any other
  probe result, including a permission error, leads to the SIGKILL prompt.

## Model

| member | source | states |
|---|---|---|
| `Cpu.CpuPercent` | system_moniter.cpp:66-83 | 0 when the remembered counters are all zero; 0 when active + idle delta is 0; otherwise the result times (active + idle delta) equals 100 × active delta, where active is user + nice + system and idle is idle + iowait |
| `Cpu.CpuPercentInRange` | system_moniter.cpp:79-83 | if no aggregate decreased, the percentage lies in [0, 100] |
| `Cpu.CpuIgnoresIrq` | system_moniter.cpp:63-69 | irq, softirq and steal never change the result |
| `Cpu.CounterResetNotZero` | system_moniter.cpp:79-83 | if every aggregate decreased, the result is strictly between 0 and 100 and never 0 (no reset guard) |
| `Cpu.OppositeDeltasLeaveRange` | system_moniter.cpp:79-83 | with no reset guard, active and idle deltas of opposite signs that do not cancel give a result above 100 when the total has the active delta's sign and below 0 otherwise |
| `Cpu.MixedDecreaseExceedsHundred` | system_moniter.cpp:79-83 | active −3, idle +1 (total has the active delta's sign) gives 150 %, above 100 |
| `Cpu.IdleDecreaseGoesNegative` | system_moniter.cpp:79-83 | active +2, idle −5 (total has the opposite sign) gives −200/3 %, below 0 |
| `Cpu.CpuMonitor.constructor` | system_moniter.cpp:54 | the remembered counters start at zero |
| `Cpu.CpuMonitor.GetCpuUsage` | system_moniter.cpp:53-91 | returns CpuPercent of the old remembered state and the sample; afterwards the remembered state is the sample's four aggregates, on the bootstrap call and every other call |
| `Cpu.ZeroSampleRebootstraps` | system_moniter.cpp:71-88 | after a sample whose aggregates are all zero, the next call returns 0 and stores the new aggregates |
| `Memory.AvailableIndexSpec` | system_moniter.cpp:98-106 | AvailableIndex is the position of the first `MemAvailable:` line: no line before it has that key, and the line at it does (if within bounds) |
| `Memory.AvailableIndexUnique` | system_moniter.cpp:101-103 | any line holding `MemAvailable:` with none before it is at AvailableIndex |
| `Memory.LastTotalIsLast` | system_moniter.cpp:99-100 | a later `MemTotal:` overrides an earlier one: the total is the value of the last such line, or 0 when there is none |
| `Memory.ScanTotalIsLastBeforeAvailable` | system_moniter.cpp:98-106 | the scanned total is the value of the last `MemTotal:` line before the first `MemAvailable:` |
| `Memory.ScanTotalWithoutMemTotal` | system_moniter.cpp:96-106 | with no `MemTotal:` before the first `MemAvailable:` the total stays 0 |
| `Memory.ScanStopsAtAvailable` | system_moniter.cpp:101-103 | the available amount is the value of the first `MemAvailable:` line, and any lines appended after it change nothing |
| `Memory.MissingAvailableReadsFull` | system_moniter.cpp:96-110 | with no `MemAvailable:` line, available is always 0, and a non-zero total then reads as 100 % |
| `Memory.MemPercent` | system_moniter.cpp:108-110 | 0 when the total is 0 (no division); otherwise the result times the total equals 100 × (total − available) |
| `Memory.MemPercentInRange` | system_moniter.cpp:108-110 | with 0 ≤ available ≤ total the percentage lies in [0, 100] |
| `Memory.MemPercentExamples` | system_moniter.cpp:108-110 | total 0 gives 0; total 1000 with 400 available gives 60 |
| `Memory.GetMemoryUsage` | system_moniter.cpp:93-111 | the token loop with its `break` returns MemPercent of the scanned total and available amount |
| `Processes.DigitPrefix` | system_moniter.cpp:125 | the result is the longest prefix made of decimal digits: a prefix, all digits, and followed by a non-digit or the end |
| `Processes.AtoiDecimal` | system_moniter.cpp:122-125 | `atoi` reads back n from the decimal digits of n followed by a non-digit |
| `Processes.FirstLine` | system_moniter.cpp:131-132 | `getline` gives a prefix of the text with no newline in it, followed by a newline or the end |
| `Processes.FirstRss` | system_moniter.cpp:137-146 | None exactly when no line is `VmRSS:`; otherwise the value of a `VmRSS:` line with none before it |
| `Processes.ReadRss` | system_moniter.cpp:134-146 | the inner scan returns the first `VmRSS:` value divided by 1024, or 0 when there is none or the file cannot be opened |
| `Processes.ProcessTable` | system_moniter.cpp:121-149 | no more rows than entries, and every row's CPU figure is 0 |
| `Processes.GetProcesses` | system_moniter.cpp:114-152 | an unopenable directory gives no rows; otherwise the loop's rows are ProcessTable of the listing |
| `Processes.ProcessTableAppend` | system_moniter.cpp:121-149 | the table of two listings one after the other is the first table followed by the second, so listing order is kept |
| `Processes.ProcessTableMembership` | system_moniter.cpp:121-148 | a row is in the table exactly when it describes an entry whose name starts with a digit and whose `comm` file opened |
| `Processes.SkipsVanishedEntry` | system_moniter.cpp:126-129 | of three entries, the middle one with no `comm` file is skipped and the other two keep their order |
| `Display.SplitUptimeRecombines` | system_moniter.cpp:177-180 | hrs·3600 + mins·60 + secs equals the uptime; for a non-negative uptime mins and secs lie in [0, 60); for a negative one in (−60, 0] |
| `Display.ColorBands` | system_moniter.cpp:155-158 | green exactly below 50, yellow exactly in [50, 80), red exactly from 80 up |
| `Display.ColorMonotone` | system_moniter.cpp:155-158 | a higher figure never gets a milder colour |
| `Display.DispatchCases` | system_moniter.cpp:203-244 | only `q` quits, only `k` enters the kill path, and anything else (or no key) sleeps |
| `Display.KillEscalatesOnlyOnConfirmation` | system_moniter.cpp:208-234 | SIGKILL is tried exactly when SIGTERM was sent, the process survived the grace period and the answer was `y` or `Y`; the outcome is Terminated exactly when SIGTERM was sent and the probe failed with ESRCH; TerminateFailed exactly when SIGTERM could not be sent; InvalidInput exactly when the pid was not a number |
| `Monitor.Sample` | system_moniter.cpp:169-187 | one tick's frame is the CPU, memory, uptime and process figures computed in the loop's order; the calculator then remembers the sample |
| `Monitor.Run` | system_moniter.cpp:166-245 | the frames shown and how each tick ended equal Frames and Endings of the script; afterwards the calculator remembers the aggregates of the last tick that ran (Remembered), or its old state when no tick ran |
| `Monitor.OneFramePerTick` | system_moniter.cpp:166-245 | each tick that runs shows exactly one frame |
| `Monitor.QuitStopsRun` | system_moniter.cpp:203-207 | a `q` on tick i ends the run with that tick: i + 1 ticks run, the last stops, and none before it does |
| `Monitor.NoQuitRunsEveryTick` | system_moniter.cpp:203-244 | without a `q` every tick runs, each ends as its key decides (kill report or sleep), and the loop never stops |
| `Monitor.FramesCpuInRange` | system_moniter.cpp:169-174 | with counters that never go backwards, every CPU figure shown lies in [0, 100] |
| `Monitor.FirstFrameShowsZeroCpu` | system_moniter.cpp:71-77 | the first frame after start shows 0 % CPU, whatever the first sample is |

## Left out

- Terminal mode switching (system_moniter.cpp:34-44) and the `FIONREAD` poll (46-50) are OS terminal I/O. The poll's result is the tick's pending key, `None` when no byte is waiting.
- Opening and parsing `/proc/stat`, `/proc/meminfo`, `/proc/<pid>/comm`, `/proc/<pid>/status` and reading the `/proc` directory are not modelled. The inputs arrive already parsed. An extraction that fails part-way through a line is not modelled.
- Token-level stream reading: the model treats each `meminfo`/`status` line as one key and one value. After a `MemTotal:` value the source reads the following token as a new label (for `/proc/meminfo` the unit `kB`, which matches neither key) before skipping the rest of that line, so a `MemAvailable:` token placed right after a `MemTotal:` value would end the source's scan; the model does not capture this. On other lines the source skips everything after the first token, as the model does.
- All rendering (172-200) is left out: ANSI colour strings, `iomanip` widths and precision, the highlighting of the monitor's own pid, the header lines.
- `sleep`, `sleep_for` and `steady_clock` are left out. The whole seconds elapsed since start are an input of each tick.
- `kill`, `errno` and `perror` (217-234) are left out. Their results, the pid read and the confirmation character are opaque inputs of the kill path. Clearing and skipping input after an invalid pid, and the "Press Enter to refresh" wait (236-238), are not modelled.
- Integer widths are not modelled: counters are `long long`, meminfo values `long`, the pid and the h/m/s fields `int`, and all are unbounded integers here. Overflow of `idle + iowait` and of `atoi` is not modelled.
- IEEE `double` rounding (and NaN in `colorForUsage`) is not modelled. Percentages and megabytes are exact `real` values.
- Monitor.Run: the source's loop runs forever; the model runs one tick per scripted input and also ends when the script runs out. Restoring the terminal and returning 0 on exit (247-248) are left out.
