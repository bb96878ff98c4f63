# embench-iot run engine, modelled in Dafny

This project models the engine that embench-iot's `run_all.py` uses to drive a
benchmark campaign, together with the pieces of one concrete campaign that
plug into it:

- **Run configuration** (`Params`, `Flags`).
  - A run-set's `common` profile is merged with each run's own parameters. Scalar parameters are replaced. List parameters are joined with their separator. Unknown keys are warned about and skipped.
  - From the merged run, the link flags and libraries of the size build and of the speed build are derived.
- **Build command line** (`BuildCommand`).
  - This is the argument list `build_benchmarks` hands to the external build driver.
  - The model also describes how that driver's argparse reads each `--name=value` back.
- **Result file** (`ResultFile`).
  - `benchmark` writes the measurement's output to the run's result file, minus every line that contains the `All benchmarks <desc> successfully` sentinel.
  - The size phase opens the file in mode `'w'` and the speed phase in mode `'a'`.
- **PATH scoping** (`PathScope`). `prepend_path` puts the run's toolchain directory in front of `PATH`. The loop restores the old value after the run.
- **The per-run loop** of `main` (`Driver`, `RunFacts`).
  - For each run-set and each run, the loop does this in order: merge, derive flags, scope `PATH`, size build and measurement, speed build and measurement, restore.
  - A failing build ends the process with `sys.exit(1)`. A missing key raises `KeyError`.
  - Subprocesses are an oracle `outcome: nat -> ProcResult`: the n-th subprocess the driver starts returns `outcome(n)`.
  - The imperative class `Driver.Runner` is proved against the functional plan `Driver.RunPlan` and its compositions.
- **The Spike target module** (`RunSpike`).
  - `build_benchmark_cmd` builds the simulator command line.
  - `decode_results` finds the first line `cycle = 0x<word>` and reads it with `int(..., 16)`. No such line gives 0.0, and a literal `int()` refuses raises `ValueError`.
- **The RV32 `cycle` board support** (`BoardSupport`, `CycleProtocol`).
  - `rdcycle` reads the 64-bit cycle counter through its two 32-bit halves and retries until the two high reads agree.
  - `start_trigger` and `stop_trigger` record a reading and print the elapsed count as 16 hex digits.
  - `CycleProtocol` proves that the printed count is exactly what `decode_results` reads back.
- **The RV32 optimisation campaign** (`Rv32Spike`). This is `rv32_opt_runset` of `bm_rv32_spike.py`, with its `path` and `cc` tables. The proofs show:
  - which runs it builds and that their names are distinct;
  - that no parameter is warned about;
  - what each run's merged flags are;
  - which four subprocesses each run makes.

`Outcomes`, `Text` and `Numerals` hold the shared vocabulary:
- `Option`, `Result` and the Python exceptions;
- `str.split()`, `str.splitlines(keepends=True)` and the `in` test on strings;
- `str(n)`, `%016x` and `int(s, base)`.

Where the project's design description and the code disagree, the model follows the code:

- The sentinel line is dropped when it *contains* the sentinel text (`in line`, run_all.py:1293), not only when it equals it.
- The build command line carries no `--timeout=30`. The 30-second limit is the subprocess timeout (run_all.py:1211-1219, 1253).
- No size or speed preprocessor define is added to the compile flags.
- `PATH` is restored only when the run reaches the end of the loop body (run_all.py:1496-1497). A failing build exits and an exception propagates, both without restoring it. `Driver.Runner.RunOne` promises the restore only for `Continue`.
- A failed measurement (a timeout or a non-zero status) leaves the result file untouched. A timeout, however, raises in the code as written (see Findings). `Driver.Runner` uses the corrected `benchmark`; `Driver.EffectAsWritten` is the process as written, which ends at the first timed-out measurement.
- `start_trigger` and `stop_trigger` call `rdcycle`, whose read order can tear a reading (see Findings). `BoardSupport.Board.StartTrigger`, `StopTrigger` and `MeasureRegion` use the corrected read; the `...AsWritten` triggers use the read as written.

## Model

| member | source | states |
|---|---|---|
| Params.Merged | run_all.py:1329-1341 | The merged keys are the profile's keys plus the run's known keys. A list key present on both sides becomes `profile + sep + run`. A list key new to the profile, and any scalar key, takes the run's value. Every other key keeps the profile's value. |
| Params.CheckParams | run_all.py:1323-1326 | The loop over the profile's keys warns about exactly the keys that are in neither parameter table. |
| Params.MergeParams | run_all.py:1329-1341 | The copy-and-fold loop over `add` returns exactly `Merged(orig, add)` and warns about exactly the unknown keys of `add`. |
| Params.MergeStep | run_all.py:1331-1340 | Folding in one more key leaves the merge unchanged for an unknown key. A list key already in the profile is appended to. Otherwise the run's value is set. |
| Params.MergeNothing | run_all.py:1329-1341 | A run with no parameters resolves to the common profile itself. |
| Params.MergeUnknownOnly | run_all.py:1339-1340 | Parameters unknown to both tables never change the resolved configuration. |
| Params.MergedFlagsTokens | run_all.py:1333-1334 | For `cflags` and `ldflags` the merged value's words are the profile's words followed by the run's words. |
| Flags.NoStartFiles | run_all.py:1391-1394 | A run's own `nostartfiles` value is used when it has one; without that override the size link uses `-nostartfiles`. |
| Flags.NoStdLib | run_all.py:1395-1398 | A run's own `nostdlib` value is used when it has one; without that override the size link uses `-nostdlib`. |
| Flags.SizeLdflags | run_all.py:1399-1402 | `ldflags_size` fails with `KeyError('ldflags')` exactly when the merged run has no `ldflags`. |
| Flags.SizeLdflagsTokens | run_all.py:1399-1402 | The size link's words are the run's link words, then the start-file flag, then the standard-library flag. An empty `ldflags` adds no empty word. |
| Flags.SizeLdflagsDefaults | run_all.py:1391-1402 | Without overrides the size link is the run's flags followed by `-nostartfiles` and `-nostdlib`, in that order. |
| Flags.SpeedUserLibs | run_all.py:1404-1407 | The speed build's libraries are the run's `user_libs`, or `-lm` when it has none. |
| BuildCommand.AppendOption | run_all.py:1221-1222 | One `if value: append` step adds the `--name=value` token exactly when the value is truthy, and nothing otherwise. |
| BuildCommand.BuildArglist | run_all.py:1211-1242 | The step-by-step construction of the argument list yields the build command line `BuildArgs`. |
| BuildCommand.BuildArgsFromTable | run_all.py:1211-1242 | The command line is the eight fixed tokens, then one token per truthy optional value in the order `cc, ld, cflags, ldflags, dummy-libs, user-libs, env, cpu-mhz, warmup-heat`, then the benchmark and exclude lists. |
| BuildCommand.BuildArgsReadBack | run_all.py:1221-1238 | The build driver reads each optional argument back as the value given when truthy, and as absent otherwise. This holds for benchmark names that do not look like options. |
| BuildCommand.BuildArgsTarget | run_all.py:1215-1219 | The build driver reads back the architecture, chip and board that were given. |
| ResultFile.KeptLinesFiltered | run_all.py:1292-1294 | No line written to the result file contains the sentinel. |
| ResultFile.KeptLinesComplete | run_all.py:1292-1294 | Every output line that does not contain the sentinel is written. |
| ResultFile.KeptLinesAll | run_all.py:1292-1294 | Output without the sentinel is written line for line. |
| ResultFile.WrittenUnfiltered | run_all.py:1292-1294 | Output none of whose lines contains the sentinel is written unchanged, byte for byte. |
| ResultFile.SentinelLineDropped | run_all.py:1293 | A line holding the sentinel anywhere, with text before or after it, is dropped whole, line break included. |
| ResultFile.PlainLineKept | run_all.py:1292-1294 | A line without the sentinel is written with its line break, and the rest follows. |
| ResultFile.AfterMeasureContent | run_all.py:1288-1291 | After a successful measurement, mode `'a'` keeps the file's content and adds the output. Mode `'w'` replaces it. Other files are untouched. |
| ResultFile.SizeThenSpeed | run_all.py:1453-1492 | A size measurement (`'w'`) followed by a speed measurement (`'a'`) leaves exactly both filtered outputs in the file, whatever it held before. |
| ResultFile.ResultStore.Dump | run_all.py:1288-1294 | The write loop leaves the file holding its opened content followed by the filtered output. |
| ResultFile.ResultStore.WriteLine | run_all.py:1294 | One `writelines` appends the line to the open file. |
| ResultFile.ResultStore.Benchmark | run_all.py:1265-1294 | With the timeout handled as a failure: success is a zero exit status, and only then is the file written. The corrected half of finding 1. |
| ResultFile.ResultStore.BenchmarkAsWritten | run_all.py:1283-1286 | As written: a timed-out measurement raises `UnboundLocalError` and writes nothing. A measurement that exits behaves as `Benchmark`. |
| Text.SplitLinesJoin | run_all.py:1292 | `splitlines(keepends=True)` loses nothing: joining the lines gives the output back. |
| PathScope.PrependedEntries | run_all.py:1307 | After the prepend, the toolchain directory is the first search entry and the old entries follow in order. |
| PathScope.PrependedRestores | run_all.py:1306-1307 | The old PATH can be read back from the new one. |
| PathScope.Environment.PrependPath | run_all.py:1298-1308 | PATH becomes `dir:old`, and the old value is returned. |
| PathScope.Environment.Restore | run_all.py:1496-1497 | PATH is set back to the saved value. |
| Driver.PlanAfterStop | run_all.py:1255-1258 | Once a build fails, nothing after it runs. The calls made and the result files are those of the part before. The status is `Exit(1)`. |
| Driver.PlanOfBoth | run_all.py:1433-1493 | When the first part neither fails a build nor raises, the second part runs from where it left off, and its status is the whole's. |
| Driver.SequenceAfterEnd | run_all.py:1381-1386 | A run that ends the process is the last one: later runs and run-sets add no calls and change no file. |
| Driver.EndsIffStops | run_all.py:1381-1497 | A run ends the campaign exactly when it does not let the loop go on. |
| Driver.FirstStop | run_all.py:1255-1286 | The first call that ends the process as written (a failed build or a timed-out measurement); every call before it goes on. |
| Driver.BuildStopAt | run_all.py:1255-1258 | When call `k` is the first failing build, the corrected reading makes `k + 1` calls and keeps the files the calls before left. |
| Driver.GoesPast | run_all.py:1381-1497 | Calls that do not fail a build are all made, and the process carries on with the calls after them. |
| Driver.AsWrittenWithoutTimeout | run_all.py:1265-1294 | When no measurement that is made times out, the process as written and the corrected driver make the same calls, leave the same files and end alike. |
| Driver.TimeoutEndsAsWritten | run_all.py:1283-1286 | At the first timed-out measurement the process as written makes no further call, writes nothing for it and raises `UnboundLocalError('res')`, while the corrected driver goes on with the later calls. |
| Driver.TimedOutWritesNothing | run_all.py:1283-1289 | A timed-out measurement leaves the files as the calls before it left them. |
| Driver.TimeoutEndsCampaign | run_all.py:1381-1497 | In a whole campaign, the process as written stops at the first timed-out measurement: no later run or run-set makes a call. |
| Driver.Runner.BuildBenchmarks | run_all.py:1205-1262 | Runs the build command once and reports success exactly when the build exits with status 0. |
| Driver.Runner.Measure | run_all.py:1265-1294 | Corrected `benchmark`: runs the measurement once and writes the filtered output only when it exits with status 0; a timeout lets the loop go on. |
| Driver.Runner.MeasureAsWritten | run_all.py:1265-1294 | `benchmark` as written: the same files, and a timed-out measurement ends the process with `UnboundLocalError('res')`. |
| Driver.Runner.SizePhase | run_all.py:1433-1460 | Carries out the size plan: `KeyError` for a missing target key before any call, build, `Exit(1)` on failure, then the measurement with `--json-comma` when a speed phase follows. All of it runs under the current PATH. |
| Driver.Runner.SpeedPhase | run_all.py:1463-1493 | Carries out the speed plan: build, then the measurement with `--no-json-head` after a size phase and `--timeout=<n>`, appending to the result file. A descriptor without a timeout raises `KeyError` after the build. |
| Driver.Runner.MaybeSizePhase | run_all.py:1433 | The size phase runs only when the run-set has a size benchmark. |
| Driver.Runner.Phases | run_all.py:1433-1493 | Size phase, then the speed phase unless the size phase ended the process. |
| Driver.Runner.RunOne | run_all.py:1386-1497 | One run carries out `RunPlan`. Every subprocess runs under the run's scoped PATH. PATH is back to its old value when the loop goes on. The warnings are the run's unknown keys when the set has a common profile. |
| Driver.Runner.RunRunSet | run_all.py:1381-1497 | One run-set runs its runs in order until one ends the process. When all go on, PATH is unchanged and the warnings are the profile's and every run's unknown keys. |
| Driver.Runner.RunCampaign | run_all.py:1376-1497 | With no run-set, `Exit(1)` and no call. Otherwise the run-sets run in order until one ends the process. |
| RunFacts.ResultPathSplit | run_all.py:1410 | A run's result file is `<name>.json` in the result directory. |
| RunFacts.ResultPathInjective | run_all.py:1410 | Runs with different names write different result files. |
| RunFacts.RunPlanErrors | run_all.py:1387-1441 | Before any subprocess the loop raises `KeyError('name')` for a run without a name, then `KeyError('ldflags')`, then the first missing of `arch`, `chip` and `board` when a phase exists. |
| RunFacts.RunPlanShape | run_all.py:1433-1493 | A complete run of a set with both phases makes exactly four calls: size build, size measurement into a fresh file, speed build, speed measurement appended to it. |
| RunFacts.SizeBuildFlags | run_all.py:1434-1451 | The size build gets the dummy libraries, no user libraries, the size link flags and the run's target. |
| RunFacts.SpeedBuildFlags | run_all.py:1464-1480 | The speed build gets no dummy libraries, the speed libraries and the run's own link flags. |
| RunFacts.DefaultLinkFlags | run_all.py:1391-1407 | Without overrides the size link ends in `-nostartfiles -nostdlib` and the speed build links `-lm`. |
| RunFacts.SpeedTimeoutArg | run_all.py:1482-1485 | The speed measurement's last argument is `--timeout=<n>`, and it reads back as the descriptor's timeout. |
| RunFacts.SizeCommaArg | run_all.py:1452-1454 | The size measurement ends with `--json-comma` exactly when the set also has a speed phase. |
| RunFacts.TwoMeasurements | run_all.py:1433-1493 | Four successful calls leave the result file holding the filtered size output followed by the filtered speed output. |
| RunFacts.BothPhasesResult | run_all.py:1386-1497 | A complete run whose four calls all succeed goes on to the next run and leaves exactly both filtered outputs in `<name>.json`. |
| RunFacts.ScopedPathEntries | run_all.py:1426-1430 | While a run with a `path` executes, its toolchain directory is searched first. |
| RunSpike.BuildBenchmarkCmd | pylib/run_spike.py:57-60 | The command is the simulator, its arguments split at white space, the proxy kernel, then the benchmark. Its length is three plus the number of simulator words. |
| RunSpike.DefaultCommand | pylib/run_spike.py:35-60 | With the default options the command is `spike pk <bench>`. |
| RunSpike.SingleSpikeArg | pylib/run_spike.py:60 | A simulator argument without white space is passed as one word between the simulator and the kernel. |
| RunSpike.SpikeArgsInOrder | pylib/run_spike.py:60 | Simulator arguments separated by white space are passed in order. |
| RunSpike.Search | pylib/run_spike.py:69 | `re.search` with `re.M`: a result is a match, no earlier position matches, and no result means no position matches. |
| RunSpike.Token | pylib/run_spike.py:69 | The captured group is a non-empty run of word characters. |
| RunSpike.PlainHex | pylib/run_spike.py:73 | `int(tok, 16)` reads a plain hexadecimal literal as its value. |
| RunSpike.UnderscoreBetweenGroups | pylib/run_spike.py:73 | An underscore between two digit groups is accepted and ignored. |
| RunSpike.PrefixedHex | pylib/run_spike.py:73 | The `0x` base prefix is accepted and does not change the value. |
| RunSpike.NonDigitRefused | pylib/run_spike.py:73 | A word character other than a hexadecimal digit or an underscore, anywhere but in the prefix, makes `int()` raise. |
| RunSpike.DecodeFirstHit | pylib/run_spike.py:63-76 | The first matching line decides the result: its value divided by 1000, or `ValueError` for a literal `int()` refuses. |
| RunSpike.DecodeNoHit | pylib/run_spike.py:69-72 | Output without a matching line reads as 0.0. |
| RunSpike.DecodeIgnoresStderr | pylib/run_spike.py:63-76 | Standard error never changes the result. |
| RunSpike.IndentedLineIgnored | pylib/run_spike.py:69 | A single line indented by blanks or tabs never matches, whatever it holds (an indented `cycle = 0x...` included), so it decodes to 0.0. |
| CycleProtocol.PrintedDigits | config/riscv32/boards/cycle/boardsupport.c:57 | The 16 printed digits are word characters, and `int()` reads them back as the count. |
| CycleProtocol.DecodeCycleLine | config/riscv32/boards/cycle/boardsupport.c:57 | The count `stop_trigger` prints is read back by `decode_results` as count/1000, whatever follows it. |
| CycleProtocol.DecodeAfterLines | pylib/run_spike.py:69-75 | Complete lines before the count that do not match leave the reading unchanged. |
| CycleProtocol.NoEarlierHit | pylib/run_spike.py:69 | A match starting in a text that ends with a line feed lies wholly inside it. |
| BoardSupport.JoinSplit | config/riscv32/boards/cycle/boardsupport.c:36 | A 64-bit value is `hi << 32 \| lo` of its two 32-bit halves. |
| BoardSupport.SplitJoin | config/riscv32/boards/cycle/boardsupport.c:36 | Joining two 32-bit words gives a 64-bit value whose halves are those words. |
| BoardSupport.WrapSub | config/riscv32/boards/cycle/boardsupport.c:55 | `uint64_t` subtraction is the difference modulo 2^64. It is exact when nothing wraps and is 2^64 above it otherwise. |
| BoardSupport.SixteenHexDigits | config/riscv32/boards/cycle/boardsupport.c:57 | Sixteen hexadecimal digits hold every 64-bit count. |
| BoardSupport.Elapsed | config/riscv32/boards/cycle/boardsupport.c:55 | For a counter that never decreases, the subtraction gives the true number of cycles. |
| BoardSupport.TornRead | config/riscv32/boards/cycle/boardsupport.c:30-36 | As written: a low half of `0xffffffff` followed by a carry makes the loop accept `0x1_ffffffff`, 2^32 - 1 above the counter. |
| BoardSupport.TornIntervalWraps | config/riscv32/boards/cycle/boardsupport.c:55 | That torn start reading makes a later exact stop reading wrap to a count near 2^64. |
| BoardSupport.AsWrittenWithoutCarry | config/riscv32/boards/cycle/boardsupport.c:30-36 | As written, the result is exact when no carry reaches the high half after the low read. |
| BoardSupport.RetryProgress | config/riscv32/boards/cycle/boardsupport.c:34 | Each retry sees a strictly larger high half, still below 2^32, so the loop ends. |
| BoardSupport.HighLowHigh | config/riscv32/boards/cycle/boardsupport.c:28-36 | In the order high, low, high, equal high halves make the joined value the counter at the low read. |
| BoardSupport.Board.ReadCsr | config/riscv32/boards/cycle/boardsupport.c:31-33 | A `csrr` of `cycleh` or `cycle` returns that half of the counter and takes one instant. |
| BoardSupport.Board.ReadLowHighHigh | config/riscv32/boards/cycle/boardsupport.c:30-33 | One pass as written reads the low half, then the high half twice, at successive instants. |
| BoardSupport.Board.ReadCycleAsWritten | config/riscv32/boards/cycle/boardsupport.c:25-37 | As written, the loop ends with equal high halves and returns the high half of one instant joined with the low half of the instant before. |
| BoardSupport.Board.ReadHighLowHigh | config/riscv32/boards/cycle/boardsupport.c:30-33 | One pass in the order of section 10.1 of the RISC-V Unprivileged ISA: high, low, high. |
| BoardSupport.Board.ReadCycle | config/riscv32/boards/cycle/boardsupport.c:25-37 | Corrected order: the result is the counter's value at one instant of the read. |
| BoardSupport.Board.StartTrigger | config/riscv32/boards/cycle/boardsupport.c:46-50 | With the corrected read, `cycle` holds the counter's value at one instant and nothing is printed. |
| BoardSupport.Board.StartTriggerAsWritten | config/riscv32/boards/cycle/boardsupport.c:46-50 | With the read as written, `cycle` holds the torn value: at least the counter at the low read and less than 2^32 above the counter at the next instant. |
| BoardSupport.Board.StopTrigger | config/riscv32/boards/cycle/boardsupport.c:53-58 | With the corrected read, `cycle` becomes the `uint64_t` difference between the counter at one instant and the recorded value. The line `cycle = 0x%016x` is printed. |
| BoardSupport.Board.StopTriggerAsWritten | config/riscv32/boards/cycle/boardsupport.c:53-58 | With the read as written, `cycle` becomes the `uint64_t` difference between a torn reading and the recorded value, and the same line is printed. |
| BoardSupport.Board.MeasureRegion | config/riscv32/boards/cycle/boardsupport.c:46-58 | With the corrected read, around a region of `work` instants, the printed count is exactly the counter's advance between two readings that enclose the region. |
| BoardSupport.Board.MeasureRegionAsWritten | config/riscv32/boards/cycle/boardsupport.c:46-58 | With the read as written, the printed count is the `uint64_t` difference of two torn readings that enclose the region. |
| BoardSupport.TornBounds | config/riscv32/boards/cycle/boardsupport.c:30-36 | The high half of a later reading joined with the low half of an earlier one is a 64-bit value, never below the earlier reading and less than 2^32 above the later one. |
| BoardSupport.AsWrittenValue | config/riscv32/boards/cycle/boardsupport.c:25-37 | The value `rdcycle` as written returns lies between the counter at the low read and 2^32 above the counter at the first high read. |
| BoardSupport.AsWrittenCountWithoutCarry | config/riscv32/boards/cycle/boardsupport.c:46-58 | Without a carry right after either low read, the count printed as written is the true advance. |
| Numerals.FixedHex | config/riscv32/boards/cycle/boardsupport.c:57 | `%016x` gives exactly 16 lower-case hexadecimal digits. |
| Numerals.FixedHexRoundTrip | config/riscv32/boards/cycle/boardsupport.c:57 | Reading the padded digits back gives the value whenever it fits. |
| Numerals.Decimal | run_all.py:1484 | `str(n)` is a non-empty string of decimal digits without leading zeros. |
| Numerals.DecimalRoundTrip | run_all.py:1484 | `int(str(n)) == n`. |
| Rv32Spike.Runs | bm_rv32_spike.py:53-87 | The run list has the eight entries, each named `<cpre><isa><opt>[-msave-restore]` with cflags `-march=<isa> <opt>[ -msave-restore]`. |
| Rv32Spike.Rv32OptRunset | bm_rv32_spike.py:18-100 | The run-set exists exactly for `gcc` and `clang`. Any other compiler raises `KeyError(compiler)`. |
| Rv32Spike.NamesDiffer | bm_rv32_spike.py:55-85 | Runs of two run lists whose prefixes and options have equal lengths differ in name unless they are the same run. |
| Rv32Spike.RunNamesDistinct | bm_rv32_spike.py:53-87 | The eight runs are named with the compiler's prefix and no two share a name, so no result file is overwritten. |
| Rv32Spike.OfferedNamesDistinct | bm_rv32_spike.py:103-105 | No two runs of the three offered run-sets share a name. |
| Rv32Spike.NoWarnings | bm_rv32_spike.py:44-87 | Every key of the common profile and of every run is a known parameter, so no warning is printed. |
| Rv32Spike.OwnCflagWords | bm_rv32_spike.py:56-86 | A run's own compiler words are its `-march`, the option's words, then `-msave-restore` where the entry says so. |
| Rv32Spike.CflagWords | bm_rv32_spike.py:50-86 | The merged compiler words are the common flags followed by the run's own words. |
| Rv32Spike.MergedEntry | bm_rv32_spike.py:44-87 | The merge of the common profile with an entry has the common target, compiler, toolchain and link flags, the entry's name, and the joined cflags. |
| Rv32Spike.MergedRun | bm_rv32_spike.py:44-87 | Every merged run of the set has that shape, and its compiler words are the common flags then its own. |
| Rv32Spike.SpeedTimeoutToken | bm_rv32_spike.py:32 | The speed measurement is told `--timeout=1800`. |
| Rv32Spike.PlannedEntry | bm_rv32_spike.py:18-100 | Each entry's run is complete, raises nothing and makes four calls: the size measurement with a 30 s limit and desc `sized`, and the speed measurement with `--timeout=1800` and desc `run`. |
| Rv32Spike.PlannedRun | bm_rv32_spike.py:18-100 | Each of the eight runs of the set has that plan. |
| Rv32Spike.SpikeCommandLine | bm_rv32_spike.py:36-40 | With the script's target options, Spike runs each benchmark as `spike --isa=... pk <bench>`, the ISA string passed as one word. |

## Left out

- Driver.RunSet and Driver.Descriptor make a run-set's `name` and `runs` and a descriptor's `arglist` and `desc` mandatory fields, so the `KeyError` the code raises when one of them is missing (run_all.py:1382, 1386, 1454, 1456, 1487, 1489) cannot occur in the model.
- Printing, logging and the `verbose` echo of command lines are not modelled; `print(rs['name'])` (run_all.py:1382) and the per-run name print have no effect in the model.
- Argument parsing (`build_parser`, `get_target_args`) and run-set selection (run_all.py:1344-1378, bm_rv32_spike.py:108-132) are left out: the parsed options are a `Cli` value and the Spike options a `SpikeOptions` value; only their defaults are modelled.
- `os.makedirs` of the result directory (run_all.py:1411-1416) is left out: file-system errors are not modelled.
- The install directory `prepend_path` computes with `os.path.abspath(os.path.join(...))` (run_all.py:1299-1304) is an opaque function parameter; path normalisation is not modelled, so what it makes of an absolute `path` entry such as those of the RV32 table is not captured.
- The `env=env` argument of the build's `subprocess.run` (run_all.py:1252) is not modelled: the `env` parameter of a run reaches the build only as `--env=...`.
- Driver.Runner.BuildBenchmarks, Driver.StopStatus and Driver.EffectAsWritten: a build that times out is treated like a failed build (`Exit(1)`); as written the handler at run_all.py:1259-1262 reads the unassigned `res` and raises `UnboundLocalError`, which also ends the process with status 1 but with a traceback instead of the message.
- Wall-clock time, the kill of a timed-out process and the subprocess contents are an oracle: each call's outcome is `Exited(code, stdout)` or `TimedOut`.
- RunSpike.DecodeResults: the result is an exact `real` (count/1000); the rounding of `float(cycle) / 1000.0` is not modelled.
- RunSpike.IsWordChar covers ASCII only: Unicode `\w` and the non-ASCII digits accepted by `int()` are not modelled.
- Text.IsSpace covers the ASCII and Latin-1 white space of `str.split()` (including `\x1c`-`\x1f`, `\x85` and `\xa0`); the rest of Unicode white space (U+1680, U+2000-U+200A, U+2028, U+2029, U+202F, U+205F, U+3000) is not modelled.
- The 64-bit `rdcycle` (boardsupport.c:15-23) and `initialise_board` (boardsupport.c:40-44) are left out: the model is the 32-bit board only.
- BoardSupport.Board.MeasureRegion: assumes a counter that never wraps past 2^64 during a run (`CounterOk`), and uses the corrected read order; as written the count can be torn and wrap to near 2^64 (`BoardSupport.TornIntervalWraps`), which `MeasureRegionAsWritten` models.
- BoardSupport.Board.StartTrigger: uses the corrected `ReadCycle` (high, low, high); `start_trigger` as written calls the low-first `rdcycle` and can record a torn value, which `StartTriggerAsWritten` models.
- BoardSupport.Board.StopTrigger: uses the corrected `ReadCycle`; `stop_trigger` as written takes its new reading with the low-first `rdcycle`, which `StopTriggerAsWritten` models.
- Driver.Runner.Measure: uses the corrected `benchmark`, so a timed-out measurement writes nothing and lets the loop go on; as written it raises `UnboundLocalError` (run_all.py:1283-1284) and ends `main`, which `Driver.Runner.MeasureAsWritten`, `Driver.TimeoutEndsAsWritten` and `Driver.TimeoutEndsCampaign` model.
- Driver.Runner.SizePhase: a timed-out size measurement yields `Continue`; as written the process ends with `UnboundLocalError` (see `Driver.TimeoutEndsAsWritten`).
- Driver.Runner.SpeedPhase: a timed-out speed measurement yields `Continue`; as written the process ends with `UnboundLocalError` (see `Driver.TimeoutEndsAsWritten`).
- Driver.Runner.Phases: inherits `Continue` after a timed-out measurement, where the code as written raises.
- Driver.Runner.RunOne: after a timed-out measurement the run continues and restores `PATH`; as written it raises before run_all.py:1496.
- Driver.Runner.RunRunSet: runs after a timed-out measurement still execute; as written the exception ends the campaign (`Driver.TimeoutEndsCampaign`).
- Driver.Runner.RunCampaign: later run-sets after a timed-out measurement still execute; as written the exception ends the campaign (`Driver.TimeoutEndsCampaign`).
- PathScope.Environment.PrependPath: `PATH` is always set in the model; `env['PATH']` (run_all.py:1306) raises `KeyError` when it is unset, which is not modelled.
- bm_rv32_spike.py:6 imports `run_all` from run_all.py, which defines no such function (its entry point is `main`, run_all.py:1344), so the script as shipped stops with `ImportError`; the model feeds `Rv32OptRunset` to the loop of `main` (`Driver.RunSetPlans`) instead.

## Findings

| source | as written | input that shows it | evidently intended | confidence | as-written member | corrected member |
|---|---|---|---|---|---|---|
| run_all.py:1283-1286 | The `TimeoutExpired` handler of `benchmark` reads `res.stdout`, but `res` was never assigned because `subprocess.run` raised. | A measurement that runs longer than its timeout: the handler raises `UnboundLocalError` and the whole campaign stops (`Driver.TimeoutEndsCampaign`). | A timed-out measurement is a failed phase. Nothing is written and the loop goes on to the next run. | not executed | ResultFile.ResultStore.BenchmarkAsWritten | ResultFile.ResultStore.Benchmark |
| config/riscv32/boards/cycle/boardsupport.c:30-36 | `rdcycle` reads `cycle` (low) first, then `cycleh` twice, and retries only when the two high reads differ. | The low read returns `0xffffffff`, the counter carries, and both high reads return `1`. The loop accepts `0x1_ffffffff`, almost 2^32 above the counter, and a later exact stop reading wraps to a count near 2^64. | The order of section 10.1 of the RISC-V Unprivileged ISA: high, low, high. The result is then the counter at the low read. | not executed | BoardSupport.Board.ReadCycleAsWritten | BoardSupport.Board.ReadCycle |
