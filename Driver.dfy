/** The per-run pipeline of run_all.py (`main`, lines 1381-1497): for every
    run of every run-set, merge the run with the run-set's common profile,
    derive the link flags, scope PATH to the run's toolchain, then build and
    measure the size phase and the speed phase. Every subprocess is an oracle:
    the `n`-th call the driver makes returns `outcome(n)`. */
module Driver {
  import opened Outcomes
  import opened Numerals
  import opened Params
  import opened Flags
  import opened BuildCommand
  import opened ResultFile
  import opened PathScope

  /** A run-set's `'size benchmark'` or `'speed benchmark'` entry. The
      timeout is optional because the speed entry is tested for it. */
  datatype Descriptor = Descriptor(arglist: seq<string>, timeout: Option<nat>, desc: string)

  datatype RunSet = RunSet(
    name: string, size: Option<Descriptor>, speed: Option<Descriptor>,
    common: Option<Config>, runs: seq<Config>)

  /** The command-line options the loop reads. */
  datatype Cli = Cli(
    benchmark: seq<string>, exclude: seq<string>,
    builddir: string, logdir: string, resdir: string, verbose: bool)

  /** One subprocess: a build of `req`, or a measurement whose output goes
      to `resfile`. */
  datatype Call =
    | BuildCall(req: BuildRequest)
    | MeasureCall(args: seq<string>, timeout: nat, desc: string, resfile: string, append: bool)

  /** The command line a call runs. */
  function Argv(c: Call): seq<string> {
    match c
    case BuildCall(req) => BuildArgs(req)
    case MeasureCall(args, _, _, _, _) => args
  }

  /** The calls a run makes when every build succeeds, and the exception
      raised after them, if any. */
  datatype Plan = Plan(calls: seq<Call>, error: Option<Error>)

  /** How a run ends: the loop goes on, `sys.exit(code)`, or an uncaught
      exception. */
  datatype Status = Continue | Exit(code: int) | Crash(error: Error)

  /* ---- What a run does ---- */

  /** The configuration a run is built with: merged only when the run-set has
      a common profile. */
  function Resolved(rs: RunSet, run: Config): Config {
    if rs.common.Some? then Merged(rs.common.value, run) else run
  }

  /** `r.get(key)`. */
  function Get(r: Config, key: string): Option<string> {
    if key in r then Some(r[key]) else None
  }

  /** `os.path.join(resdir, name + '.json')`. */
  function ResultPath(resdir: string, name: string): string {
    var file := name + ".json";
    if file[0] == '/' then file
    else if resdir == [] || resdir[|resdir| - 1] == '/' then resdir + file
    else resdir + "/" + file
  }

  /** `add_arglist`: what every measurement gets after its own arguments. */
  function SharedArgs(cli: Cli): seq<string> {
    ["--builddir=" + cli.builddir, "--logdir=" + cli.logdir]
      + NameList("--benchmark", cli.benchmark) + NameList("--exclude", cli.exclude)
      + (if cli.verbose then ["--verbose"] else [])
  }

  /** The `KeyError` the build call raises while reading the target, if any. */
  function MissingTarget(r: Config): Option<Error> {
    if "arch" !in r then Some(KeyError("arch"))
    else if "chip" !in r then Some(KeyError("chip"))
    else if "board" !in r then Some(KeyError("board"))
    else None
  }

  /** The arguments of a `build_benchmarks` call for run `r`. */
  function Request(r: Config, cli: Cli, ldflags: Option<string>, dummyLibs: Option<string>,
                   userLibs: Option<string>): BuildRequest
    requires MissingTarget(r).None?
  {
    BuildRequest(cli.benchmark, cli.exclude, cli.builddir, cli.logdir,
                 r["arch"], r["chip"], r["board"],
                 Get(r, "cc"), Get(r, "ld"), Get(r, "cflags"), ldflags, dummyLibs, userLibs,
                 Get(r, "env"), Get(r, "cpu_mhz"), Get(r, "warmup_heat"))
  }

  function SizeRequest(r: Config, cli: Cli, ldflags: string): BuildRequest
    requires MissingTarget(r).None?
  {
    Request(r, cli, Some(ldflags), Some(SizeDummyLibs), None)
  }

  function SpeedRequest(r: Config, cli: Cli): BuildRequest
    requires MissingTarget(r).None?
  {
    Request(r, cli, Get(r, "ldflags"), None, Some(SpeedUserLibs(r)))
  }

  /** The size measurement's command line. */
  function SizeMeasureArgs(d: Descriptor, shared: seq<string>, withSpeed: bool): seq<string> {
    d.arglist + shared + (if withSpeed then ["--json-comma"] else [])
  }

  /** The speed measurement's command line. */
  function SpeedMeasureArgs(d: Descriptor, shared: seq<string>, withSize: bool): seq<string> {
    d.arglist + shared
      + ((if withSize then ["--no-json-head"] else [])
         + (if d.timeout.Some? then ["--timeout=" + Decimal(d.timeout.value)] else []))
  }

  /** The size phase: build, then measure into a fresh result file. */
  function SizePlan(d: Descriptor, withSpeed: bool, r: Config, cli: Cli, ldflags: string,
                    resfile: string): Plan
  {
    if MissingTarget(r).Some? then Plan([], MissingTarget(r))
    else
      var build := BuildCall(SizeRequest(r, cli, ldflags));
      if d.timeout.None? then Plan([build], Some(KeyError("timeout")))
      else Plan([build, MeasureCall(SizeMeasureArgs(d, SharedArgs(cli), withSpeed),
                                    d.timeout.value, d.desc, resfile, false)], None)
  }

  /** The speed phase: build, then measure, appending to the result file. The
      descriptor's timeout is read after the build even when it is missing. */
  function SpeedPlan(d: Descriptor, withSize: bool, r: Config, cli: Cli, resfile: string): Plan {
    if MissingTarget(r).Some? then Plan([], MissingTarget(r))
    else
      var build := BuildCall(SpeedRequest(r, cli));
      if d.timeout.None? then Plan([build], Some(KeyError("timeout")))
      else Plan([build, MeasureCall(SpeedMeasureArgs(d, SharedArgs(cli), withSize),
                                    d.timeout.value, d.desc, resfile, true)], None)
  }

  /** Plan `a`, then plan `b` unless `a` raised. */
  function Then(a: Plan, b: Plan): Plan {
    if a.error.Some? then a else Plan(a.calls + b.calls, b.error)
  }

  /** The size phase of a run, if its run-set has one. */
  function SizePart(rs: RunSet, r: Config, cli: Cli, ldflags: string, resfile: string): Plan {
    if rs.size.Some? then SizePlan(rs.size.value, rs.speed.Some?, r, cli, ldflags, resfile)
    else Plan([], None)
  }

  /** The two phases of a run with merged configuration `r`: the size phase
      if the run-set has one, then the speed phase if it has one. */
  function PhasesPlan(rs: RunSet, r: Config, cli: Cli, ldflags: string, resfile: string): Plan {
    var size := SizePart(rs, r, cli, ldflags, resfile);
    if rs.speed.None? then size
    else Then(size, SpeedPlan(rs.speed.value, rs.size.Some?, r, cli, resfile))
  }

  /** Everything one run does, in order, when its builds succeed. */
  function RunPlan(rs: RunSet, run: Config, cli: Cli): Plan {
    var r := Resolved(rs, run);
    if "name" !in r then Plan([], Some(KeyError("name")))
    else match SizeLdflags(r)
      case Failure(e) => Plan([], Some(e))
      case Success(ldflags) => PhasesPlan(rs, r, cli, ldflags, ResultPath(cli.resdir, r["name"]))
  }

  /** PATH while the run's subprocesses execute. */
  function ScopedPath(r: Config, installDir: string -> string, path: string): string {
    if Truthy(Get(r, "path")) then Prepended(installDir(r["path"]), path) else path
  }

  /** The keys `merge_params` warns about for one run. */
  function RunWarnings(rs: RunSet, run: Config): set<string> {
    if rs.common.Some? then UnknownKeys(run) else {}
  }

  /* ---- Running the calls ---- */

  /** A call ends the process: a build that does not exit with status 0. */
  predicate Stops(c: Call, res: ProcResult) {
    c.BuildCall? && !Succeeded(res)
  }

  /** Whether some call of `calls`, run from oracle position `base`, ends the process. */
  predicate Halted(calls: seq<Call>, outcome: nat -> ProcResult, base: nat) {
    calls != [] && (Stops(calls[0], outcome(base)) || Halted(calls[1..], outcome, base + 1))
  }

  /** How many of `calls` are made: up to and including a failing build. */
  function Executed(calls: seq<Call>, outcome: nat -> ProcResult, base: nat): (n: nat)
    ensures n <= |calls|
  {
    if calls == [] then 0
    else if Stops(calls[0], outcome(base)) then 1
    else 1 + Executed(calls[1..], outcome, base + 1)
  }

  /** The effect of one call on the result files. */
  function Apply(c: Call, files: map<string, string>, res: ProcResult): map<string, string> {
    match c
    case BuildCall(_) => files
    case MeasureCall(_, _, desc, resfile, append) => AfterMeasure(files, res, desc, resfile, append)
  }

  /** The result files after the calls that are made. */
  function FilesAfter(calls: seq<Call>, files: map<string, string>, outcome: nat -> ProcResult,
                      base: nat): map<string, string>
  {
    if calls == [] || Stops(calls[0], outcome(base)) then files
    else FilesAfter(calls[1..], Apply(calls[0], files, outcome(base)), outcome, base + 1)
  }

  /** How a run with plan `plan` ends. */
  function RunStatus(plan: Plan, outcome: nat -> ProcResult, base: nat): Status {
    if Halted(plan.calls, outcome, base) then Exit(1)
    else if plan.error.Some? then Crash(plan.error.value)
    else Continue
  }

  /** Plans run one after the other, up to the first that raises. */
  function Sequence(plans: seq<Plan>): Plan {
    if plans == [] then Plan([], None)
    else Then(Sequence(plans[..|plans| - 1]), plans[|plans| - 1])
  }

  /** The plan of each run of run-set `rs`. */
  function RunPlans(rs: RunSet, runs: seq<Config>, cli: Cli): (plans: seq<Plan>)
    ensures |plans| == |runs|
    ensures forall i :: 0 <= i < |runs| ==> plans[i] == RunPlan(rs, runs[i], cli)
  {
    seq(|runs|, i requires 0 <= i < |runs| => RunPlan(rs, runs[i], cli))
  }

  /** Runs `runs` of run-set `rs`, one after the other. */
  function RunsPlan(rs: RunSet, runs: seq<Config>, cli: Cli): Plan {
    Sequence(RunPlans(rs, runs, cli))
  }

  /** The plan of each run-set of a campaign. */
  function RunSetPlans(runsets: seq<RunSet>, cli: Cli): (plans: seq<Plan>)
    ensures |plans| == |runsets|
    ensures forall i :: 0 <= i < |runsets| ==> plans[i] == RunsPlan(runsets[i], runsets[i].runs, cli)
  {
    seq(|runsets|, i requires 0 <= i < |runsets| => RunsPlan(runsets[i], runsets[i].runs, cli))
  }

  /** A whole campaign: every run of every run-set. */
  function CampaignPlan(runsets: seq<RunSet>, cli: Cli): Plan {
    Sequence(RunSetPlans(runsets, cli))
  }

  /** The keys a run-set's runs are warned about: the common profile's and
      every run's unknown keys. */
  function RunSetWarnings(rs: RunSet, runs: seq<Config>): set<string> {
    if runs == [] then (if rs.common.Some? then UnknownKeys(rs.common.value) else {})
    else RunSetWarnings(rs, runs[..|runs| - 1]) + RunWarnings(rs, runs[|runs| - 1])
  }

  function CampaignWarnings(runsets: seq<RunSet>): set<string> {
    if runsets == [] then {}
    else CampaignWarnings(runsets[..|runsets| - 1])
         + RunSetWarnings(runsets[|runsets| - 1], runsets[|runsets| - 1].runs)
  }

  lemma RunSetWarningsSnoc(rs: RunSet, runs: seq<Config>, i: nat)
    requires i < |runs|
    ensures RunSetWarnings(rs, runs[..i + 1]) == RunSetWarnings(rs, runs[..i]) + RunWarnings(rs, runs[i])
  {
    assert runs[..i + 1][..i] == runs[..i];
  }

  lemma CampaignWarningsSnoc(runsets: seq<RunSet>, i: nat)
    requires i < |runsets|
    ensures CampaignWarnings(runsets[..i + 1])
         == CampaignWarnings(runsets[..i]) + RunSetWarnings(runsets[i], runsets[i].runs)
  {
    assert runsets[..i + 1][..i] == runsets[..i];
  }

  /** A plan ends the process: one of its builds fails or it raises. */
  predicate Ends(p: Plan, outcome: nat -> ProcResult, base: nat) {
    Halted(p.calls, outcome, base) || p.error.Some?
  }

  /** What running a plan leaves behind: the calls made, the result files
      and how it ends. */
  function Effect(p: Plan, outcome: nat -> ProcResult, base: nat, files: map<string, string>)
    : (seq<Call>, map<string, string>, Status)
  {
    (p.calls[..Executed(p.calls, outcome, base)], FilesAfter(p.calls, files, outcome, base),
     RunStatus(p, outcome, base))
  }

  /* ---- Composing runs of calls ---- */

  lemma {:induction false} HaltedAppend(a: seq<Call>, b: seq<Call>, outcome: nat -> ProcResult, base: nat)
    ensures Halted(a + b, outcome, base)
        <==> Halted(a, outcome, base) || Halted(b, outcome, base + |a|)
    decreases |a|
  {
    if a == [] {
      assert a + b == b;
    } else {
      assert (a + b)[0] == a[0] && (a + b)[1..] == a[1..] + b;
      HaltedAppend(a[1..], b, outcome, base + 1);
    }
  }

  lemma {:induction false} ExecutedAppend(a: seq<Call>, b: seq<Call>, outcome: nat -> ProcResult, base: nat)
    ensures Executed(a, outcome, base) <= |a|
    ensures Executed(a + b, outcome, base)
         == if Halted(a, outcome, base) then Executed(a, outcome, base)
            else |a| + Executed(b, outcome, base + |a|)
    decreases |a|
  {
    if a == [] {
      assert a + b == b;
    } else {
      assert (a + b)[0] == a[0] && (a + b)[1..] == a[1..] + b;
      ExecutedAppend(a[1..], b, outcome, base + 1);
    }
  }

  lemma {:induction false} FilesAfterAppend(a: seq<Call>, b: seq<Call>, files: map<string, string>,
                                            outcome: nat -> ProcResult, base: nat)
    ensures FilesAfter(a + b, files, outcome, base)
         == if Halted(a, outcome, base) then FilesAfter(a, files, outcome, base)
            else FilesAfter(b, FilesAfter(a, files, outcome, base), outcome, base + |a|)
    decreases |a|
  {
    if a == [] {
      assert a + b == b;
    } else {
      assert (a + b)[0] == a[0] && (a + b)[1..] == a[1..] + b;
      if !Stops(a[0], outcome(base)) {
        FilesAfterAppend(a[1..], b, Apply(a[0], files, outcome(base)), outcome, base + 1);
      }
    }
  }

  /** Calls that do not halt are all made. */
  lemma {:induction false} ExecutedAll(calls: seq<Call>, outcome: nat -> ProcResult, base: nat)
    ensures !Halted(calls, outcome, base) ==> Executed(calls, outcome, base) == |calls|
    ensures Halted(calls, outcome, base) ==>
      var n := Executed(calls, outcome, base);
      1 <= n <= |calls| && Stops(calls[n - 1], outcome(base + n - 1))
    decreases |calls|
  {
    if calls != [] && !Stops(calls[0], outcome(base)) {
      ExecutedAll(calls[1..], outcome, base + 1);
    }
  }

  /** A run whose first part ends the process goes no further. */
  lemma PlanAfterStop(a: Plan, b: Plan, outcome: nat -> ProcResult, base: nat, files: map<string, string>)
    requires Halted(a.calls, outcome, base)
    ensures var p := Then(a, b);
      var n := Executed(p.calls, outcome, base);
      n == Executed(a.calls, outcome, base) && p.calls[..n] == a.calls[..n]
      && FilesAfter(p.calls, files, outcome, base) == FilesAfter(a.calls, files, outcome, base)
      && RunStatus(p, outcome, base) == RunStatus(a, outcome, base) == Exit(1)
  {
    if a.error.None? {
      HaltedAppend(a.calls, b.calls, outcome, base);
      ExecutedAppend(a.calls, b.calls, outcome, base);
      FilesAfterAppend(a.calls, b.calls, files, outcome, base);
      var n := Executed(a.calls, outcome, base);
      assert (a.calls + b.calls)[..n] == a.calls[..n];
    }
  }

  /** A run whose first part goes on continues with the second part from
      where the first left the oracle and the files. */
  lemma PlanOfBoth(a: Plan, b: Plan, outcome: nat -> ProcResult, base: nat, files: map<string, string>)
    requires !Halted(a.calls, outcome, base) && a.error.None?
    ensures var p := Then(a, b);
      var m := Executed(b.calls, outcome, base + |a.calls|);
      p.calls[..Executed(p.calls, outcome, base)] == a.calls + b.calls[..m]
      && FilesAfter(p.calls, files, outcome, base)
         == FilesAfter(b.calls, FilesAfter(a.calls, files, outcome, base), outcome, base + |a.calls|)
      && RunStatus(p, outcome, base) == RunStatus(b, outcome, base + |a.calls|)
      && (Ends(p, outcome, base) <==> Ends(b, outcome, base + |a.calls|))
  {
    HaltedAppend(a.calls, b.calls, outcome, base);
    ExecutedAppend(a.calls, b.calls, outcome, base);
    ExecutedAppend(b.calls, [], outcome, base + |a.calls|);
    FilesAfterAppend(a.calls, b.calls, files, outcome, base);
    var m := Executed(b.calls, outcome, base + |a.calls|);
    assert (a.calls + b.calls)[..|a.calls| + m] == a.calls + b.calls[..m];
  }

  /** Whatever follows a plan that ends the process changes nothing. */
  lemma ThenAfterEnd(a: Plan, b: Plan, outcome: nat -> ProcResult, base: nat, files: map<string, string>)
    requires Ends(a, outcome, base)
    ensures Ends(Then(a, b), outcome, base)
    ensures Effect(Then(a, b), outcome, base, files) == Effect(a, outcome, base, files)
  {
    if a.error.None? {
      PlanAfterStop(a, b, outcome, base, files);
      HaltedAppend(a.calls, b.calls, outcome, base);
    }
  }

  /** A sequence stopped by plan `k - 1` stops there. */
  lemma {:induction false} SequenceAfterEnd(plans: seq<Plan>, k: nat, outcome: nat -> ProcResult, base: nat,
                                            files: map<string, string>)
    requires k <= |plans| && Ends(Sequence(plans[..k]), outcome, base)
    ensures Ends(Sequence(plans), outcome, base)
    ensures Effect(Sequence(plans), outcome, base, files) == Effect(Sequence(plans[..k]), outcome, base, files)
    decreases |plans|
  {
    if k == |plans| {
      assert plans[..k] == plans;
    } else {
      var init := plans[..|plans| - 1];
      assert init[..k] == plans[..k];
      SequenceAfterEnd(init, k, outcome, base, files);
      ThenAfterEnd(Sequence(init), plans[|plans| - 1], outcome, base, files);
    }
  }

  /** A plan ends the process exactly when it does not let the loop go on. */
  lemma EndsIffStops(p: Plan, outcome: nat -> ProcResult, base: nat)
    ensures Ends(p, outcome, base) <==> !RunStatus(p, outcome, base).Continue?
  {
  }

  /** Running plan `p` took the calls made from `log0` to `log1` and the
      result files from `files0` to `files1`, and ended with `st`. */
  predicate Ran(p: Plan, outcome: nat -> ProcResult, log0: seq<Call>, log1: seq<Call>,
                files0: map<string, string>, files1: map<string, string>, st: Status)
  {
    log1 == log0 + p.calls[..Executed(p.calls, outcome, |log0|)]
    && files1 == FilesAfter(p.calls, files0, outcome, |log0|)
    && st == RunStatus(p, outcome, |log0|)
  }

  lemma RanNothing(outcome: nat -> ProcResult, log: seq<Call>, files: map<string, string>)
    ensures Ran(Plan([], None), outcome, log, log, files, files, Continue)
  {
    assert log + [] == log;
  }

  /** A plan that lets the loop go on is followed by the next one. */
  lemma RanThen(a: Plan, b: Plan, outcome: nat -> ProcResult, log0: seq<Call>, log1: seq<Call>,
                log2: seq<Call>, files0: map<string, string>, files1: map<string, string>,
                files2: map<string, string>, st: Status)
    requires Ran(a, outcome, log0, log1, files0, files1, Continue)
    requires Ran(b, outcome, log1, log2, files1, files2, st)
    ensures Ran(Then(a, b), outcome, log0, log2, files0, files2, st)
  {
    EndsIffStops(a, outcome, |log0|);
    ExecutedAll(a.calls, outcome, |log0|);
    assert a.calls[..|a.calls|] == a.calls;
    PlanOfBoth(a, b, outcome, |log0|, files0);
  }

  /** A plan that ends the process is the last one run. */
  lemma RanStop(a: Plan, b: Plan, outcome: nat -> ProcResult, log0: seq<Call>, log1: seq<Call>,
                files0: map<string, string>, files1: map<string, string>, st: Status)
    requires Ran(a, outcome, log0, log1, files0, files1, st) && !st.Continue?
    ensures Ran(Then(a, b), outcome, log0, log1, files0, files1, st)
  {
    EndsIffStops(a, outcome, |log0|);
    ThenAfterEnd(a, b, outcome, |log0|, files0);
  }

  /** Plans with the same effect are run alike. */
  lemma RanSameEffect(p: Plan, q: Plan, outcome: nat -> ProcResult, log0: seq<Call>, log1: seq<Call>,
                      files0: map<string, string>, files1: map<string, string>, st: Status)
    requires Effect(p, outcome, |log0|, files0) == Effect(q, outcome, |log0|, files0)
    requires Ran(p, outcome, log0, log1, files0, files1, st)
    ensures Ran(q, outcome, log0, log1, files0, files1, st)
  {
  }

  /** One more plan of a sequence: the plans so far went on, and plan `i`
      is run next. If plan `i` ends the process, so does the sequence. */
  lemma SequenceStep(plans: seq<Plan>, i: nat, outcome: nat -> ProcResult,
                     log0: seq<Call>, log1: seq<Call>, log2: seq<Call>, files0: map<string, string>,
                     files1: map<string, string>, files2: map<string, string>, st: Status)
    requires i < |plans|
    requires Ran(Sequence(plans[..i]), outcome, log0, log1, files0, files1, Continue)
    requires Ran(plans[i], outcome, log1, log2, files1, files2, st)
    ensures Ran(Sequence(plans[..i + 1]), outcome, log0, log2, files0, files2, st)
    ensures !st.Continue? ==> Ran(Sequence(plans), outcome, log0, log2, files0, files2, st)
  {
    assert plans[..i + 1][..i] == plans[..i];
    RanThen(Sequence(plans[..i]), plans[i], outcome, log0, log1, log2, files0, files1, files2, st);
    if !st.Continue? {
      EndsIffStops(Sequence(plans[..i + 1]), outcome, |log0|);
      SequenceAfterEnd(plans, i + 1, outcome, |log0|, files0);
      RanSameEffect(Sequence(plans[..i + 1]), Sequence(plans), outcome, log0, log2, files0, files2, st);
    }
  }

  /** A sequence whose every plan went on. */
  lemma SequenceAll(plans: seq<Plan>, outcome: nat -> ProcResult, log0: seq<Call>, log1: seq<Call>,
                    files0: map<string, string>, files1: map<string, string>)
    requires Ran(Sequence(plans[..|plans|]), outcome, log0, log1, files0, files1, Continue)
    ensures Ran(Sequence(plans), outcome, log0, log1, files0, files1, Continue)
  {
    assert plans[..|plans|] == plans;
  }

  lemma SequenceStart(outcome: nat -> ProcResult, log: seq<Call>, files: map<string, string>)
    ensures Ran(Sequence([]), outcome, log, log, files, files, Continue)
  {
    RanNothing(outcome, log, files);
  }

  /** A phase whose build succeeds and which then raises makes one call. */
  lemma BuildOnly(build: Call, outcome: nat -> ProcResult, base: nat, files: map<string, string>)
    requires build.BuildCall? && !Stops(build, outcome(base))
    ensures !Halted([build], outcome, base) && Executed([build], outcome, base) == 1
    ensures FilesAfter([build], files, outcome, base) == files
  {
    assert [build][1..] == [];
  }

  /** A phase whose build succeeds goes on to its measurement, and only the
      measurement touches the result files. */
  lemma BuildThenMeasure(build: Call, m: Call, outcome: nat -> ProcResult, base: nat,
                         files: map<string, string>)
    requires build.BuildCall? && m.MeasureCall? && !Stops(build, outcome(base))
    ensures !Halted([build, m], outcome, base) && Executed([build, m], outcome, base) == 2
    ensures FilesAfter([build, m], files, outcome, base) == Apply(m, files, outcome(base + 1))
  {
    assert [build, m][1..] == [m] && [m][1..] == [];
    assert Apply(build, files, outcome(base)) == files;
    assert !Stops(m, outcome(base + 1));
    assert !Halted([m][1..], outcome, base + 2);
    assert !Halted([m], outcome, base + 1);
    assert Executed([m], outcome, base + 1) == 1;
    assert FilesAfter([m], files, outcome, base + 1) == Apply(m, files, outcome(base + 1));
    assert FilesAfter([build, m], files, outcome, base) == FilesAfter([m], files, outcome, base + 1);
  }

  /* ---- The process as written ---- */

  /** As written, a call also ends the process when it is a measurement that
      timed out: the handler in `benchmark` reads `res`, which the timed-out
      call never assigned, and raises `UnboundLocalError`. */
  predicate StopsAsWritten(c: Call, res: ProcResult) {
    Stops(c, res) || (c.MeasureCall? && res.TimedOut?)
  }

  /** How the call that ends the process as written ends it. */
  function StopStatus(c: Call): Status {
    if c.BuildCall? then Exit(1) else Crash(UnboundLocalError("res"))
  }

  /** The position of the first of `calls`, run from oracle position `base`,
      that ends the process as written. */
  function FirstStop(calls: seq<Call>, outcome: nat -> ProcResult, base: nat): (k: Option<nat>)
    ensures k.Some? ==> k.value < |calls| && StopsAsWritten(calls[k.value], outcome(base + k.value))
    ensures k.Some? ==> forall j :: 0 <= j < k.value ==> !StopsAsWritten(calls[j], outcome(base + j))
    ensures k.None? ==> forall j :: 0 <= j < |calls| ==> !StopsAsWritten(calls[j], outcome(base + j))
    decreases |calls|
  {
    if calls == [] then None
    else if StopsAsWritten(calls[0], outcome(base)) then Some(0)
    else match FirstStop(calls[1..], outcome, base + 1)
      case None => None
      case Some(k) => Some(k + 1)
  }

  /** What running a plan leaves behind in the code as written: the calls up
      to the first that ends the process, the result files as the calls
      before it left them (a failed build and a timed-out measurement write
      nothing), and how it ends. */
  function EffectAsWritten(p: Plan, outcome: nat -> ProcResult, base: nat, files: map<string, string>)
    : (seq<Call>, map<string, string>, Status)
  {
    match FirstStop(p.calls, outcome, base)
    case Some(k) => (p.calls[..k + 1], FilesAfter(p.calls[..k], files, outcome, base), StopStatus(p.calls[k]))
    case None =>
      (p.calls, FilesAfter(p.calls, files, outcome, base),
       if p.error.Some? then Crash(p.error.value) else Continue)
  }

  /** Calls none of which fails a build are all made. */
  lemma {:induction false} NoStopsRunAll(calls: seq<Call>, outcome: nat -> ProcResult, base: nat)
    requires forall j :: 0 <= j < |calls| ==> !Stops(calls[j], outcome(base + j))
    ensures !Halted(calls, outcome, base) && Executed(calls, outcome, base) == |calls|
    decreases |calls|
  {
    if calls != [] {
      assert forall j :: 0 <= j < |calls| - 1 ==> calls[1..][j] == calls[j + 1];
      NoStopsRunAll(calls[1..], outcome, base + 1);
    }
  }

  /** The calls before position `k` go on, and call `k` fails a build: the
      corrected reading stops there, with the files the calls before left. */
  lemma BuildStopAt(calls: seq<Call>, outcome: nat -> ProcResult, base: nat, k: nat, files: map<string, string>)
    requires k < |calls| && Stops(calls[k], outcome(base + k))
    requires forall j :: 0 <= j < k ==> !Stops(calls[j], outcome(base + j))
    ensures Halted(calls, outcome, base) && Executed(calls, outcome, base) == k + 1
    ensures FilesAfter(calls, files, outcome, base) == FilesAfter(calls[..k], files, outcome, base)
  {
    var a, b := calls[..k], calls[k..];
    assert calls == a + b;
    assert forall j :: 0 <= j < k ==> a[j] == calls[j];
    NoStopsRunAll(a, outcome, base);
    assert b[0] == calls[k];
    HaltedAppend(a, b, outcome, base);
    ExecutedAppend(a, b, outcome, base);
    FilesAfterAppend(a, b, files, outcome, base);
  }

  /** The calls up to and including position `k` go on: the corrected
      reading makes them and carries on with the calls after `k`. */
  lemma GoesPast(calls: seq<Call>, outcome: nat -> ProcResult, base: nat, k: nat, files: map<string, string>)
    requires k < |calls|
    requires forall j :: 0 <= j <= k ==> !Stops(calls[j], outcome(base + j))
    ensures Executed(calls, outcome, base) == k + 1 + Executed(calls[k + 1..], outcome, base + k + 1)
    ensures FilesAfter(calls, files, outcome, base)
         == FilesAfter(calls[k + 1..], FilesAfter(calls[..k + 1], files, outcome, base), outcome, base + k + 1)
  {
    var a, b := calls[..k + 1], calls[k + 1..];
    assert calls == a + b;
    assert forall j :: 0 <= j <= k ==> a[j] == calls[j];
    NoStopsRunAll(a, outcome, base);
    ExecutedAppend(a, b, outcome, base);
    FilesAfterAppend(a, b, files, outcome, base);
  }

  /** Where no measurement that is made times out, the code as written and
      the corrected reading run a plan alike. */
  lemma AsWrittenWithoutTimeout(p: Plan, outcome: nat -> ProcResult, base: nat, files: map<string, string>)
    requires forall j :: 0 <= j < Executed(p.calls, outcome, base)
               ==> !(p.calls[j].MeasureCall? && outcome(base + j).TimedOut?)
    ensures EffectAsWritten(p, outcome, base, files) == Effect(p, outcome, base, files)
  {
    match FirstStop(p.calls, outcome, base)
    case None =>
      NoStopsRunAll(p.calls, outcome, base);
      assert p.calls[..|p.calls|] == p.calls;
    case Some(k) =>
      if !Stops(p.calls[k], outcome(base + k)) {
        GoesPast(p.calls, outcome, base, k, files);
        assert false;
      }
      BuildStopAt(p.calls, outcome, base, k, files);
  }

  /** The first call that ends the process as written is a measurement that
      timed out: the code raises `UnboundLocalError` right after it, having
      made no later call and written nothing for it, where the corrected
      reading goes on with the calls after it. */
  lemma TimeoutEndsAsWritten(p: Plan, outcome: nat -> ProcResult, base: nat, files: map<string, string>, k: nat)
    requires k < |p.calls| && p.calls[k].MeasureCall? && outcome(base + k).TimedOut?
    requires forall j :: 0 <= j < k ==> !StopsAsWritten(p.calls[j], outcome(base + j))
    ensures EffectAsWritten(p, outcome, base, files)
         == (p.calls[..k + 1], FilesAfter(p.calls[..k + 1], files, outcome, base), Crash(UnboundLocalError("res")))
    ensures Executed(p.calls, outcome, base) == k + 1 + Executed(p.calls[k + 1..], outcome, base + k + 1)
  {
    FirstStopAt(p.calls, outcome, base, k);
    GoesPast(p.calls, outcome, base, k, files);
    TimedOutWritesNothing(p.calls, outcome, base, k, files);
  }

  /** A campaign whose first call to end the process as written is a
      timed-out measurement ends there with `UnboundLocalError`: no later
      run and no later run-set makes a call. */
  lemma TimeoutEndsCampaign(runsets: seq<RunSet>, cli: Cli, outcome: nat -> ProcResult, base: nat,
                            files: map<string, string>, k: nat)
    requires var calls := CampaignPlan(runsets, cli).calls;
      k < |calls| && calls[k].MeasureCall? && outcome(base + k).TimedOut?
      && forall j :: 0 <= j < k ==> !StopsAsWritten(calls[j], outcome(base + j))
    ensures var p := CampaignPlan(runsets, cli);
      EffectAsWritten(p, outcome, base, files)
      == (p.calls[..k + 1], FilesAfter(p.calls[..k + 1], files, outcome, base), Crash(UnboundLocalError("res")))
  {
    TimeoutEndsAsWritten(CampaignPlan(runsets, cli), outcome, base, files, k);
  }

  /** The first call that ends the process as written is the first that
      stops. */
  lemma FirstStopAt(calls: seq<Call>, outcome: nat -> ProcResult, base: nat, k: nat)
    requires k < |calls| && StopsAsWritten(calls[k], outcome(base + k))
    requires forall j :: 0 <= j < k ==> !StopsAsWritten(calls[j], outcome(base + j))
    ensures FirstStop(calls, outcome, base) == Some(k)
  {
  }

  /** A measurement that timed out leaves the files as the calls before it
      left them. */
  lemma TimedOutWritesNothing(calls: seq<Call>, outcome: nat -> ProcResult, base: nat, k: nat,
                              files: map<string, string>)
    requires k < |calls| && calls[k].MeasureCall? && outcome(base + k).TimedOut?
    requires forall j :: 0 <= j < k ==> !Stops(calls[j], outcome(base + j))
    ensures FilesAfter(calls[..k + 1], files, outcome, base) == FilesAfter(calls[..k], files, outcome, base)
  {
    var a, m := calls[..k], calls[k];
    assert calls[..k + 1] == a + [m];
    assert forall j :: 0 <= j < k ==> a[j] == calls[j];
    NoStopsRunAll(a, outcome, base);
    FilesAfterAppend(a, [m], files, outcome, base);
    assert [m][1..] == [];
  }

  /** The process and its state: the oracle, the result files, the
      environment, and the calls made so far with the PATH each one saw. */
  class Runner {
    const outcome: nat -> ProcResult
    const store: ResultStore
    const env: Environment
    var log: seq<Call>
    var paths: seq<string>
    var warnings: set<string>

    predicate Valid()
      reads this
    {
      |paths| == |log|
    }

    constructor (outcome: nat -> ProcResult, path: string)
      ensures Valid() && fresh(store) && fresh(env)
      ensures this.outcome == outcome && store.files == map[] && env.path == path
      ensures log == [] && warnings == {}
    {
      this.outcome := outcome;
      store := new ResultStore();
      env := new Environment(path);
      log := [];
      paths := [];
      warnings := {};
    }

    /** Runs one subprocess: the next oracle answer is its outcome. */
    method Invoke(c: Call, argv: seq<string>) returns (res: ProcResult)
      requires Valid() && argv == Argv(c)
      modifies this
      ensures Valid()
      ensures log == old(log) + [c] && paths == old(paths) + [env.path]
      ensures res == outcome(|old(log)|) && warnings == old(warnings)
    {
      res := outcome(|log|);
      log := log + [c];
      paths := paths + [env.path];
    }

    /** `build_benchmarks` (run_all.py lines 1205-1262): build the command
        line, run it, and report whether it exited with status 0. */
    method BuildBenchmarks(req: BuildRequest) returns (ok: bool)
      requires Valid()
      modifies this
      ensures Valid()
      ensures log == old(log) + [BuildCall(req)] && paths == old(paths) + [env.path]
      ensures ok == !Stops(BuildCall(req), outcome(|old(log)|))
      ensures warnings == old(warnings)
    {
      var arglist := BuildArglist(req);
      var res := Invoke(BuildCall(req), arglist);
      ok := Succeeded(res);
    }

    /** `benchmark`: run a measurement and write its output on success. */
    method Measure(c: Call)
      requires Valid() && c.MeasureCall?
      modifies this, store
      ensures Valid()
      ensures log == old(log) + [c] && paths == old(paths) + [env.path]
      ensures store.files == Apply(c, old(store.files), outcome(|old(log)|))
      ensures warnings == old(warnings)
    {
      var res := Invoke(c, c.args);
      var _ := store.Benchmark(res, c.desc, c.resfile, c.append);
    }

    /** `benchmark` as written: a measurement that times out raises
        `UnboundLocalError`, which ends the process. */
    method MeasureAsWritten(c: Call) returns (st: Status)
      requires Valid() && c.MeasureCall?
      modifies this, store
      ensures Valid()
      ensures log == old(log) + [c] && paths == old(paths) + [env.path]
      ensures store.files == Apply(c, old(store.files), outcome(|old(log)|))
      ensures st == if StopsAsWritten(c, outcome(|old(log)|)) then StopStatus(c) else Continue
      ensures warnings == old(warnings)
    {
      var res := Invoke(c, c.args);
      var r := store.BenchmarkAsWritten(res, c.desc, c.resfile, c.append);
      st := if r.Failure? then Crash(r.error) else Continue;
    }

    /** The size phase (run_all.py lines 1433-1460): build with the size link
        flags and the dummy libraries, then measure into a fresh result file. */
    method SizePhase(d: Descriptor, withSpeed: bool, r: Config, cli: Cli, ldflags: string,
                     resfile: string) returns (st: Status)
      requires Valid()
      modifies this, store
      ensures Valid()
      ensures Ran(SizePlan(d, withSpeed, r, cli, ldflags, resfile), outcome, old(log), log, old(store.files), store.files, st)
      ensures paths[..|old(log)|] == old(paths)
      ensures forall i :: |old(log)| <= i < |log| ==> paths[i] == env.path
      ensures warnings == old(warnings)
    {
      if "arch" !in r {
        return Crash(KeyError("arch"));
      }
      if "chip" !in r {
        return Crash(KeyError("chip"));
      }
      if "board" !in r {
        return Crash(KeyError("board"));
      }
      ghost var plan, base := SizePlan(d, withSpeed, r, cli, ldflags, resfile), |log|;
      var ok := BuildBenchmarks(SizeRequest(r, cli, ldflags));
      if !ok {
        return Exit(1);
      }
      if d.timeout.None? {
        BuildOnly(plan.calls[0], outcome, base, old(store.files));
        return Crash(KeyError("timeout"));
      }
      var m := MeasureCall(SizeMeasureArgs(d, SharedArgs(cli), withSpeed), d.timeout.value, d.desc, resfile, false);
      BuildThenMeasure(plan.calls[0], m, outcome, base, old(store.files));
      Measure(m);
      return Continue;
    }

    /** The speed phase (run_all.py lines 1463-1493): build with the run's own
        link flags and libraries, then measure, appending to the result file. */
    method SpeedPhase(d: Descriptor, withSize: bool, r: Config, cli: Cli, resfile: string)
      returns (st: Status)
      requires Valid()
      modifies this, store
      ensures Valid()
      ensures Ran(SpeedPlan(d, withSize, r, cli, resfile), outcome, old(log), log, old(store.files), store.files, st)
      ensures paths[..|old(log)|] == old(paths)
      ensures forall i :: |old(log)| <= i < |log| ==> paths[i] == env.path
      ensures warnings == old(warnings)
    {
      if "arch" !in r {
        return Crash(KeyError("arch"));
      }
      if "chip" !in r {
        return Crash(KeyError("chip"));
      }
      if "board" !in r {
        return Crash(KeyError("board"));
      }
      ghost var plan, base := SpeedPlan(d, withSize, r, cli, resfile), |log|;
      var ok := BuildBenchmarks(SpeedRequest(r, cli));
      if !ok {
        return Exit(1);
      }
      var extra := if withSize then ["--no-json-head"] else [];
      if d.timeout.Some? {
        extra := extra + ["--timeout=" + Decimal(d.timeout.value)];
      }
      if d.timeout.None? {
        BuildOnly(plan.calls[0], outcome, base, old(store.files));
        return Crash(KeyError("timeout"));
      }
      var m := MeasureCall(d.arglist + SharedArgs(cli) + extra, d.timeout.value, d.desc, resfile, true);
      assert m == plan.calls[1];
      BuildThenMeasure(plan.calls[0], m, outcome, base, old(store.files));
      Measure(m);
      return Continue;
    }

    /** Both phases of one run, under the PATH already in place. */
    method Phases(rs: RunSet, r: Config, cli: Cli, ldflags: string, resfile: string) returns (st: Status)
      requires Valid()
      modifies this, store
      ensures Valid()
      ensures Ran(PhasesPlan(rs, r, cli, ldflags, resfile), outcome, old(log), log, old(store.files), store.files, st)
      ensures paths[..|old(log)|] == old(paths)
      ensures forall i :: |old(log)| <= i < |log| ==> paths[i] == env.path
      ensures warnings == old(warnings)
    {
      ghost var base := |log|;
      ghost var log0, files0 := log, store.files;
      ghost var size := SizePart(rs, r, cli, ldflags, resfile);
      st := MaybeSizePhase(rs, r, cli, ldflags, resfile);
      if rs.speed.None? {
        return;
      }
      ghost var speed := SpeedPlan(rs.speed.value, rs.size.Some?, r, cli, resfile);
      if !st.Continue? {
        RanStop(size, speed, outcome, log0, log, files0, store.files, st);
        return;
      }
      ghost var log1, files1 := log, store.files;
      st := SpeedPhase(rs.speed.value, rs.size.Some?, r, cli, resfile);
      RanThen(size, speed, outcome, log0, log1, log, files0, files1, store.files, st);
    }

    /** The size phase if the run-set has one. */
    method MaybeSizePhase(rs: RunSet, r: Config, cli: Cli, ldflags: string, resfile: string)
      returns (st: Status)
      requires Valid()
      modifies this, store
      ensures Valid()
      ensures Ran(SizePart(rs, r, cli, ldflags, resfile), outcome, old(log), log, old(store.files), store.files, st)
      ensures paths[..|old(log)|] == old(paths)
      ensures forall i :: |old(log)| <= i < |log| ==> paths[i] == env.path
      ensures warnings == old(warnings)
    {
      if rs.size.Some? {
        st := SizePhase(rs.size.value, rs.speed.Some?, r, cli, ldflags, resfile);
      } else {
        assert log[..|log|] == log;
        st := Continue;
      }
    }

    /** One run of the loop in `main` (run_all.py lines 1386-1497). */
    method RunOne(rs: RunSet, run: Config, cli: Cli, installDir: string -> string) returns (st: Status)
      requires Valid()
      modifies this, store, env
      ensures Valid()
      ensures Ran(RunPlan(rs, run, cli), outcome, old(log), log, old(store.files), store.files, st)
      ensures paths[..|old(log)|] == old(paths)
      ensures forall i :: |old(log)| <= i < |log| ==> paths[i] == ScopedPath(Resolved(rs, run), installDir, old(env.path))
      ensures st.Continue? ==> env.path == old(env.path)
      ensures warnings == old(warnings) + RunWarnings(rs, run)
    {
      var r := run;
      if rs.common.Some? {
        var warned;
        r, warned := MergeParams(rs.common.value, run);
        warnings := warnings + warned;
      }
      assert r == Resolved(rs, run);
      if "name" !in r {
        return Crash(KeyError("name"));
      }
      var ldflagsSize := SizeLdflags(r);
      if ldflagsSize.Failure? {
        return Crash(ldflagsSize.error);
      }
      var resfile := ResultPath(cli.resdir, r["name"]);
      var path := Get(r, "path");
      var oldPath := env.path;
      if Truthy(path) {
        oldPath := env.PrependPath(installDir(path.value));
      }
      assert env.path == ScopedPath(r, installDir, old(env.path));
      st := Phases(rs, r, cli, ldflagsSize.value, resfile);
      if st.Continue? && Truthy(path) {
        env.Restore(oldPath);
      }
    }

    /** One run-set (run_all.py lines 1381-1497, one iteration of the outer
        loop): check the common profile, then run each run in turn until one
        ends the process. */
    method RunRunSet(rs: RunSet, cli: Cli, installDir: string -> string) returns (st: Status)
      requires Valid()
      modifies this, store, env
      ensures Valid()
      ensures Ran(RunsPlan(rs, rs.runs, cli), outcome, old(log), log, old(store.files), store.files, st)
      ensures st.Continue? ==> env.path == old(env.path)
      ensures st.Continue? ==> warnings == old(warnings) + RunSetWarnings(rs, rs.runs)
    {
      if rs.common.Some? {
        var warned := CheckParams(rs.common.value);
        warnings := warnings + warned;
      }
      ghost var log0, files0 := log, store.files;
      ghost var plans := RunPlans(rs, rs.runs, cli);
      SequenceStart(outcome, log, store.files);
      assert plans[..0] == [];
      st := Continue;
      var i := 0;
      while i < |rs.runs|
        invariant 0 <= i <= |rs.runs| && Valid()
        invariant Ran(Sequence(plans[..i]), outcome, log0, log, files0, store.files, Continue)
        invariant st == Continue
        invariant env.path == old(env.path)
        invariant warnings == old(warnings) + RunSetWarnings(rs, rs.runs[..i])
      {
        ghost var log1, files1 := log, store.files;
        st := RunOne(rs, rs.runs[i], cli, installDir);
        SequenceStep(plans, i, outcome, log0, log1, log, files0, files1, store.files, st);
        if !st.Continue? {
          return;
        }
        RunSetWarningsSnoc(rs, rs.runs, i);
        i := i + 1;
      }
      SequenceAll(plans, outcome, log0, log, files0, store.files);
      assert rs.runs[..i] == rs.runs;
    }

    /** `main` after argument parsing (run_all.py lines 1376-1497): no
        run-set is an error; otherwise every run-set is run in turn until one
        ends the process. */
    method RunCampaign(runsets: seq<RunSet>, cli: Cli, installDir: string -> string) returns (st: Status)
      requires Valid()
      modifies this, store, env
      ensures Valid()
      ensures runsets == [] ==> st == Exit(1) && log == old(log) && store.files == old(store.files)
      ensures runsets != [] ==>
        Ran(CampaignPlan(runsets, cli), outcome, old(log), log, old(store.files), store.files, st)
      ensures st.Continue? ==> env.path == old(env.path)
      ensures st.Continue? ==> warnings == old(warnings) + CampaignWarnings(runsets)
    {
      if runsets == [] {
        return Exit(1);
      }
      ghost var log0, files0 := log, store.files;
      ghost var plans := RunSetPlans(runsets, cli);
      SequenceStart(outcome, log, store.files);
      assert plans[..0] == [];
      st := Continue;
      var i := 0;
      while i < |runsets|
        invariant 0 <= i <= |runsets| && Valid()
        invariant Ran(Sequence(plans[..i]), outcome, log0, log, files0, store.files, Continue)
        invariant st == Continue
        invariant env.path == old(env.path)
        invariant warnings == old(warnings) + CampaignWarnings(runsets[..i])
      {
        ghost var log1, files1 := log, store.files;
        st := RunRunSet(runsets[i], cli, installDir);
        SequenceStep(plans, i, outcome, log0, log1, log, files0, files1, store.files, st);
        if !st.Continue? {
          return;
        }
        CampaignWarningsSnoc(runsets, i);
        i := i + 1;
      }
      SequenceAll(plans, outcome, log0, log, files0, store.files);
      assert runsets[..i] == runsets;
    }
  }
}
