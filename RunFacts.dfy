/** What the per-run pipeline of run_all.py guarantees, stated over the plan
    of a run: which file it writes, which errors stop it and in which order,
    what the build and measurement scripts are told, and what ends up in the
    result file. */
module RunFacts {
  import opened Outcomes
  import opened Text
  import opened Numerals
  import opened Params
  import opened Flags
  import opened BuildCommand
  import opened ResultFile
  import opened PathScope
  import opened Driver

  /** A run name `os.path.join` keeps under the result directory. */
  predicate RelativeName(name: string) {
    name == [] || name[0] != '/'
  }

  /** The directory part `os.path.join` puts in front of a relative name. */
  function ResultDir(resdir: string): string {
    if resdir == [] || resdir[|resdir| - 1] == '/' then resdir else resdir + "/"
  }

  /** The result file of a run is `<name>.json` in the result directory. */
  lemma ResultPathSplit(resdir: string, name: string)
    requires RelativeName(name)
    ensures ResultPath(resdir, name) == ResultDir(resdir) + name + ".json"
  {
    assert (name + ".json")[0] == if name == [] then '.' else name[0];
  }

  /** Runs with different names write different result files. */
  lemma ResultPathInjective(resdir: string, a: string, b: string)
    requires RelativeName(a) && RelativeName(b)
    requires ResultPath(resdir, a) == ResultPath(resdir, b)
    ensures a == b
  {
    ResultPathSplit(resdir, a);
    ResultPathSplit(resdir, b);
    var d := ResultDir(resdir);
    var pa, pb := d + a + ".json", d + b + ".json";
    assert |a| == |b|;
    assert a == pa[|d|..|d| + |a|];
    assert b == pb[|d|..|d| + |b|];
  }

  /** The checks made before any subprocess, in the order the loop makes
      them: the run's name, then its `ldflags`, then (when a phase builds) its
      target. Each one stops the run with nothing built. */
  lemma {:induction false} RunPlanErrors(rs: RunSet, run: Config, cli: Cli)
    ensures var r := Resolved(rs, run);
      var plan := RunPlan(rs, run, cli);
      ("name" !in r ==> plan == Plan([], Some(KeyError("name"))))
      && ("name" in r && "ldflags" !in r ==> plan == Plan([], Some(KeyError("ldflags"))))
      && ("name" in r && "ldflags" in r && MissingTarget(r).Some? && (rs.size.Some? || rs.speed.Some?)
          ==> plan == Plan([], MissingTarget(r)))
  {
    var r := Resolved(rs, run);
    if "name" in r && "ldflags" in r && MissingTarget(r).Some? && (rs.size.Some? || rs.speed.Some?) {
      var ldflags := SizeLdflags(r).value;
      var resfile := ResultPath(cli.resdir, r["name"]);
      var size := SizePart(rs, r, cli, ldflags, resfile);
      if rs.size.Some? {
        assert size == Plan([], MissingTarget(r));
      } else {
        assert size == Plan([], None);
        assert Then(size, SpeedPlan(rs.speed.value, false, r, cli, resfile)).calls == [] + [];
      }
    }
  }

  /** A run with everything the loop reads. */
  predicate Complete(r: Config) {
    "name" in r && "ldflags" in r && MissingTarget(r).None?
  }

  /** A run-set with both phases and both timeouts. */
  predicate BothPhases(rs: RunSet) {
    rs.size.Some? && rs.speed.Some? && rs.size.value.timeout.Some? && rs.speed.value.timeout.Some?
  }

  /** A complete run of a run-set with both phases makes four calls: the size
      build, the size measurement (told a speed record follows), the speed
      build, and the speed measurement (told a size record came first, and
      its timeout), both measurements writing to the run's result file. */
  lemma RunPlanShape(rs: RunSet, run: Config, cli: Cli)
    requires Complete(Resolved(rs, run)) && BothPhases(rs)
    ensures var r := Resolved(rs, run);
      var resfile := ResultPath(cli.resdir, r["name"]);
      var ds, dp := rs.size.value, rs.speed.value;
      RunPlan(rs, run, cli) == Plan([
        BuildCall(SizeRequest(r, cli, SizeLdflags(r).value)),
        MeasureCall(ds.arglist + SharedArgs(cli) + ["--json-comma"], ds.timeout.value, ds.desc, resfile, false),
        BuildCall(SpeedRequest(r, cli)),
        MeasureCall(dp.arglist + SharedArgs(cli) + ["--no-json-head", "--timeout=" + Decimal(dp.timeout.value)],
                    dp.timeout.value, dp.desc, resfile, true)], None)
  {
    var r := Resolved(rs, run);
    var dp := rs.speed.value;
    var t := ["--timeout=" + Decimal(dp.timeout.value)];
    assert ["--no-json-head"] + t == ["--no-json-head", "--timeout=" + Decimal(dp.timeout.value)];
  }

  /** The size build links against the stub libraries with the size link
      flags and never with the run's own libraries; it is built for the
      run's target. */
  lemma SizeBuildFlags(r: Config, cli: Cli, ldflags: string)
    requires MissingTarget(r).None?
    requires forall b :: b in cli.benchmark ==> PlainName(b)
    requires forall b :: b in cli.exclude ==> PlainName(b)
    ensures var args := BuildArgs(SizeRequest(r, cli, ldflags));
      Lookup(args, "dummy-libs") == Some(SizeDummyLibs)
      && Lookup(args, "user-libs") == None
      && Lookup(args, "ldflags") == (if ldflags != "" then Some(ldflags) else None)
      && Lookup(args, "arch") == Some(r["arch"])
      && Lookup(args, "chip") == Some(r["chip"])
      && Lookup(args, "board") == Some(r["board"])
  {
    var req := SizeRequest(r, cli, ldflags);
    BuildArgsReadBack(req, 3);
    BuildArgsReadBack(req, 4);
    BuildArgsReadBack(req, 5);
    BuildArgsTarget(req);
  }

  /** The speed build links with the run's own flags and libraries (the maths
      library by default) and no stub libraries. */
  lemma SpeedBuildFlags(r: Config, cli: Cli)
    requires MissingTarget(r).None?
    requires forall b :: b in cli.benchmark ==> PlainName(b)
    requires forall b :: b in cli.exclude ==> PlainName(b)
    ensures var args := BuildArgs(SpeedRequest(r, cli));
      Lookup(args, "dummy-libs") == None
      && Lookup(args, "user-libs") == (if SpeedUserLibs(r) != "" then Some(SpeedUserLibs(r)) else None)
      && Lookup(args, "ldflags") == (if "ldflags" in r && r["ldflags"] != "" then Some(r["ldflags"]) else None)
  {
    var req := SpeedRequest(r, cli);
    BuildArgsReadBack(req, 3);
    BuildArgsReadBack(req, 4);
    BuildArgsReadBack(req, 5);
  }

  /** Without overrides the size link is the run's flags then `-nostartfiles
      -nostdlib`, and the speed link adds `-lm`. */
  lemma DefaultLinkFlags(r: Config, cli: Cli)
    requires MissingTarget(r).None? && "ldflags" in r
    requires "nostartfiles" !in r && "nostdlib" !in r && "user_libs" !in r
    requires forall b :: b in cli.benchmark ==> PlainName(b)
    requires forall b :: b in cli.exclude ==> PlainName(b)
    ensures Split(SizeLdflags(r).value) == Split(r["ldflags"]) + ["-nostartfiles", "-nostdlib"]
    ensures Lookup(BuildArgs(SpeedRequest(r, cli)), "user-libs") == Some("-lm")
  {
    SizeLdflagsDefaults(r);
    SpeedBuildFlags(r, cli);
  }

  /** The speed measurement's last argument carries its timeout, in decimal,
      and reads back as that number. */
  lemma SpeedTimeoutArg(d: Descriptor, shared: seq<string>, withSize: bool)
    requires d.timeout.Some?
    ensures var args := SpeedMeasureArgs(d, shared, withSize);
      args[|args| - 1] == "--timeout=" + Decimal(d.timeout.value)
      && Lookup(args, "timeout") == Some(Decimal(d.timeout.value))
      && ParseDigits(Lookup(args, "timeout").value, 10) == d.timeout.value
  {
    var args := SpeedMeasureArgs(d, shared, withSize);
    var tok := "--timeout=" + Decimal(d.timeout.value);
    assert args[|args| - 1] == tok;
    assert tok == FlagToken("timeout", Decimal(d.timeout.value));
    FlagTokenMatches("timeout", "timeout", Decimal(d.timeout.value));
    DecimalRoundTrip(d.timeout.value);
  }

  /** The size measurement is told to end its record with a comma exactly
      when a speed record follows. */
  lemma SizeCommaArg(d: Descriptor, shared: seq<string>, withSpeed: bool)
    ensures var args := SizeMeasureArgs(d, shared, withSpeed);
      (withSpeed <==> |args| > |d.arglist + shared| && args[|args| - 1] == "--json-comma")
      && args[..|d.arglist + shared|] == d.arglist + shared
  {
  }

  /** Two builds each followed by a measurement into the same file, the
      first truncating it and the second appending, all succeeding. */
  lemma {:induction false} TwoMeasurements(calls: seq<Call>, outcome: nat -> ProcResult, base: nat,
                                           files: map<string, string>)
    requires |calls| == 4 && calls[0].BuildCall? && calls[2].BuildCall?
    requires calls[1].MeasureCall? && calls[3].MeasureCall?
    requires calls[1].resfile == calls[3].resfile && !calls[1].append && calls[3].append
    requires Succeeded(outcome(base)) && Succeeded(outcome(base + 1))
    requires Succeeded(outcome(base + 2)) && Succeeded(outcome(base + 3))
    ensures !Halted(calls, outcome, base) && Executed(calls, outcome, base) == 4
    ensures var after := FilesAfter(calls, files, outcome, base);
      calls[1].resfile in after
      && after[calls[1].resfile] == Written(outcome(base + 1).stdout, calls[1].desc)
                                    + Written(outcome(base + 3).stdout, calls[3].desc)
  {
    var size, speed := calls[..2], calls[2..];
    assert calls == size + speed;
    assert size == [calls[0], calls[1]] && speed == [calls[2], calls[3]];
    BuildThenMeasure(calls[0], calls[1], outcome, base, files);
    var mid := Apply(calls[1], files, outcome(base + 1));
    BuildThenMeasure(calls[2], calls[3], outcome, base + 2, mid);
    HaltedAppend(size, speed, outcome, base);
    ExecutedAppend(size, speed, outcome, base);
    FilesAfterAppend(size, speed, files, outcome, base);
    SizeThenSpeed(files, outcome(base + 1), calls[1].desc, outcome(base + 3), calls[3].desc, calls[1].resfile);
  }

  /** A complete run whose four calls all succeed writes, to its result file,
      the size output followed by the speed output, each without its closing
      line, whatever the file held before; and the loop goes on. */
  lemma BothPhasesResult(rs: RunSet, run: Config, cli: Cli, outcome: nat -> ProcResult, base: nat,
                         files: map<string, string>)
    requires Complete(Resolved(rs, run)) && BothPhases(rs)
    requires Succeeded(outcome(base)) && Succeeded(outcome(base + 1))
    requires Succeeded(outcome(base + 2)) && Succeeded(outcome(base + 3))
    ensures var plan := RunPlan(rs, run, cli);
      var after := FilesAfter(plan.calls, files, outcome, base);
      var resfile := ResultPath(cli.resdir, Resolved(rs, run)["name"]);
      RunStatus(plan, outcome, base) == Continue
      && Executed(plan.calls, outcome, base) == 4
      && resfile in after
      && after[resfile] == Written(outcome(base + 1).stdout, rs.size.value.desc)
                           + Written(outcome(base + 3).stdout, rs.speed.value.desc)
  {
    RunPlanShape(rs, run, cli);
    TwoMeasurements(RunPlan(rs, run, cli).calls, outcome, base, files);
  }

  /** While a run with a `path` executes, the toolchain's directory is
      searched first, followed by the old search path unchanged. */
  lemma ScopedPathEntries(r: Config, installDir: string -> string, path: string)
    requires Truthy(Get(r, "path")) && PathSep !in installDir(r["path"])
    ensures Entries(ScopedPath(r, installDir, path)) == [installDir(r["path"])] + Entries(path)
  {
    PrependedEntries(installDir(r["path"]), path);
  }
}
