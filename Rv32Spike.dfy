/** The RV32 optimisation comparison (bm_rv32_spike.py): a run-set per
    compiler and optimisation level that builds the benchmarks for eight
    RISC-V ISA variants, measures code size, and measures speed on Spike. */
module Rv32Spike {
  import opened Outcomes
  import opened Text
  import opened Numerals
  import opened Params
  import opened BuildCommand
  import opened Driver
  import opened RunFacts
  import opened RunSpike

  /** `path`: each compiler's install directory. */
  const Toolchains: map<string, string> := map["gcc" := "/opt/riscv/bin", "clang" := "/opt/riscv-trial/bin"]

  /** `cc`: each compiler's driver. */
  const Compilers: map<string, string> := map["gcc" := "riscv64-unknown-elf-gcc", "clang" := "clang"]

  const SpikeCommand := "/opt/riscv/bin/spike"
  const SpikePk := "/opt/riscv/riscv32-unknown-elf/bin/pk"
  const SpikeIsa := "--isa=rv32im_zicsr_zicntr_zifencei" + "_zba_zbb_zbc_zbs_zce_zicond"

  /** The size benchmark: text, read-only data and data sizes, 30 s. */
  const SizeBenchmark := Descriptor(
    ["./benchmark_size.py", "--json-output", "--metric", "text", "rodata", "data"], Some(30), "sized")

  /** The speed benchmark: run on Spike through the Spike target module, 1800 s. */
  const SpeedBenchmark := Descriptor(
    ["./benchmark_speed.py", "--json-output", "--target-module=run_spike",
     "--spike-command=" + SpikeCommand, "--spike-pk=" + SpikePk, "--spike-args=" + SpikeIsa],
    Some(1800), "run")

  const CommonCflags := "-v -c -mabi=ilp32 -ffunction-sections"
  const CommonLdflags := "-march=rv32imc_zicsr -mabi=ilp32 -Wl,-gc-sections"

  /** The profile every run of the set shares. */
  function Common(compiler: string): Config
    requires compiler in Toolchains && compiler in Compilers
  {
    map["arch" := "riscv32", "chip" := "generic", "board" := "cycle",
        "path" := Toolchains[compiler], "cc" := Compilers[compiler],
        "cflags" := CommonCflags, "ldflags" := CommonLdflags]
  }

  /** One entry of the run list: the ISA part of the run's name, the
      `-march` value, and whether `-msave-restore` is added to both. */
  datatype Variant = Variant(tag: string, march: string, saveRestore: bool)

  /** The eight entries of the run list, in order. */
  const Variants: seq<Variant> := [
    Variant("rv32im", "rv32im_zicsr", false),
    Variant("rv32imc", "rv32imc_zicsr", false),
    Variant("rv32imc_zcb", "rv32imc_zicsr_zcb", false),
    Variant("rv32imbc_zcb", "rv32imc_zicsr_zcb_zba_zbb_zbc_zbs", false),
    Variant("rv32imbc_zcb_zicond", "rv32imc_zicsr_zcb_zba_zbb_zbc_zbs_zicond", false),
    Variant("rv32imbc_zcb_zicond", "rv32imc_zicsr_zcb_zba_zbb_zbc_zbs_zicond", true),
    Variant("rv32imbc_Zce_zicond", "rv32imc_zicsr_zce_zba_zbb_zbc_zbs_zicond", false),
    Variant("rv32imbc_Zce_zicond", "rv32imc_zicsr_zce_zba_zbb_zbc_zbs_zicond", true)]

  /** The run for one entry: `f"{cpre}<tag>{opt}"` and
      `f"-march=<march> {opt}"`, each followed by `-msave-restore` where the
      entry says so. */
  function RunOf(cpre: string, opt: string, v: Variant): Config {
    map["name" := cpre + v.tag + opt + (if v.saveRestore then "-msave-restore" else ""),
        "cflags" := "-march=" + v.march + " " + opt + (if v.saveRestore then " -msave-restore" else "")]
  }

  /** The run list of the run-set. */
  function Runs(cpre: string, opt: string): (runs: seq<Config>)
    ensures |runs| == |Variants|
    ensures forall i :: 0 <= i < |runs| ==> runs[i] == RunOf(cpre, opt, Variants[i])
  {
    seq(|Variants|, i requires 0 <= i < |Variants| => RunOf(cpre, opt, Variants[i]))
  }

  /** `rv32_opt_runset(compiler, opt)`: the two table lookups raise KeyError
      for a compiler other than gcc and clang. */
  function Rv32OptRunset(compiler: string, opt: string): (r: Result<RunSet, Error>)
    ensures r.Success? <==> compiler == "gcc" || compiler == "clang"
    ensures r.Failure? ==> r.error == KeyError(compiler)
  {
    if compiler !in Toolchains then Failure(KeyError(compiler))
    else if compiler !in Compilers then Failure(KeyError(compiler))
    else Success(RunSet("RV32IMC optimization comparison", Some(SizeBenchmark), Some(SpeedBenchmark),
                        Some(Common(compiler)), Runs(compiler + "-", opt)))
  }

  /** The three run-sets the script offers. */
  const GccOs := Rv32OptRunset("gcc", "-Os")
  const ClangOs := Rv32OptRunset("clang", "-Os")
  const ClangOz := Rv32OptRunset("clang", "-Oz")

  // ---------------------------------------------------------------------
  // Run names.

  /** The suffix an entry adds to the run's name. */
  function NameSuffix(v: Variant): string {
    if v.saveRestore then "-msave-restore" else ""
  }

  /** Two entries whose names have the same length differ at the tenth
      character of their tags. */
  lemma VariantsApart(i: nat, j: nat)
    requires i < |Variants| && j < |Variants| && i != j
    requires |Variants[i].tag| + |NameSuffix(Variants[i])| == |Variants[j].tag| + |NameSuffix(Variants[j])|
    ensures |Variants[i].tag| > 9 && |Variants[j].tag| > 9 && Variants[i].tag[9] != Variants[j].tag[9]
  {
  }

  /** Names of runs `i` and `j` of two run lists, with compiler prefixes of
      one length and options of one length, differ unless the lists and the
      runs coincide. */
  lemma NamesDiffer(c1: string, o1: string, i: nat, c2: string, o2: string, j: nat)
    requires i < |Variants| && j < |Variants| && |c1| == |c2| && |o1| == |o2|
    requires c1 != c2 || o1 != o2 || i != j
    ensures Runs(c1, o1)[i]["name"] != Runs(c2, o2)[j]["name"]
  {
    var v1, v2 := Variants[i], Variants[j];
    NameShape(c1, o1, i);
    NameShape(c2, o2, j);
    if c1 == c2 && o1 == o2 && |v1.tag| + |NameSuffix(v1)| == |v2.tag| + |NameSuffix(v2)| {
      VariantsApart(i, j);
    }
    PiecesDiffer(c1, v1.tag, o1, NameSuffix(v1), c2, v2.tag, o2, NameSuffix(v2));
  }

  /** A run's name is the compiler prefix, the entry's tag, the option and
      the entry's suffix. */
  lemma NameShape(c: string, o: string, i: nat)
    requires i < |Variants|
    ensures Runs(c, o)[i]["name"] == c + (Variants[i].tag + (o + NameSuffix(Variants[i])))
  {
  }

  /** Two four-piece strings differ when their first pieces differ at one
      length, when their lengths differ, when their second pieces differ at
      the tenth character, or when only their third pieces differ. */
  lemma PiecesDiffer(c1: string, t1: string, o1: string, s1: string,
                     c2: string, t2: string, o2: string, s2: string)
    requires |c1| == |c2| && |o1| == |o2|
    requires c1 != c2 || |t1| + |s1| != |t2| + |s2|
             || (|t1| > 9 && |t2| > 9 && t1[9] != t2[9])
             || (t1 == t2 && s1 == s2 && o1 != o2)
    ensures c1 + (t1 + (o1 + s1)) != c2 + (t2 + (o2 + s2))
  {
    var n1, n2 := c1 + (t1 + (o1 + s1)), c2 + (t2 + (o2 + s2));
    if c1 != c2 {
      assert n1[..|c1|] == c1 && n2[..|c2|] == c2;
    } else if |t1| + |s1| != |t2| + |s2| {
      assert |n1| != |n2|;
    } else if |t1| > 9 && |t2| > 9 && t1[9] != t2[9] {
      assert n1[|c1| + 9] == t1[9];
      assert n2[|c1| + 9] == t2[9];
    } else {
      var k := |c1| + |t1|;
      assert n1[k..k + |o1|] == o1;
      assert n2[k..k + |o1|] == o2;
    }
  }

  /** `rv32_opt_runset` gives eight runs, each named with the compiler's
      prefix, no two with the same name, whatever the option. */
  lemma RunNamesDistinct(compiler: string, opt: string)
    requires compiler == "gcc" || compiler == "clang"
    ensures var runs := Rv32OptRunset(compiler, opt).value.runs;
      |runs| == 8
      && (forall i :: 0 <= i < 8 ==> "name" in runs[i] && runs[i]["name"][..|compiler| + 1] == compiler + "-")
      && (forall i, j :: 0 <= i < j < 8 ==> runs[i]["name"] != runs[j]["name"])
  {
    var runs := Rv32OptRunset(compiler, opt).value.runs;
    forall i | 0 <= i < 8
      ensures "name" in runs[i] && runs[i]["name"][..|compiler| + 1] == compiler + "-"
    {
      var v := Variants[i];
      assert runs[i]["name"] == (compiler + "-") + (v.tag + opt + NameSuffix(v));
    }
    forall i, j | 0 <= i < j < 8
      ensures runs[i]["name"] != runs[j]["name"]
    {
      NamesDiffer(compiler + "-", opt, i, compiler + "-", opt, j);
    }
  }

  /** No two runs of the three offered run-sets share a name, so no run's
      result file is overwritten by another's. */
  lemma OfferedNamesDistinct(c1: string, o1: string, i: nat, c2: string, o2: string, j: nat)
    requires (c1, o1) in {("gcc", "-Os"), ("clang", "-Os"), ("clang", "-Oz")}
    requires (c2, o2) in {("gcc", "-Os"), ("clang", "-Os"), ("clang", "-Oz")}
    requires i < 8 && j < 8 && (c1 != c2 || o1 != o2 || i != j)
    ensures Rv32OptRunset(c1, o1).value.runs[i]["name"] != Rv32OptRunset(c2, o2).value.runs[j]["name"]
  {
    var n1 := Rv32OptRunset(c1, o1).value.runs[i]["name"];
    var n2 := Rv32OptRunset(c2, o2).value.runs[j]["name"];
    if c1 == c2 {
      NamesDiffer(c1 + "-", o1, i, c2 + "-", o2, j);
    } else {
      assert n1[0] == c1[0];
      assert n2[0] == c2[0];
    }
  }

  // ---------------------------------------------------------------------
  // The merged configuration of each run.

  /** Every key of the common profile and of every run is a known
      parameter, so neither the check nor the merges warn. */
  lemma {:induction false} NoWarnings(compiler: string, opt: string, n: nat)
    requires compiler == "gcc" || compiler == "clang"
    requires n <= 8
    ensures var rs := Rv32OptRunset(compiler, opt).value;
      RunSetWarnings(rs, rs.runs[..n]) == {}
  {
    var rs := Rv32OptRunset(compiler, opt).value;
    if n == 0 {
      assert UnknownKeys(rs.common.value) == {} by {
        assert rs.common.value.Keys == {"arch", "chip", "board", "path", "cc", "cflags", "ldflags"};
      }
    } else {
      NoWarnings(compiler, opt, n - 1);
      RunSetWarningsSnoc(rs, rs.runs, n - 1);
      assert rs.runs[n - 1].Keys == {"name", "cflags"};
      assert UnknownKeys(rs.runs[n - 1]) == {};
    }
  }

  /** The flag an entry adds to the compiler flags. */
  function FlagSuffix(v: Variant): string {
    if v.saveRestore then " -msave-restore" else ""
  }

  /** The compiler words of a run's own flags: its `-march`, the option's
      words, and `-msave-restore` where the entry says so. */
  lemma OwnCflagWords(march: string, opt: string, v: Variant)
    requires march != [] && NoSpace(march)
    ensures Split(march + " " + opt + FlagSuffix(v))
         == [march] + Split(opt) + (if v.saveRestore then ["-msave-restore"] else [])
  {
    SplitSingleWord(march);
    if v.saveRestore {
      SaveRestoreWords(march, opt);
    } else {
      assert march + " " + opt + FlagSuffix(v) == march + [' '] + opt;
      SplitAroundSpace(march, ' ', opt);
    }
  }

  lemma SaveRestoreWords(march: string, opt: string)
    requires Split(march) == [march]
    ensures Split(march + " " + opt + " -msave-restore") == [march] + Split(opt) + ["-msave-restore"]
  {
    var flag := "-msave-restore";
    assert march + " " + opt + " -msave-restore" == march + [' '] + (opt + [' '] + flag);
    SaveRestoreWord();
    TrailingWord(march, opt, flag);
  }

  /** A single word, a text and another single word joined by blanks. */
  lemma TrailingWord(first: string, mid: string, last: string)
    requires Split(first) == [first] && Split(last) == [last]
    ensures Split(first + [' '] + (mid + [' '] + last)) == [first] + Split(mid) + [last]
  {
    ThreeWords(first, mid, last, first + [' '] + (mid + [' '] + last));
  }

  predicate NoSpace(s: string) {
    forall i :: 0 <= i < |s| ==> !IsSpace(s[i])
  }

  lemma NoSpaceJoin(a: string, b: string)
    requires NoSpace(a) && NoSpace(b)
    ensures NoSpace(a + b)
  {
    assert forall i :: |a| <= i < |a| + |b| ==> (a + b)[i] == b[i - |a|];
  }

  lemma SaveRestoreWord()
    ensures Split("-msave-restore") == ["-msave-restore"]
  {
    assert NoSpace("-msave-restore");
    SplitSingleWord("-msave-restore");
  }

  /** The merge of the common profile with one entry's run. */
  lemma MergedEntry(compiler: string, cpre: string, opt: string, v: Variant)
    requires compiler in Toolchains && compiler in Compilers
    ensures Merged(Common(compiler), RunOf(cpre, opt, v))
         == map["arch" := "riscv32", "chip" := "generic", "board" := "cycle",
                "path" := Toolchains[compiler], "cc" := Compilers[compiler],
                "cflags" := CommonCflags + " " + ("-march=" + v.march + " " + opt + FlagSuffix(v)),
                "ldflags" := CommonLdflags, "name" := RunOf(cpre, opt, v)["name"]]
  {
    var add := RunOf(cpre, opt, v);
    assert add.Keys == {"name", "cflags"};
    MergeNameAndCflags(Common(compiler), add);
  }

  /** A run of a name and compiler flags merged into a profile without a
      name: the name is set and the flags are appended after a blank. */
  lemma MergeNameAndCflags(common: Config, add: Config)
    requires add.Keys == {"name", "cflags"} && "name" !in common && "cflags" in common
    ensures Merged(common, add) == common["name" := add["name"]]["cflags" := common["cflags"] + " " + add["cflags"]]
  {
    var r := Merged(common, add);
    var e := common["name" := add["name"]]["cflags" := common["cflags"] + " " + add["cflags"]];
    assert Kind("cflags") == List(" ") && Kind("name") == Scalar;
    assert KnownKeys(add) == {"name", "cflags"};
    assert r.Keys == e.Keys;
    SameMap(r, e);
  }

  /** After the merge each run has the common target, compiler, toolchain
      and link flags, and compiles with the common flags followed by its own;
      the compiler sees the common words, the `-march` word, the option's
      words and `-msave-restore` where the entry says so. */
  lemma MergedRun(compiler: string, opt: string, i: nat)
    requires compiler == "gcc" || compiler == "clang"
    requires i < 8
    ensures var rs := Rv32OptRunset(compiler, opt).value;
      var v := Variants[i];
      var cflags := CommonCflags + " " + ("-march=" + v.march + " " + opt + FlagSuffix(v));
      && Resolved(rs, rs.runs[i])
         == map["arch" := "riscv32", "chip" := "generic", "board" := "cycle",
                "path" := Toolchains[compiler], "cc" := Compilers[compiler],
                "cflags" := cflags, "ldflags" := CommonLdflags, "name" := rs.runs[i]["name"]]
      && Split(cflags) == Split(CommonCflags) + (["-march=" + v.march] + Split(opt)
                          + (if v.saveRestore then ["-msave-restore"] else []))
  {
    var rs := Rv32OptRunset(compiler, opt).value;
    var v := Variants[i];
    assert rs.runs[i] == RunOf(compiler + "-", opt, v);
    MergedEntry(compiler, compiler + "-", opt, v);
    RunCflagWords(opt, i);
  }

  /** The words of the merged compiler flags of the `i`th entry. */
  lemma RunCflagWords(opt: string, i: nat)
    requires i < |Variants|
    ensures var v := Variants[i];
      Split(CommonCflags + " " + ("-march=" + v.march + " " + opt + FlagSuffix(v)))
      == Split(CommonCflags) + (["-march=" + v.march] + Split(opt)
         + (if v.saveRestore then ["-msave-restore"] else []))
  {
    var v := Variants[i];
    var march := "-march=" + v.march;
    assert NoSpace(march) by {
      assert NoSpace("-march=");
      MarchesHaveNoSpace(i);
      NoSpaceJoin("-march=", v.march);
    }
    CflagWords(march, opt, v);
  }

  /** The words of the merged compiler flags. */
  lemma CflagWords(march: string, opt: string, v: Variant)
    requires march != [] && NoSpace(march)
    ensures Split(CommonCflags + " " + (march + " " + opt + FlagSuffix(v)))
         == Split(CommonCflags) + ([march] + Split(opt) + (if v.saveRestore then ["-msave-restore"] else []))
  {
    var own := march + " " + opt + FlagSuffix(v);
    OwnCflagWords(march, opt, v);
    assert CommonCflags + " " + own == CommonCflags + [' '] + own;
    SplitAroundSpace(CommonCflags, ' ', own);
  }

  /** The `-march` values are single words. */
  lemma MarchesHaveNoSpace(i: nat)
    requires i < |Variants|
    ensures NoSpace(Variants[i].march)
  {
    if i == 0 { SingleWord0(); }
    else if i == 1 { SingleWord1(); }
    else if i == 2 { SingleWord2(); }
    else if i == 3 { SingleWord3(); }
    else if i == 4 { SingleWord4(); }
    else if i == 5 { SingleWord4(); }
    else if i == 6 { SingleWord6(); }
    else { SingleWord6(); }
  }

  lemma SingleWord0() ensures NoSpace("rv32im_zicsr") {}
  lemma SingleWord1() ensures NoSpace("rv32imc_zicsr") {}
  lemma SingleWord2() ensures NoSpace("rv32imc_zicsr_zcb") {}
  lemma SingleWord3() ensures NoSpace("rv32imc_zicsr_zcb_zba_zbb_zbc_zbs") {}
  lemma SingleWord4() ensures NoSpace("rv32imc_zicsr_zcb_zba_zbb_zbc_zbs_zicond") {}
  lemma SingleWord6() ensures NoSpace("rv32imc_zicsr_zce_zba_zbb_zbc_zbs_zicond") {}

  /** The token that hands the speed script its timeout. */
  lemma SpeedTimeoutToken()
    ensures "--timeout=" + Decimal(SpeedBenchmark.timeout.value) == "--timeout=1800"
  {
    assert Decimal(1800) == "1800" by {
      assert Decimal(1) == "1";
      assert Decimal(18) == "18";
      assert Decimal(180) == "180";
    }
  }

  /** The plan of one entry's run in a run-set with this script's two
      descriptors and common profile. */
  lemma PlannedEntry(rs: RunSet, compiler: string, cpre: string, opt: string, v: Variant, cli: Cli)
    requires compiler in Toolchains && compiler in Compilers
    requires rs.size == Some(SizeBenchmark) && rs.speed == Some(SpeedBenchmark)
    requires rs.common == Some(Common(compiler))
    ensures var run := RunOf(cpre, opt, v);
      var p := RunPlan(rs, run, cli);
      var resfile := ResultPath(cli.resdir, run["name"]);
      Complete(Resolved(rs, run)) && BothPhases(rs)
      && p.error == None && |p.calls| == 4
      && p.calls[1] == MeasureCall(SizeBenchmark.arglist + SharedArgs(cli) + ["--json-comma"], 30, "sized", resfile, false)
      && p.calls[3] == MeasureCall(SpeedBenchmark.arglist + SharedArgs(cli) + ["--no-json-head", "--timeout=1800"],
                                   1800, "run", resfile, true)
  {
    var run := RunOf(cpre, opt, v);
    var r := Resolved(rs, run);
    MergedEntry(compiler, cpre, opt, v);
    assert Complete(r);
    RunPlanShape(rs, run, cli);
    SpeedTimeoutToken();
    assert rs.speed.value.timeout.value == 1800;
    var resfile := ResultPath(cli.resdir, r["name"]);
    assert r["name"] == run["name"];
    var p := RunPlan(rs, run, cli);
    assert p.calls[1] == MeasureCall(SizeBenchmark.arglist + SharedArgs(cli) + ["--json-comma"], 30, "sized", resfile, false);
    assert p.calls[3] == MeasureCall(SpeedBenchmark.arglist + SharedArgs(cli) + ["--no-json-head", "--timeout=1800"],
                                     1800, "run", resfile, true);
  }

  /** Every run is complete for both phases: each builds for size and then
      for speed, the size measurement is told a speed record follows, and the
      speed measurement is told a size record came first and gets the
      1800-second timeout; both write the run's result file. */
  lemma PlannedRun(compiler: string, opt: string, i: nat, cli: Cli)
    requires compiler == "gcc" || compiler == "clang"
    requires i < 8
    ensures var rs := Rv32OptRunset(compiler, opt).value;
      var p := RunPlan(rs, rs.runs[i], cli);
      var resfile := ResultPath(cli.resdir, rs.runs[i]["name"]);
      Complete(Resolved(rs, rs.runs[i])) && BothPhases(rs)
      && p.error == None && |p.calls| == 4
      && p.calls[1] == MeasureCall(SizeBenchmark.arglist + SharedArgs(cli) + ["--json-comma"], 30, "sized", resfile, false)
      && p.calls[3] == MeasureCall(SpeedBenchmark.arglist + SharedArgs(cli) + ["--no-json-head", "--timeout=1800"],
                                   1800, "run", resfile, true)
  {
    var rs := Rv32OptRunset(compiler, opt).value;
    assert rs.runs[i] == RunOf(compiler + "-", opt, Variants[i]);
    PlannedEntry(rs, compiler, compiler + "-", opt, Variants[i], cli);
  }

  /** The speed script's target options make Spike run each benchmark as
      `spike --isa=... pk <benchmark>`, with the ISA string as one word. */
  lemma SpikeCommandLine(bench: string)
    ensures BuildBenchmarkCmd(bench, SpikeOptions(SpikeCommand, SpikePk, SpikeIsa))
         == [SpikeCommand, SpikeIsa, SpikePk, bench]
  {
    assert NoSpace("--isa=rv32im_zicsr_zicntr_zifencei");
    assert NoSpace("_zba_zbb_zbc_zbs_zce_zicond");
    NoSpaceJoin("--isa=rv32im_zicsr_zicntr_zifencei", "_zba_zbb_zbc_zbs_zce_zicond");
    SingleSpikeArg(bench, SpikeOptions(SpikeCommand, SpikePk, SpikeIsa));
  }
}
