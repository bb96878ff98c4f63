/** Link flags and libraries the driver derives from a merged run
    configuration for the two build phases (run_all.py, the top of the
    per-run loop in `main`). */
module Flags {
  import opened Outcomes
  import opened Text
  import opened Params

  const DefaultNoStartFiles := "-nostartfiles"
  const DefaultNoStdLib := "-nostdlib"
  const DefaultUserLibs := "-lm"
  /** The stub libraries every size build links instead of the real ones. */
  const SizeDummyLibs := "crt0 libc libgcc libm"

  /** The start-file flag of the size link: the run's `nostartfiles` if set. */
  function NoStartFiles(r: Config): (f: string)
    ensures "nostartfiles" in r ==> f == r["nostartfiles"]
    ensures "nostartfiles" !in r ==> f == DefaultNoStartFiles
  {
    if "nostartfiles" in r then r["nostartfiles"] else DefaultNoStartFiles
  }

  /** The standard-library flag of the size link: the run's `nostdlib` if set. */
  function NoStdLib(r: Config): (f: string)
    ensures "nostdlib" in r ==> f == r["nostdlib"]
    ensures "nostdlib" !in r ==> f == DefaultNoStdLib
  {
    if "nostdlib" in r then r["nostdlib"] else DefaultNoStdLib
  }

  /** `ldflags_size`: the run's `ldflags` followed by the two freestanding
      flags. `r['ldflags']` is indexed directly, so a run without `ldflags`
      raises `KeyError`. */
  function SizeLdflags(r: Config): (res: Result<string, Error>)
    ensures res.Failure? <==> "ldflags" !in r
    ensures res.Failure? ==> res.error == KeyError("ldflags")
  {
    if "ldflags" !in r then Failure(KeyError("ldflags"))
    else if r["ldflags"] != "" then Success(r["ldflags"] + " " + NoStartFiles(r) + " " + NoStdLib(r))
    else Success(NoStartFiles(r) + " " + NoStdLib(r))
  }

  /** The size link sees exactly the run's own link flags, then the start-file
      flag, then the standard-library flag; with or without run flags no empty
      argument is produced. */
  lemma SizeLdflagsTokens(r: Config)
    requires "ldflags" in r
    ensures SizeLdflags(r).Success?
    ensures Split(SizeLdflags(r).value) == Split(r["ldflags"]) + Split(NoStartFiles(r)) + Split(NoStdLib(r))
  {
    var ld, nsf, nsl := r["ldflags"], NoStartFiles(r), NoStdLib(r);
    SizeLdflagsShape(r);
    if ld != "" {
      ThreeWords(ld, nsf, nsl, SizeLdflags(r).value);
    } else {
      BlankJoin(nsf, nsl, SizeLdflags(r).value);
      assert Split(ld) == [];
    }
  }

  /** The size link flags with their blanks spelled out. */
  lemma SizeLdflagsShape(r: Config)
    requires "ldflags" in r
    ensures var tail := NoStartFiles(r) + [' '] + NoStdLib(r);
      SizeLdflags(r).value == if r["ldflags"] != "" then r["ldflags"] + [' '] + tail else tail
  {
    var ld, nsf, nsl := r["ldflags"], NoStartFiles(r), NoStdLib(r);
    if ld != "" {
      assert ld + " " + nsf + " " + nsl == ld + [' '] + (nsf + [' '] + nsl);
    } else {
      assert nsf + " " + nsl == nsf + [' '] + nsl;
    }
  }

  /** With neither flag overridden the size link adds `-nostartfiles` and
      `-nostdlib`, in that order, after the run's own flags. */
  lemma SizeLdflagsDefaults(r: Config)
    requires "ldflags" in r && "nostartfiles" !in r && "nostdlib" !in r
    ensures Split(SizeLdflags(r).value) == Split(r["ldflags"]) + ["-nostartfiles", "-nostdlib"]
  {
    SizeLdflagsTokens(r);
    DefaultFlagsAreWords();
  }

  lemma DefaultFlagsAreWords()
    ensures Split(DefaultNoStartFiles) == [DefaultNoStartFiles]
    ensures Split(DefaultNoStdLib) == [DefaultNoStdLib]
  {
    DefaultFlagsHaveNoSpace();
    SplitSingleWord(DefaultNoStartFiles);
    SplitSingleWord(DefaultNoStdLib);
  }

  lemma DefaultFlagsHaveNoSpace()
    ensures forall i :: 0 <= i < |DefaultNoStartFiles| ==> !IsSpace(DefaultNoStartFiles[i])
    ensures forall i :: 0 <= i < |DefaultNoStdLib| ==> !IsSpace(DefaultNoStdLib[i])
  {
  }

  /** `user_libs_speed`: the run's `user_libs`, or the maths library. */
  function SpeedUserLibs(r: Config): (libs: string)
    ensures "user_libs" in r ==> libs == r["user_libs"]
    ensures "user_libs" !in r ==> libs == DefaultUserLibs
  {
    if "user_libs" in r then r["user_libs"] else DefaultUserLibs
  }
}
