/** The result-file writer of run_all.py (`benchmark`): after a successful
    measurement the script's output is written to the run's result file, minus
    the script's closing "All benchmarks <desc> successfully" line. */
module ResultFile {
  import opened Outcomes
  import opened Text

  /** The line the measurement scripts print when they finish. */
  function Sentinel(desc: string): string {
    "All benchmarks " + desc + " successfully"
  }

  /** The lines that are written: those not containing `sentinel`. */
  function KeptLines(lines: seq<string>, sentinel: string): seq<string> {
    if lines == [] then []
    else (if Contains(lines[0], sentinel) then [] else [lines[0]]) + KeptLines(lines[1..], sentinel)
  }

  /** What one successful measurement writes to its result file. */
  function Written(stdout: string, desc: string): string {
    Concat(KeptLines(SplitLines(stdout), Sentinel(desc)))
  }

  /** The content of `resfile` right after it is opened: kept in mode 'a',
      truncated (or created) in mode 'w'. */
  function Opened(files: map<string, string>, resfile: string, append: bool): string {
    if append && resfile in files then files[resfile] else ""
  }

  /** The files after one measurement with outcome `res`. */
  function AfterMeasure(files: map<string, string>, res: ProcResult, desc: string,
                        resfile: string, append: bool): map<string, string>
  {
    if Succeeded(res) then files[resfile := Opened(files, resfile, append) + Written(res.stdout, desc)]
    else files
  }

  lemma {:induction false} KeptLinesSnoc(lines: seq<string>, line: string, sentinel: string)
    ensures KeptLines(lines + [line], sentinel)
         == KeptLines(lines, sentinel) + (if Contains(line, sentinel) then [] else [line])
    decreases |lines|
  {
    if lines == [] {
      assert [] + [line] == [line];
    } else {
      assert (lines + [line])[1..] == lines[1..] + [line];
      KeptLinesSnoc(lines[1..], line, sentinel);
    }
  }

  /** No written line contains the sentinel. */
  lemma {:induction false} KeptLinesFiltered(lines: seq<string>, sentinel: string)
    ensures forall l :: l in KeptLines(lines, sentinel) ==> !Contains(l, sentinel)
    decreases |lines|
  {
    if lines != [] {
      KeptLinesFiltered(lines[1..], sentinel);
    }
  }

  /** Every line without the sentinel is written. */
  lemma {:induction false} KeptLinesComplete(lines: seq<string>, sentinel: string)
    ensures forall l :: l in lines && !Contains(l, sentinel) ==> l in KeptLines(lines, sentinel)
    decreases |lines|
  {
    if lines != [] {
      KeptLinesComplete(lines[1..], sentinel);
      assert forall l :: l in lines ==> l == lines[0] || l in lines[1..];
    }
  }

  /** Output without a sentinel line is written unchanged. */
  lemma {:induction false} KeptLinesAll(lines: seq<string>, sentinel: string)
    requires forall l :: l in lines ==> !Contains(l, sentinel)
    ensures KeptLines(lines, sentinel) == lines
    decreases |lines|
  {
    if lines != [] {
      KeptLinesAll(lines[1..], sentinel);
    }
  }

  lemma WrittenUnfiltered(stdout: string, desc: string)
    requires forall l :: l in SplitLines(stdout) ==> !Contains(l, Sentinel(desc))
    ensures Written(stdout, desc) == stdout
  {
    KeptLinesAll(SplitLines(stdout), Sentinel(desc));
    SplitLinesJoin(stdout);
  }

  /** A line holding the sentinel anywhere, not only as the whole line, is
      dropped. */
  lemma SentinelLineDropped(pre: string, post: string, rest: string, desc: string)
    requires NoLineBreak(pre + Sentinel(desc) + post)
    ensures Written(pre + Sentinel(desc) + post + "\n" + rest, desc) == Written(rest, desc)
  {
    var line := pre + Sentinel(desc) + post;
    FirstLineEndsAtNewline(line, rest);
    assert SplitLines(pre + Sentinel(desc) + post + "\n" + rest) == [line + "\n"] + SplitLines(rest);
    ContainsItself(pre, Sentinel(desc), post);
    ContainsInLeft(line, "\n", Sentinel(desc));
    var lines := SplitLines(rest);
    assert ([line + "\n"] + lines)[0] == line + "\n" && ([line + "\n"] + lines)[1..] == lines;
    assert Contains(line + "\n", Sentinel(desc));
    assert KeptLines([line + "\n"] + lines, Sentinel(desc)) == [] + KeptLines(lines, Sentinel(desc));
    assert [] + KeptLines(lines, Sentinel(desc)) == KeptLines(lines, Sentinel(desc));
  }

  /** A line without the sentinel is written, line break included. */
  lemma PlainLineKept(x: string, rest: string, desc: string)
    requires NoLineBreak(x) && !Contains(x + "\n", Sentinel(desc))
    ensures Written(x + "\n" + rest, desc) == x + "\n" + Written(rest, desc)
  {
    FirstLineEndsAtNewline(x, rest);
    var lines := SplitLines(rest);
    assert ([x + "\n"] + lines)[0] == x + "\n" && ([x + "\n"] + lines)[1..] == lines;
  }

  /** Mode 'a' keeps what the file held; mode 'w' discards it. */
  lemma AfterMeasureContent(files: map<string, string>, res: ProcResult, desc: string,
                            resfile: string, append: bool)
    requires Succeeded(res)
    ensures var after := AfterMeasure(files, res, desc, resfile, append);
      resfile in after
      && (append && resfile in files ==> after[resfile] == files[resfile] + Written(res.stdout, desc))
      && (!append ==> after[resfile] == Written(res.stdout, desc))
      && forall f :: f in files && f != resfile ==> f in after && after[f] == files[f]
  {
  }

  /** A size measurement (mode 'w') followed by a speed measurement (mode 'a')
      leaves exactly both filtered outputs in the file, whatever it held. */
  lemma {:induction false} SizeThenSpeed(files: map<string, string>, size: ProcResult, sizeDesc: string,
                                         speed: ProcResult, speedDesc: string, resfile: string)
    requires Succeeded(size) && Succeeded(speed)
    ensures AfterMeasure(AfterMeasure(files, size, sizeDesc, resfile, false), speed, speedDesc, resfile, true)[resfile]
         == Written(size.stdout, sizeDesc) + Written(speed.stdout, speedDesc)
  {
    var mid := AfterMeasure(files, size, sizeDesc, resfile, false);
    AfterMeasureContent(files, size, sizeDesc, resfile, false);
    AfterMeasureContent(mid, speed, speedDesc, resfile, true);
  }

  /** One iteration of the writing loop: the content after line `i`. */
  lemma WrittenStep(start: string, lines: seq<string>, i: nat, sentinel: string)
    requires i < |lines|
    ensures start + Concat(KeptLines(lines[..i + 1], sentinel))
         == if Contains(lines[i], sentinel) then start + Concat(KeptLines(lines[..i], sentinel))
            else start + Concat(KeptLines(lines[..i], sentinel)) + lines[i]
  {
    var before := KeptLines(lines[..i], sentinel);
    KeptLinesSnoc(lines[..i], lines[i], sentinel);
    assert lines[..i + 1] == lines[..i] + [lines[i]];
    if Contains(lines[i], sentinel) {
      assert before + [] == before;
    } else {
      ConcatSnoc(before, lines[i]);
    }
  }

  /** The result files on disk. */
  class ResultStore {
    var files: map<string, string>

    constructor ()
      ensures files == map[]
    {
      files := map[];
    }

    /** run_all.py lines 1288-1294: open `resfile` in mode 'a' or 'w', then
        write the output line by line, skipping lines that hold the sentinel. */
    method Dump(stdout: string, desc: string, resfile: string, append: bool)
      modifies this
      ensures files == old(files)[resfile := Opened(old(files), resfile, append) + Written(stdout, desc)]
    {
      var start := Opened(files, resfile, append);
      files := files[resfile := start];
      var lines := SplitLines(stdout);
      var sentinel := Sentinel(desc);
      var i := 0;
      assert lines[..0] == [] && start + Concat([]) == start;
      while i < |lines|
        invariant 0 <= i <= |lines|
        invariant files == old(files)[resfile := start + Concat(KeptLines(lines[..i], sentinel))]
      {
        var line := lines[i];
        WrittenStep(start, lines, i, sentinel);
        if !Contains(line, sentinel) {
          WriteLine(resfile, line);
        }
        i := i + 1;
      }
      assert lines[..i] == lines;
    }

    /** `fileh.writelines(line)` on the open result file. */
    method WriteLine(resfile: string, line: string)
      requires resfile in files
      modifies this
      ensures files == old(files)[resfile := old(files)[resfile] + line]
    {
      files := files[resfile := files[resfile] + line];
    }

    /** `benchmark` (run_all.py lines 1265-1294) given the measurement's
        outcome, with the timeout handled as a failure: the file is written
        only after a zero exit status, and the caller learns whether it was. */
    method Benchmark(res: ProcResult, desc: string, resfile: string, append: bool)
      returns (succeeded: bool)
      modifies this
      ensures succeeded == Succeeded(res)
      ensures files == AfterMeasure(old(files), res, desc, resfile, append)
    {
      succeeded := true;
      match res {
        case Exited(code, _) =>
          if code != 0 {
            succeeded := false;
          }
        case TimedOut =>
          succeeded := false;
      }
      if succeeded {
        Dump(res.stdout, desc, resfile, append);
      }
    }

    /** `benchmark` as written: the timeout handler reads `res`, which the
        timed-out call never assigned, and raises. */
    method BenchmarkAsWritten(res: ProcResult, desc: string, resfile: string, append: bool)
      returns (outcome: Result<bool, Error>)
      modifies this
      ensures res.TimedOut? ==> outcome == Failure(UnboundLocalError("res")) && files == old(files)
      ensures res.Exited? ==> outcome == Success(Succeeded(res))
                              && files == AfterMeasure(old(files), res, desc, resfile, append)
    {
      if res.TimedOut? {
        return Failure(UnboundLocalError("res"));
      }
      var succeeded := res.code == 0;
      if succeeded {
        Dump(res.stdout, desc, resfile, append);
      }
      return Success(succeeded);
    }
  }
}
