/** The command line run_all.py hands to the external build driver
    (`build_benchmarks`, the argument-list part). */
module BuildCommand {
  import opened Outcomes

  /** The arguments of one `build_benchmarks` call. An optional argument is
      `None` when the caller passes `None` (a key missing from the run). */
  datatype BuildRequest = BuildRequest(
    benchmark: seq<string>, exclude: seq<string>,
    builddir: string, logdir: string,
    arch: string, chip: string, board: string,
    cc: Option<string>, ld: Option<string>,
    cflags: Option<string>, ldflags: Option<string>,
    dummyLibs: Option<string>, userLibs: Option<string>,
    env: Option<string>, cpuMhz: Option<string>, warmupHeat: Option<string>)

  /** Python truthiness of an optional string: neither `None` nor empty. */
  predicate Truthy(v: Option<string>) {
    v.Some? && v.value != ""
  }

  /** The eight tokens every build command starts with. */
  function FixedPrefix(req: BuildRequest): seq<string> {
    ["./build_all.py", "--clean", "--verbose",
     "--builddir=" + req.builddir, "--logdir=" + req.logdir,
     "--arch=" + req.arch, "--chip=" + req.chip, "--board=" + req.board]
  }

  function FlagToken(name: string, value: string): string {
    "--" + name + "=" + value
  }

  /** The token one optional value contributes: none unless it is truthy. */
  function Token(name: string, value: Option<string>): seq<string> {
    if Truthy(value) then [FlagToken(name, value.value)] else []
  }

  /** `[flag] + names` when `names` is non-empty, else nothing. */
  function NameList(flag: string, names: seq<string>): seq<string> {
    if names == [] then [] else [flag] + names
  }

  /** The complete build command line, in the order `build_benchmarks`
      assembles it. */
  function BuildArgs(req: BuildRequest): seq<string> {
    FixedPrefix(req)
      + Token("cc", req.cc)
      + Token("ld", req.ld)
      + Token("cflags", req.cflags)
      + Token("ldflags", req.ldflags)
      + Token("dummy-libs", req.dummyLibs)
      + Token("user-libs", req.userLibs)
      + Token("env", req.env)
      + Token("cpu-mhz", req.cpuMhz)
      + Token("warmup-heat", req.warmupHeat)
      + NameList("--benchmark", req.benchmark) + NameList("--exclude", req.exclude)
  }

  /** One `if value: arglist.append(f'--name={value}')` step of
      `build_benchmarks`. */
  method AppendOption(arglist: seq<string>, name: string, value: Option<string>) returns (r: seq<string>)
    ensures r == arglist + Token(name, value)
  {
    r := arglist;
    if Truthy(value) {
      r := r + [FlagToken(name, value.value)];
    }
  }

  /** `build_benchmarks` lines 1211-1242: the list literal, then one append per
      truthy optional value, then the benchmark and exclude lists. */
  method BuildArglist(req: BuildRequest) returns (arglist: seq<string>)
    ensures arglist == BuildArgs(req)
  {
    arglist := FixedPrefix(req);
    arglist := AppendOption(arglist, "cc", req.cc);
    arglist := AppendOption(arglist, "ld", req.ld);
    arglist := AppendOption(arglist, "cflags", req.cflags);
    arglist := AppendOption(arglist, "ldflags", req.ldflags);
    arglist := AppendOption(arglist, "dummy-libs", req.dummyLibs);
    arglist := AppendOption(arglist, "user-libs", req.userLibs);
    arglist := AppendOption(arglist, "env", req.env);
    arglist := AppendOption(arglist, "cpu-mhz", req.cpuMhz);
    arglist := AppendOption(arglist, "warmup-heat", req.warmupHeat);
    if req.benchmark != [] {
      arglist := arglist + (["--benchmark"] + req.benchmark);
    }
    assert arglist == FixedPrefix(req)
      + Token("cc", req.cc)
      + Token("ld", req.ld)
      + Token("cflags", req.cflags)
      + Token("ldflags", req.ldflags)
      + Token("dummy-libs", req.dummyLibs)
      + Token("user-libs", req.userLibs)
      + Token("env", req.env)
      + Token("cpu-mhz", req.cpuMhz)
      + Token("warmup-heat", req.warmupHeat)
      + NameList("--benchmark", req.benchmark);
    if req.exclude != [] {
      arglist := arglist + (["--exclude"] + req.exclude);
    }
  }

  /* ---- The optional arguments as a table ---- */

  /** The nine optional `--name=value` arguments, in the order they are tested. */
  const OptionalNames: seq<string> :=
    ["cc", "ld", "cflags", "ldflags", "dummy-libs", "user-libs", "env", "cpu-mhz", "warmup-heat"]

  function OptionalValues(req: BuildRequest): (vs: seq<Option<string>>)
    ensures |vs| == |OptionalNames|
  {
    [req.cc, req.ld, req.cflags, req.ldflags, req.dummyLibs, req.userLibs, req.env, req.cpuMhz, req.warmupHeat]
  }

  /** One `--name=value` token for each truthy value, in table order. */
  function OptionTokens(names: seq<string>, values: seq<Option<string>>): seq<string>
    requires |names| == |values|
  {
    if names == [] then []
    else
      OptionTokens(names[..|names| - 1], values[..|values| - 1])
      + Token(names[|names| - 1], values[|values| - 1])
  }

  /** The optional tokens, spelled out entry by entry. */
  lemma {:induction false} OptionTokensUnrolled(req: BuildRequest)
    ensures OptionTokens(OptionalNames, OptionalValues(req))
         == Token("cc", req.cc) + Token("ld", req.ld) + Token("cflags", req.cflags) + Token("ldflags", req.ldflags) + Token("dummy-libs", req.dummyLibs) + Token("user-libs", req.userLibs) + Token("env", req.env) + Token("cpu-mhz", req.cpuMhz) + Token("warmup-heat", req.warmupHeat)
  {
    var names, values := OptionalNames, OptionalValues(req);
    assert OptionTokens(names[..0], values[..0]) == [];
    assert OptionTokens(names[..1], values[..1]) == Token("cc", req.cc) by {
      assert names[..1][..0] == names[..0] && values[..1][..0] == values[..0];
      assert names[0] == "cc" && values[0] == req.cc;
    }
    assert OptionTokens(names[..2], values[..2]) == Token("cc", req.cc) + Token("ld", req.ld) by {
      assert names[..2][..1] == names[..1] && values[..2][..1] == values[..1];
      assert names[1] == "ld" && values[1] == req.ld;
    }
    assert OptionTokens(names[..3], values[..3]) == Token("cc", req.cc) + Token("ld", req.ld) + Token("cflags", req.cflags) by {
      assert names[..3][..2] == names[..2] && values[..3][..2] == values[..2];
      assert names[2] == "cflags" && values[2] == req.cflags;
    }
    assert OptionTokens(names[..4], values[..4]) == Token("cc", req.cc) + Token("ld", req.ld) + Token("cflags", req.cflags) + Token("ldflags", req.ldflags) by {
      assert names[..4][..3] == names[..3] && values[..4][..3] == values[..3];
      assert names[3] == "ldflags" && values[3] == req.ldflags;
    }
    assert OptionTokens(names[..5], values[..5]) == Token("cc", req.cc) + Token("ld", req.ld) + Token("cflags", req.cflags) + Token("ldflags", req.ldflags) + Token("dummy-libs", req.dummyLibs) by {
      assert names[..5][..4] == names[..4] && values[..5][..4] == values[..4];
      assert names[4] == "dummy-libs" && values[4] == req.dummyLibs;
    }
    assert OptionTokens(names[..6], values[..6]) == Token("cc", req.cc) + Token("ld", req.ld) + Token("cflags", req.cflags) + Token("ldflags", req.ldflags) + Token("dummy-libs", req.dummyLibs) + Token("user-libs", req.userLibs) by {
      assert names[..6][..5] == names[..5] && values[..6][..5] == values[..5];
      assert names[5] == "user-libs" && values[5] == req.userLibs;
    }
    assert OptionTokens(names[..7], values[..7]) == Token("cc", req.cc) + Token("ld", req.ld) + Token("cflags", req.cflags) + Token("ldflags", req.ldflags) + Token("dummy-libs", req.dummyLibs) + Token("user-libs", req.userLibs) + Token("env", req.env) by {
      assert names[..7][..6] == names[..6] && values[..7][..6] == values[..6];
      assert names[6] == "env" && values[6] == req.env;
    }
    assert OptionTokens(names[..8], values[..8]) == Token("cc", req.cc) + Token("ld", req.ld) + Token("cflags", req.cflags) + Token("ldflags", req.ldflags) + Token("dummy-libs", req.dummyLibs) + Token("user-libs", req.userLibs) + Token("env", req.env) + Token("cpu-mhz", req.cpuMhz) by {
      assert names[..8][..7] == names[..7] && values[..8][..7] == values[..7];
      assert names[7] == "cpu-mhz" && values[7] == req.cpuMhz;
    }
    assert OptionTokens(names[..9], values[..9]) == Token("cc", req.cc) + Token("ld", req.ld) + Token("cflags", req.cflags) + Token("ldflags", req.ldflags) + Token("dummy-libs", req.dummyLibs) + Token("user-libs", req.userLibs) + Token("env", req.env) + Token("cpu-mhz", req.cpuMhz) + Token("warmup-heat", req.warmupHeat) by {
      assert names[..9][..8] == names[..8] && values[..9][..8] == values[..8];
      assert names[8] == "warmup-heat" && values[8] == req.warmupHeat;
    }
    assert names[..9] == names && values[..9] == values;
  }

  lemma Reassociate(a: seq<string>, b: seq<string>, c: seq<string>)
    ensures (a + b) + c == a + (b + c)
  {
  }

  /** `BuildArgs` is the fixed prefix, the table's tokens and the name lists. */
  lemma {:induction false} BuildArgsFromTable(req: BuildRequest)
    ensures BuildArgs(req)
         == FixedPrefix(req) + OptionTokens(OptionalNames, OptionalValues(req))
            + NameList("--benchmark", req.benchmark) + NameList("--exclude", req.exclude)
  {
    var p := FixedPrefix(req);
    OptionTokensUnrolled(req);
    Reassociate(p, Token("cc", req.cc), Token("ld", req.ld));
    Reassociate(p, Token("cc", req.cc) + Token("ld", req.ld), Token("cflags", req.cflags));
    Reassociate(p, Token("cc", req.cc) + Token("ld", req.ld) + Token("cflags", req.cflags), Token("ldflags", req.ldflags));
    Reassociate(p, Token("cc", req.cc) + Token("ld", req.ld) + Token("cflags", req.cflags) + Token("ldflags", req.ldflags), Token("dummy-libs", req.dummyLibs));
    Reassociate(p, Token("cc", req.cc) + Token("ld", req.ld) + Token("cflags", req.cflags) + Token("ldflags", req.ldflags) + Token("dummy-libs", req.dummyLibs), Token("user-libs", req.userLibs));
    Reassociate(p, Token("cc", req.cc) + Token("ld", req.ld) + Token("cflags", req.cflags) + Token("ldflags", req.ldflags) + Token("dummy-libs", req.dummyLibs) + Token("user-libs", req.userLibs), Token("env", req.env));
    Reassociate(p, Token("cc", req.cc) + Token("ld", req.ld) + Token("cflags", req.cflags) + Token("ldflags", req.ldflags) + Token("dummy-libs", req.dummyLibs) + Token("user-libs", req.userLibs) + Token("env", req.env), Token("cpu-mhz", req.cpuMhz));
    Reassociate(p, Token("cc", req.cc) + Token("ld", req.ld) + Token("cflags", req.cflags) + Token("ldflags", req.ldflags) + Token("dummy-libs", req.dummyLibs) + Token("user-libs", req.userLibs) + Token("env", req.env) + Token("cpu-mhz", req.cpuMhz), Token("warmup-heat", req.warmupHeat));
  }

  /* ---- Reading the command line back ---- */

  /** `t` is a `--name=...` token. */
  predicate HasFlag(t: string, name: string) {
    |t| >= |name| + 3 && t[..|name| + 3] == "--" + name + "="
  }

  /** The value an argparse option `--name` ends up with: that of the last
      `--name=value` token, if any. */
  function Lookup(args: seq<string>, name: string): Option<string> {
    if args == [] then None
    else if HasFlag(args[|args| - 1], name) then Some(args[|args| - 1][|name| + 3..])
    else Lookup(args[..|args| - 1], name)
  }

  /** A benchmark name that argparse cannot take for an option. */
  predicate PlainName(s: string) {
    s == [] || s[0] != '-'
  }

  predicate DistinctNames(names: seq<string>) {
    forall i, j :: 0 <= i < j < |names| ==> names[i] != names[j]
  }

  predicate NoEquals(names: seq<string>) {
    forall i :: 0 <= i < |names| ==> '=' !in names[i]
  }

  /** Looking up in a concatenation: the right part wins. */
  lemma {:induction false} LookupAppend(a: seq<string>, b: seq<string>, name: string)
    ensures Lookup(a + b, name) == if Lookup(b, name).Some? then Lookup(b, name) else Lookup(a, name)
    decreases |b|
  {
    if b == [] {
      assert a + b == a;
    } else {
      assert (a + b)[..|a + b| - 1] == a + b[..|b| - 1];
      LookupAppend(a, b[..|b| - 1], name);
    }
  }

  /** A token built for one name is recognised for that name and no other,
      as long as neither name contains '='. */
  lemma FlagTokenMatches(a: string, b: string, v: string)
    requires '=' !in a && '=' !in b
    ensures HasFlag(FlagToken(a, v), b) <==> a == b
    ensures FlagToken(a, v)[|a| + 3..] == v
  {
    var t := FlagToken(a, v);
    assert t[2..|a| + 2] == a && t[|a| + 2] == '=';
    if HasFlag(t, b) {
      var f := "--" + b + "=";
      assert t[..|b| + 3] == f && f[2..|b| + 2] == b;
      assert forall i :: 0 <= i < |a| ==> a[i] == t[i + 2];
      assert forall i :: 0 <= i < |b| ==> b[i] == t[i + 2];
      assert t[2..|b| + 2] == b;
    }
  }

  /** No token of the table's tokens answers to a name outside the table. */
  lemma {:induction false} LookupOptionTokensAbsent(names: seq<string>, values: seq<Option<string>>, name: string)
    requires |names| == |values| && NoEquals(names) && '=' !in name
    requires name !in names
    ensures Lookup(OptionTokens(names, values), name) == None
    decreases |names|
  {
    if names != [] {
      var n := |names| - 1;
      var front := OptionTokens(names[..n], values[..n]);
      LookupOptionTokensAbsent(names[..n], values[..n], name);
      LookupAppend(front, Token(names[n], values[n]), name);
      if Truthy(values[n]) {
        FlagTokenMatches(names[n], name, values[n].value);
        assert [FlagToken(names[n], values[n].value)][..0] == [];
      }
    }
  }

  /** Each table entry reads back as its value when truthy and as absent
      otherwise. */
  lemma {:induction false} LookupOptionTokens(names: seq<string>, values: seq<Option<string>>, k: nat)
    requires |names| == |values| && k < |names|
    requires NoEquals(names) && DistinctNames(names)
    ensures Lookup(OptionTokens(names, values), names[k])
         == if Truthy(values[k]) then Some(values[k].value) else None
    decreases |names|
  {
    var n := |names| - 1;
    var front := OptionTokens(names[..n], values[..n]);
    LookupAppend(front, Token(names[n], values[n]), names[k]);
    if Truthy(values[n]) {
      FlagTokenMatches(names[n], names[k], values[n].value);
      assert [FlagToken(names[n], values[n].value)][..0] == [];
    }
    if k == n {
      assert names[k] !in names[..n];
      LookupOptionTokensAbsent(names[..n], values[..n], names[k]);
    } else {
      LookupOptionTokens(names[..n], values[..n], k);
    }
  }

  /** Lookup finds nothing when no token answers to the name. */
  lemma {:induction false} LookupNone(args: seq<string>, name: string)
    requires forall i :: 0 <= i < |args| ==> !HasFlag(args[i], name)
    ensures Lookup(args, name) == None
    decreases |args|
  {
    if args != [] {
      LookupNone(args[..|args| - 1], name);
    }
  }

  /** A token answering to a name of two or more letters starts with a dash and
      carries the name's first two letters at positions 2 and 3. */
  lemma HasFlagChars(t: string, name: string)
    requires |name| >= 2 && HasFlag(t, name)
    ensures t[0] == '-' && t[2] == name[0] && t[3] == name[1]
  {
    assert t[..|name| + 3][2] == name[0] && t[..|name| + 3][3] == name[1];
  }

  /** A plain name never answers to an option. */
  lemma PlainIsNotFlag(t: string, name: string)
    requires |name| >= 2 && PlainName(t)
    ensures !HasFlag(t, name)
  {
    if HasFlag(t, name) {
      HasFlagChars(t, name);
    }
  }

  /** A token whose letters at positions 2 and 3 differ from a name's first
      two letters does not answer to it. */
  lemma PrefixCharsDiffer(t: string, name: string)
    requires |name| >= 2 && |t| >= 4 && (t[2] != name[0] || t[3] != name[1])
    ensures !HasFlag(t, name)
  {
    if HasFlag(t, name) {
      HasFlagChars(t, name);
    }
  }

  /** The names of the table are distinct, two or more letters long, and free of '='. */
  lemma OptionalNamesWellFormed()
    ensures NoEquals(OptionalNames) && DistinctNames(OptionalNames)
    ensures forall k :: 0 <= k < |OptionalNames| ==> |OptionalNames[k]| >= 2
  {
  }

  /** None of the fixed tokens, and neither name-list flag, answers to an
      optional name. */
  lemma {:induction false} FixedTokensAreNotOptions(req: BuildRequest, k: nat)
    requires k < |OptionalNames|
    ensures forall i :: 0 <= i < 8 ==> !HasFlag(FixedPrefix(req)[i], OptionalNames[k])
    ensures !HasFlag("--benchmark", OptionalNames[k]) && !HasFlag("--exclude", OptionalNames[k])
  {
    var name := OptionalNames[k];
    OptionalNamesWellFormed();
    forall t | t in FixedPrefix(req) + ["--benchmark", "--exclude"]
      ensures !HasFlag(t, name)
    {
      if HasFlag(t, name) {
        HasFlagChars(t, name);
      }
    }
  }

  /** No token of a name list answers to a name its flag does not answer
      to, when the listed benchmarks are plain names. */
  lemma {:induction false} NameListIsNotFlag(flag: string, names: seq<string>, name: string)
    requires |name| >= 2 && !HasFlag(flag, name)
    requires forall b :: b in names ==> PlainName(b)
    ensures Lookup(NameList(flag, names), name) == None
  {
    var list := NameList(flag, names);
    forall i | 0 <= i < |list|
      ensures !HasFlag(list[i], name)
    {
      if i > 0 {
        assert list[i] == names[i - 1];
        PlainIsNotFlag(names[i - 1], name);
      }
    }
    LookupNone(list, name);
  }

  /** The build driver reads each optional argument back from the command
      line: its value when it was truthy, nothing otherwise. */
  lemma {:induction false} BuildArgsReadBack(req: BuildRequest, k: nat)
    requires k < |OptionalNames|
    requires forall b :: b in req.benchmark ==> PlainName(b)
    requires forall b :: b in req.exclude ==> PlainName(b)
    ensures Lookup(BuildArgs(req), OptionalNames[k])
         == if Truthy(OptionalValues(req)[k]) then Some(OptionalValues(req)[k].value) else None
  {
    var name := OptionalNames[k];
    var p, o := FixedPrefix(req), OptionTokens(OptionalNames, OptionalValues(req));
    var b, e := NameList("--benchmark", req.benchmark), NameList("--exclude", req.exclude);
    BuildArgsFromTable(req);
    LookupAppend(p + o + b, e, name);
    LookupAppend(p + o, b, name);
    LookupAppend(p, o, name);
    OptionalNamesWellFormed();
    FixedTokensAreNotOptions(req, k);
    NameListIsNotFlag("--benchmark", req.benchmark, name);
    NameListIsNotFlag("--exclude", req.exclude, name);
    LookupNone(p, name);
    LookupOptionTokens(OptionalNames, OptionalValues(req), k);
  }

  /** A name outside the table that neither name-list flag answers to is
      looked up in the fixed prefix alone. */
  lemma {:induction false} LookupInPrefix(req: BuildRequest, name: string)
    requires |name| >= 2 && '=' !in name && name !in OptionalNames
    requires !HasFlag("--benchmark", name) && !HasFlag("--exclude", name)
    requires forall b :: b in req.benchmark ==> PlainName(b)
    requires forall b :: b in req.exclude ==> PlainName(b)
    ensures Lookup(BuildArgs(req), name) == Lookup(FixedPrefix(req), name)
  {
    var p, o := FixedPrefix(req), OptionTokens(OptionalNames, OptionalValues(req));
    var b, e := NameList("--benchmark", req.benchmark), NameList("--exclude", req.exclude);
    BuildArgsFromTable(req);
    LookupAppend(p + o + b, e, name);
    LookupAppend(p + o, b, name);
    LookupAppend(p, o, name);
    OptionalNamesWellFormed();
    LookupOptionTokensAbsent(OptionalNames, OptionalValues(req), name);
    NameListIsNotFlag("--benchmark", req.benchmark, name);
    NameListIsNotFlag("--exclude", req.exclude, name);
  }

  /** The fixed prefix names the target: the last three of its tokens. */
  lemma PrefixTarget(req: BuildRequest)
    ensures Lookup(FixedPrefix(req), "arch") == Some(req.arch)
    ensures Lookup(FixedPrefix(req), "chip") == Some(req.chip)
    ensures Lookup(FixedPrefix(req), "board") == Some(req.board)
  {
    var p := FixedPrefix(req);
    FlagTokenMatches("board", "arch", req.board);
    FlagTokenMatches("board", "chip", req.board);
    FlagTokenMatches("board", "board", req.board);
    FlagTokenMatches("chip", "arch", req.chip);
    FlagTokenMatches("chip", "chip", req.chip);
    FlagTokenMatches("arch", "arch", req.arch);
    assert p[7] == FlagToken("board", req.board) && p[6] == FlagToken("chip", req.chip)
      && p[5] == FlagToken("arch", req.arch);
    assert p[..7][6] == p[6] && p[..7][..6] == p[..6] && p[..6][5] == p[5];
    assert Lookup(p, "chip") == Lookup(p[..7], "chip") == Some(req.chip);
    assert Lookup(p, "arch") == Lookup(p[..7], "arch") == Lookup(p[..6], "arch") == Some(req.arch);
  }

  /** The target keys are looked up in the fixed prefix alone. */
  lemma TargetInPrefix(req: BuildRequest, name: string)
    requires name == "arch" || name == "chip" || name == "board"
    requires forall b :: b in req.benchmark ==> PlainName(b)
    requires forall b :: b in req.exclude ==> PlainName(b)
    ensures Lookup(BuildArgs(req), name) == Lookup(FixedPrefix(req), name)
  {
    OptionalNamesWellFormed();
    PrefixCharsDiffer("--benchmark", name);
    PrefixCharsDiffer("--exclude", name);
    LookupInPrefix(req, name);
  }

  /** The target architecture, chip and board read back from the command
      line, whatever optional arguments are present. */
  lemma BuildArgsTarget(req: BuildRequest)
    requires forall b :: b in req.benchmark ==> PlainName(b)
    requires forall b :: b in req.exclude ==> PlainName(b)
    ensures Lookup(BuildArgs(req), "arch") == Some(req.arch)
    ensures Lookup(BuildArgs(req), "chip") == Some(req.chip)
    ensures Lookup(BuildArgs(req), "board") == Some(req.board)
  {
    PrefixTarget(req);
    TargetInPrefix(req, "arch");
    TargetInPrefix(req, "chip");
    TargetInPrefix(req, "board");
  }
}
