/** The Spike target module of the measurement scripts (pylib/run_spike.py):
    the command line that runs one benchmark on the Spike simulator, and the
    reading of the cycle count the benchmark prints back into milliseconds. */
module RunSpike {
  import opened Outcomes
  import opened Text
  import opened Numerals

  /** The target arguments `get_target_args` collects. */
  datatype SpikeOptions = SpikeOptions(command: string, pk: string, args: string)

  /** The defaults of `--spike-command`, `--spike-pk` and `--spike-args`. */
  const DefaultOptions := SpikeOptions("spike", "pk", "")

  /** `build_benchmark_cmd`: the simulator, its own arguments split at white
      space, the proxy kernel, then the benchmark. */
  function BuildBenchmarkCmd(bench: string, opts: SpikeOptions): (cmd: seq<string>)
    ensures |cmd| == |Split(opts.args)| + 3
    ensures cmd[0] == opts.command && cmd[|cmd| - 2] == opts.pk && cmd[|cmd| - 1] == bench
    ensures cmd[1..|cmd| - 2] == Split(opts.args)
  {
    [opts.command] + Split(opts.args) + [opts.pk, bench]
  }

  /** With the defaults the benchmark runs under `spike pk`. */
  lemma DefaultCommand(bench: string)
    ensures BuildBenchmarkCmd(bench, DefaultOptions) == ["spike", "pk", bench]
  {
  }

  /** A simulator argument without white space is passed as one word, between
      the simulator and the proxy kernel. */
  lemma SingleSpikeArg(bench: string, opts: SpikeOptions)
    requires opts.args != []
    requires forall i :: 0 <= i < |opts.args| ==> !IsSpace(opts.args[i])
    ensures BuildBenchmarkCmd(bench, opts) == [opts.command, opts.args, opts.pk, bench]
  {
    SplitSingleWord(opts.args);
  }

  /** Simulator arguments separated by white space are passed in order. */
  lemma SpikeArgsInOrder(bench: string, command: string, pk: string, a: string, sp: char, b: string)
    requires IsSpace(sp)
    ensures BuildBenchmarkCmd(bench, SpikeOptions(command, pk, a + [sp] + b))
         == [command] + Split(a) + Split(b) + [pk, bench]
  {
    SplitAroundSpace(a, sp, b);
  }

  // ---------------------------------------------------------------------
  // The search `^cycle = 0x(\w+)` in multi-line mode.

  /** The literal part of the pattern. */
  const CyclePrefix: string := "cycle = 0x"

  /** `\w` on the ASCII range: letters, digits and the underscore. */
  predicate IsWordChar(c: char) {
    'a' <= c <= 'z' || 'A' <= c <= 'Z' || '0' <= c <= '9' || c == '_'
  }

  /** `^` with `re.M`: the start of the text or just after a line feed. */
  predicate LineStart(s: string, i: int) {
    i == 0 || (0 < i <= |s| && s[i - 1] == '\n')
  }

  /** The pattern matches at position `i`: a line that starts with the literal
      part followed by at least one word character. */
  predicate Hit(s: string, i: int) {
    0 <= i && i + |CyclePrefix| < |s| && LineStart(s, i)
    && s[i..i + |CyclePrefix|] == CyclePrefix && IsWordChar(s[i + |CyclePrefix|])
  }

  /** `re.search` from position `from`: the leftmost match, if any. */
  function Search(s: string, from: nat): (r: Option<nat>)
    requires from <= |s|
    ensures r.Some? ==> from <= r.value < |s| && Hit(s, r.value)
    ensures r.Some? ==> forall k :: from <= k < r.value ==> !Hit(s, k)
    ensures r.None? ==> forall k :: from <= k ==> !Hit(s, k)
    decreases |s| - from
  {
    if from == |s| then None
    else if Hit(s, from) then Some(from)
    else Search(s, from + 1)
  }

  /** Length of the run of word characters that starts `s`: what the greedy
      `\w+` takes. */
  function WordRun(s: string): (n: nat)
    ensures n <= |s|
    ensures forall i :: 0 <= i < n ==> IsWordChar(s[i])
    ensures n < |s| ==> !IsWordChar(s[n])
  {
    if s == [] || !IsWordChar(s[0]) then 0 else 1 + WordRun(s[1..])
  }

  /** `rcstr.group(1)` for a match at `i`. */
  function Token(s: string, i: nat): (tok: string)
    requires Hit(s, i)
    ensures tok != [] && forall j :: 0 <= j < |tok| ==> IsWordChar(tok[j])
  {
    var rest := s[i + |CyclePrefix|..];
    rest[..WordRun(rest)]
  }

  // ---------------------------------------------------------------------
  // `int(text, 16)` on a run of word characters.

  predicate IsHexDigit(c: char) {
    DigitValue(c) < 16
  }

  /** Hexadecimal digits in groups joined by single underscores. */
  predicate Grouped(s: string) {
    s != [] && IsHexDigit(s[0]) && IsHexDigit(s[|s| - 1])
    && (forall i :: 0 <= i < |s| ==> IsHexDigit(s[i]) || s[i] == '_')
    && (forall i :: 0 <= i < |s| - 1 ==> s[i] != '_' || s[i + 1] != '_')
  }

  /** The digits of `s` with the underscores taken out. */
  function DropUnderscores(s: string): (d: string)
    ensures |d| <= |s|
  {
    if s == [] then [] else (if s[0] == '_' then [] else [s[0]]) + DropUnderscores(s[1..])
  }

  /** The optional base prefix `0x` or `0X`. */
  predicate HasBasePrefix(tok: string) {
    |tok| >= 2 && tok[0] == '0' && (tok[1] == 'x' || tok[1] == 'X')
  }

  /** `int(tok, 16)`: an optional `0x` prefix, after it an optional single
      underscore, then grouped digits of either case; anything else is
      refused (None). */
  function HexInt(tok: string): Option<nat> {
    if HasBasePrefix(tok) then
      var body := tok[2..];
      if Grouped(body) then Some(ParseDigits(DropUnderscores(body), 16))
      else if body != [] && body[0] == '_' && Grouped(body[1..]) then Some(ParseDigits(DropUnderscores(body[1..]), 16))
      else None
    else if Grouped(tok) then Some(ParseDigits(DropUnderscores(tok), 16))
    else None
  }

  /** The message of the ValueError `int()` raises. */
  function BadLiteral(tok: string): string {
    "invalid literal for int() with base 16: '" + tok + "'"
  }

  /** `decode_results`: the cycle count of the first line that starts with
      `cycle = 0x`, divided by 1000 (a 1 MHz clock in milliseconds), or 0.0
      when no line does; a count `int()` refuses raises ValueError. The
      standard error text is not consulted. */
  function DecodeResults(stdout: string, stderr: string): Result<real, Error> {
    match Search(stdout, 0)
    case None => Success(0.0)
    case Some(i) =>
      var tok := Token(stdout, i);
      match HexInt(tok)
      case None => Failure(ValueError(BadLiteral(tok)))
      case Some(cycle) => Success(cycle as real / 1000.0)
  }

  // ---------------------------------------------------------------------
  // Properties.

  lemma {:induction false} DropUnderscoresNone(s: string)
    requires forall i :: 0 <= i < |s| ==> s[i] != '_'
    ensures DropUnderscores(s) == s
    decreases |s|
  {
    if s != [] {
      DropUnderscoresNone(s[1..]);
      assert [s[0]] + s[1..] == s;
    }
  }

  lemma {:induction false} DropUnderscoresAppend(a: string, b: string)
    ensures DropUnderscores(a + b) == DropUnderscores(a) + DropUnderscores(b)
    decreases |a|
  {
    if a == [] {
      assert a + b == b;
    } else {
      assert (a + b)[1..] == a[1..] + b;
      DropUnderscoresAppend(a[1..], b);
    }
  }

  /** A plain string of hexadecimal digits reads as its value. */
  lemma PlainHex(tok: string)
    requires tok != [] && AllDigits(tok, 16)
    ensures HexInt(tok) == Some(ParseDigits(tok, 16))
  {
    assert !HasBasePrefix(tok) by {
      if |tok| >= 2 { assert DigitValue(tok[1]) < 16; }
    }
    DropUnderscoresNone(tok);
  }

  lemma JoinedGroups(a: string, b: string)
    requires a != [] && AllDigits(a, 16) && b != [] && AllDigits(b, 16)
    ensures Grouped(a + "_" + b) && !HasBasePrefix(a + "_" + b)
  {
    var tok := a + "_" + b;
    assert forall i :: 0 <= i < |a| ==> tok[i] == a[i];
    assert tok[|a|] == '_';
    assert forall j :: 0 <= j < |b| ==> tok[|a| + 1 + j] == b[j];
    forall i | 0 <= i < |tok|
      ensures IsHexDigit(tok[i]) || tok[i] == '_'
    {
      if i > |a| {
        assert tok[|a| + 1 + (i - |a| - 1)] == b[i - |a| - 1];
      }
    }
    forall i | 0 <= i < |tok| - 1
      ensures tok[i] != '_' || tok[i + 1] != '_'
    {
      if i >= |a| {
        assert tok[|a| + 1 + (i - |a|)] == b[i - |a|];
      }
    }
    assert tok[|tok| - 1] == b[|b| - 1];
  }

  lemma DropJoined(a: string, b: string)
    requires forall i :: 0 <= i < |a| ==> a[i] != '_'
    requires forall i :: 0 <= i < |b| ==> b[i] != '_'
    ensures DropUnderscores(a + "_" + b) == a + b
  {
    var u: string := "_";
    DropUnderscoresAppend(a, u + b);
    DropUnderscoresAppend(u, b);
    DropUnderscoresNone(a);
    DropUnderscoresNone(b);
    assert DropUnderscores(u) == [];
    calc {
      DropUnderscores(a + u + b);
      { assert a + u + b == a + (u + b); }
      DropUnderscores(a) + DropUnderscores(u + b);
      a + ([] + b);
      { assert [] + b == b; }
      a + b;
    }
  }

  /** An underscore between two digit groups is ignored. */
  lemma UnderscoreBetweenGroups(a: string, b: string)
    requires a != [] && AllDigits(a, 16) && b != [] && AllDigits(b, 16)
    ensures HexInt(a + "_" + b) == Some(ParseDigits(a + b, 16))
  {
    JoinedGroups(a, b);
    DropJoined(a, b);
  }

  /** The `0x` prefix is accepted and does not change the value. */
  lemma PrefixedHex(digits: string)
    requires digits != [] && AllDigits(digits, 16)
    ensures HexInt("0x" + digits) == Some(ParseDigits(digits, 16))
  {
    var tok := "0x" + digits;
    assert HasBasePrefix(tok);
    assert tok[2..] == digits;
    DropUnderscoresNone(digits);
  }

  /** A word character that is neither a digit nor an underscore, outside the
      prefix position, makes `int()` refuse the text. */
  lemma NonDigitRefused(tok: string, j: nat)
    requires j < |tok| && !IsHexDigit(tok[j]) && tok[j] != '_'
    requires !(j == 1 && HasBasePrefix(tok))
    ensures HexInt(tok) == None
  {
    if HasBasePrefix(tok) {
      var body := tok[2..];
      assert j >= 2 by { assert IsHexDigit(tok[0]); }
      assert body[j - 2] == tok[j];
      if body != [] && body[0] == '_' {
        assert j - 2 >= 1;
        assert body[1..][j - 3] == tok[j];
      }
    }
  }

  /** A word run stops at the first character that is no word character. */
  lemma {:induction false} WordRunStops(a: string, rest: string)
    requires forall i :: 0 <= i < |a| ==> IsWordChar(a[i])
    requires rest == [] || !IsWordChar(rest[0])
    ensures WordRun(a + rest) == |a|
    decreases |a|
  {
    if a == [] {
      assert a + rest == rest;
    } else {
      assert (a + rest)[1..] == a[1..] + rest;
      WordRunStops(a[1..], rest);
    }
  }

  /** The leftmost match decides, whatever follows it. */
  lemma DecodeFirstHit(stdout: string, stderr: string, i: nat)
    requires Hit(stdout, i)
    requires forall k :: 0 <= k < i ==> !Hit(stdout, k)
    ensures DecodeResults(stdout, stderr)
         == match HexInt(Token(stdout, i))
            case None => Failure(ValueError(BadLiteral(Token(stdout, i))))
            case Some(cycle) => Success(cycle as real / 1000.0)
  {
    assert Search(stdout, 0) == Some(i);
  }

  /** Output without a line that starts with `cycle = 0x` and a word character
      decodes to 0.0. */
  lemma DecodeNoHit(stdout: string, stderr: string)
    requires forall k :: 0 <= k < |stdout| ==> !Hit(stdout, k)
    ensures DecodeResults(stdout, stderr) == Success(0.0)
  {
  }

  /** The text on standard error never changes the reading. */
  lemma DecodeIgnoresStderr(stdout: string, err1: string, err2: string)
    ensures DecodeResults(stdout, err1) == DecodeResults(stdout, err2)
  {
  }

  /** A single indented line never matches, whatever it holds (an indented
      `cycle = 0x...` included): `^` only matches at a line start. */
  lemma IndentedLineIgnored(indent: string, line: string, stderr: string)
    requires indent != [] && forall i :: 0 <= i < |indent| ==> indent[i] == ' ' || indent[i] == '\t'
    requires forall i :: 0 <= i < |line| ==> line[i] != '\n'
    ensures DecodeResults(indent + line + "\n", stderr) == Success(0.0)
  {
    var stdout := indent + line + "\n";
    forall k | 0 <= k < |stdout|
      ensures !Hit(stdout, k)
    {
      if k + |CyclePrefix| < |stdout| {
        if k == 0 {
          assert stdout[0..|CyclePrefix|][0] == indent[0] != CyclePrefix[0];
        } else {
          assert stdout[k - 1] != '\n' by {
            if k - 1 < |indent| {
              assert stdout[k - 1] == indent[k - 1];
            } else {
              assert stdout[k - 1] == line[k - 1 - |indent|];
            }
          }
        }
      }
    }
    DecodeNoHit(stdout, stderr);
  }
}
