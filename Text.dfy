/** The few Python string operations the engine relies on: `str.split()`,
    `str.splitlines(keepends=True)`, `''.join(...)` and the substring test
    `sub in s`. */
module Text {

  /** The characters `str.split()` treats as white space (the ASCII and
      Latin-1 ones; see README for the rest of Unicode). */
  predicate IsSpace(c: char) {
    c == ' ' || c == '\t' || c == '\n' || c == '\r' || c == '\U{0b}' || c == '\U{0c}'
    || c == '\U{1c}' || c == '\U{1d}' || c == '\U{1e}' || c == '\U{1f}'
    || c == '\U{85}' || c == '\U{a0}'
  }

  /** Length of the run of non-space characters that starts `s`. */
  function WordLen(s: string): (n: nat)
    ensures n <= |s|
    ensures forall i :: 0 <= i < n ==> !IsSpace(s[i])
    ensures n < |s| ==> IsSpace(s[n])
  {
    if s == [] || IsSpace(s[0]) then 0 else 1 + WordLen(s[1..])
  }

  /** `s.split()`: the maximal runs of non-space characters, in order. */
  function Split(s: string): (words: seq<string>)
    decreases |s|
  {
    if s == [] then []
    else if IsSpace(s[0]) then Split(s[1..])
    else [s[..WordLen(s)]] + Split(s[WordLen(s)..])
  }

  /** A word does not grow past a space that follows it. */
  lemma {:induction false} WordLenStopsAtSpace(a: string, rest: string)
    requires rest == [] || IsSpace(rest[0])
    ensures WordLen(a + rest) == WordLen(a)
    decreases |a|
  {
    if a != [] && !IsSpace(a[0]) {
      assert (a + rest)[1..] == a[1..] + rest;
      WordLenStopsAtSpace(a[1..], rest);
    } else if a == [] {
      assert a + rest == rest;
    }
  }

  /** Joining two texts with a space joins their word lists:
      `(a + ' ' + b).split() == a.split() + b.split()`. */
  lemma {:induction false} SplitAroundSpace(a: string, sp: char, b: string)
    requires IsSpace(sp)
    ensures Split(a + [sp] + b) == Split(a) + Split(b)
    decreases |a|
  {
    var s := a + [sp] + b;
    if a == [] {
      assert s[1..] == b;
    } else if IsSpace(a[0]) {
      assert s[1..] == a[1..] + [sp] + b;
      SplitAroundSpace(a[1..], sp, b);
    } else {
      var n := WordLen(a);
      assert s == a + ([sp] + b);
      WordLenStopsAtSpace(a, [sp] + b);
      assert s[..n] == a[..n];
      assert s[n..] == a[n..] + [sp] + b;
      SplitAroundSpace(a[n..], sp, b);
    }
  }

  /** Three texts joined by blanks: their words, in order. */
  lemma ThreeWords(a: string, b: string, c: string, v: string)
    requires v == a + [' '] + (b + [' '] + c)
    ensures Split(v) == Split(a) + Split(b) + Split(c)
  {
    var t := b + [' '] + c;
    BlankJoin(b, c, t);
    BlankJoin(a, t, v);
    WordsAssoc(Split(a), Split(b), Split(c));
  }

  /** Two texts joined by a blank: their words, in order. */
  lemma BlankJoin(a: string, b: string, v: string)
    requires v == a + [' '] + b
    ensures Split(v) == Split(a) + Split(b)
  {
    SplitAroundSpace(a, ' ', b);
  }

  lemma WordsAssoc(x: seq<string>, y: seq<string>, z: seq<string>)
    ensures x + (y + z) == x + y + z
  {
  }

  /** A non-empty text without spaces is a single word. */
  lemma SplitSingleWord(s: string)
    requires s != []
    requires forall i :: 0 <= i < |s| ==> !IsSpace(s[i])
    ensures Split(s) == [s]
  {
    assert !IsSpace(s[0]);
    assert WordLen(s) == |s|;
    assert s[..|s|] == s;
    assert s[|s|..] == [];
    assert Split(s) == [s[..WordLen(s)]] + Split(s[WordLen(s)..]);
  }

  /** `sub in s` for two strings (true for the empty `sub`). */
  predicate Contains(s: string, sub: string) {
    exists i :: 0 <= i <= |s| - |sub| && OccursAt(s, sub, i)
  }

  /** `sub` occurs in `s` starting at index `i`. */
  predicate OccursAt(s: string, sub: string, i: int) {
    0 <= i <= |s| - |sub| && s[i..i + |sub|] == sub
  }

  lemma ContainsInLeft(a: string, b: string, sub: string)
    requires Contains(a, sub)
    ensures Contains(a + b, sub)
  {
    var i :| 0 <= i <= |a| - |sub| && OccursAt(a, sub, i);
    assert (a + b)[i..i + |sub|] == a[i..i + |sub|];
    assert OccursAt(a + b, sub, i);
  }

  lemma ContainsInRight(a: string, b: string, sub: string)
    requires Contains(b, sub)
    ensures Contains(a + b, sub)
  {
    var i :| 0 <= i <= |b| - |sub| && OccursAt(b, sub, i);
    assert (a + b)[|a| + i..|a| + i + |sub|] == b[i..i + |sub|];
    assert OccursAt(a + b, sub, |a| + i);
  }

  lemma ContainsItself(pre: string, sub: string, post: string)
    ensures Contains(pre + sub + post, sub)
  {
    assert (pre + sub + post)[|pre|..|pre| + |sub|] == sub;
    assert OccursAt(pre + sub + post, sub, |pre|);
  }

  /** `''.join(parts)`. */
  function Concat(parts: seq<string>): string {
    if parts == [] then [] else parts[0] + Concat(parts[1..])
  }

  lemma {:induction false} ConcatSnoc(parts: seq<string>, last: string)
    ensures Concat(parts + [last]) == Concat(parts) + last
  {
    if parts == [] {
      assert [] + [last] == [last];
    } else {
      assert (parts + [last])[1..] == parts[1..] + [last];
      ConcatSnoc(parts[1..], last);
    }
  }

  /** The characters `str.splitlines()` ends a line at. */
  predicate IsLineBreak(c: char) {
    c == '\n' || c == '\r' || c == '\U{0b}' || c == '\U{0c}' || c == '\U{1c}' || c == '\U{1d}'
    || c == '\U{1e}' || c == '\U{85}' || c == '\U{2028}' || c == '\U{2029}'
  }

  predicate NoLineBreak(s: string) {
    forall i :: 0 <= i < |s| ==> !IsLineBreak(s[i])
  }

  /** Length of the first line of `s`, its line break included; "\r\n" is one
      line break. */
  function LineLen(s: string): (n: nat)
    requires s != []
    ensures 1 <= n <= |s|
  {
    if IsLineBreak(s[0]) then (if s[0] == '\r' && |s| > 1 && s[1] == '\n' then 2 else 1)
    else if |s| == 1 then 1
    else 1 + LineLen(s[1..])
  }

  /** `s.splitlines(keepends=True)`. */
  function SplitLines(s: string): (lines: seq<string>)
    ensures forall l :: l in lines ==> l != []
    decreases |s|
  {
    if s == [] then [] else [s[..LineLen(s)]] + SplitLines(s[LineLen(s)..])
  }

  /** Keeping the line ends makes the split lossless: joining the lines gives
      the text back. */
  lemma {:induction false} SplitLinesJoin(s: string)
    ensures Concat(SplitLines(s)) == s
    decreases |s|
  {
    if s != [] {
      var n := LineLen(s);
      SplitLinesJoin(s[n..]);
      assert s[..n] + s[n..] == s;
    }
  }

  /** A line without breaks followed by "\n" is split off as one line. */
  lemma {:induction false} FirstLineEndsAtNewline(x: string, rest: string)
    requires NoLineBreak(x)
    ensures SplitLines(x + "\n" + rest) == [x + "\n"] + SplitLines(rest)
  {
    LineLenOfLine(x, rest);
    var s := x + "\n" + rest;
    assert s[..|x| + 1] == x + "\n";
    assert s[|x| + 1..] == rest;
  }

  lemma {:induction false} LineLenOfLine(x: string, rest: string)
    requires NoLineBreak(x)
    ensures LineLen(x + "\n" + rest) == |x| + 1
    decreases |x|
  {
    var s := x + "\n" + rest;
    if x != [] {
      assert s[1..] == x[1..] + "\n" + rest;
      LineLenOfLine(x[1..], rest);
    }
  }
}
