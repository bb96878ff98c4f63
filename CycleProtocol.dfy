/** The protocol between the board and the Spike target module: the line
    `stop_trigger` prints is read back by `decode_results` as the number of
    cycles it reports, in milliseconds at 1 MHz. */
module CycleProtocol {
  import opened Outcomes
  import opened Numerals
  import opened RunSpike
  import opened BoardSupport

  /** A match at `i` whose word run is `hex`, ended by `tail`. */
  lemma TokenAt(s: string, i: nat, hex: string, tail: string)
    requires LineStart(s, i)
    requires s[i..] == CyclePrefix + hex + tail
    requires hex != [] && forall j :: 0 <= j < |hex| ==> IsWordChar(hex[j])
    requires tail == [] || !IsWordChar(tail[0])
    ensures Hit(s, i) && Token(s, i) == hex
  {
    var n := |CyclePrefix|;
    assert s[i..][..n] == CyclePrefix;
    assert s[i..i + n] == CyclePrefix;
    assert s[i + n] == s[i..][n] == hex[0];
    var rest := s[i + n..];
    assert rest == hex + tail by {
      assert rest == s[i..][n..];
    }
    WordRunStops(hex, tail);
    assert rest[..|hex|] == hex;
  }

  /** The printed digits are word characters and a plain hexadecimal literal. */
  lemma PrintedDigits(c: nat)
    requires c < Pow64
    ensures var hex := FixedHex(c, 16);
      (forall j :: 0 <= j < |hex| ==> IsWordChar(hex[j]))
      && HexInt(hex) == Some(c)
  {
    var hex := FixedHex(c, 16);
    PlainHex(hex);
    SixteenHexDigits();
    FixedHexRoundTrip(c, 16);
  }

  /** The count `stop_trigger` prints is the count `decode_results` reads,
      whatever the benchmark prints after it and whatever is on standard error. */
  lemma DecodeCycleLine(c: nat, rest: string, stderr: string)
    requires c < Pow64
    ensures DecodeResults(CycleLine(c) + rest, stderr) == Success(c as real / 1000.0)
  {
    var s := CycleLine(c) + rest;
    var hex := FixedHex(c, 16);
    PrintedDigits(c);
    assert s[0..] == CyclePrefix + hex + ("\n" + rest);
    TokenAt(s, 0, hex, "\n" + rest);
    DecodeFirstHit(s, stderr, 0);
  }

  /** Complete lines before the count that do not start with `cycle = 0x`
      and a word character do not disturb the reading. */
  lemma DecodeAfterLines(pre: string, c: nat, rest: string, stderr: string)
    requires c < Pow64
    requires pre == [] || pre[|pre| - 1] == '\n'
    requires forall k :: 0 <= k < |pre| ==> !Hit(pre, k)
    ensures DecodeResults(pre + CycleLine(c) + rest, stderr) == Success(c as real / 1000.0)
  {
    var hex := FixedHex(c, 16);
    var post := CycleLine(c) + rest;
    PrintedDigits(c);
    assert post == CyclePrefix + hex + ("\n" + rest);
    FirstHitAfter(pre, post, hex, "\n" + rest);
    assert pre + CycleLine(c) + rest == pre + post;
    DecodeFirstHit(pre + post, stderr, |pre|);
  }

  /** A match that starts a line right after complete lines without one is
      the first match of the whole text. */
  lemma FirstHitAfter(pre: string, post: string, hex: string, tail: string)
    requires pre == [] || pre[|pre| - 1] == '\n'
    requires forall k :: 0 <= k < |pre| ==> !Hit(pre, k)
    requires post == CyclePrefix + hex + tail
    requires hex != [] && forall j :: 0 <= j < |hex| ==> IsWordChar(hex[j])
    requires tail == [] || !IsWordChar(tail[0])
    ensures Hit(pre + post, |pre|) && Token(pre + post, |pre|) == hex
    ensures forall k :: 0 <= k < |pre| ==> !Hit(pre + post, k)
  {
    var s := pre + post;
    assert s[|pre|..] == post;
    assert LineStart(s, |pre|);
    TokenAt(s, |pre|, hex, tail);
    forall k | 0 <= k < |pre|
      ensures !Hit(s, k)
    {
      if Hit(s, k) {
        NoEarlierHit(pre, post, k);
      }
    }
  }

  /** A match in `pre + post` that starts inside `pre`, where `pre` ends with
      a line feed, lies wholly inside `pre`. */
  lemma NoEarlierHit(pre: string, post: string, k: nat)
    requires pre != [] && pre[|pre| - 1] == '\n'
    requires k < |pre| && Hit(pre + post, k)
    ensures Hit(pre, k)
  {
    var s := pre + post;
    var n := |CyclePrefix|;
    assert forall j :: k <= j < k + n ==> s[j] == s[k..k + n][j - k];
    assert forall j :: k <= j < k + n ==> s[j] != '\n';
    assert s[|pre| - 1] == '\n';
    assert k + n < |pre| - 1;
    assert s[k..k + n] == pre[k..k + n];
  }
}
