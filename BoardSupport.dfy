/** The board support of the RV32 `cycle` board
    (config/riscv32/boards/cycle/boardsupport.c): the 64-bit cycle counter is
    read as two 32-bit halves, `start_trigger` records it, and `stop_trigger`
    prints the cycles elapsed since, for the Spike target module to read back. */
module BoardSupport {
  import opened Numerals

  const Pow32: nat := 0x1_0000_0000
  const Pow64: nat := 0x1_0000_0000_0000_0000

  /** The `cycleh` half of a counter value. */
  function Hi(x: nat): nat {
    x / Pow32
  }

  /** The `cycle` half of a counter value. */
  function Lo(x: nat): nat {
    x % Pow32
  }

  /** `(uint64_t)hi << 32 | lo` for two 32-bit halves. */
  function Join(hi: nat, lo: nat): nat {
    hi * Pow32 + lo
  }

  /** A 64-bit counter value is the join of its halves, and each half is a
      32-bit word. */
  lemma JoinSplit(x: nat)
    requires x < Pow64
    ensures Hi(x) < Pow32 && Lo(x) < Pow32
    ensures Join(Hi(x), Lo(x)) == x
  {
  }

  /** Joining two 32-bit words gives a 64-bit value whose halves are those words. */
  lemma SplitJoin(hi: nat, lo: nat)
    requires hi < Pow32 && lo < Pow32
    ensures Join(hi, lo) < Pow64
    ensures Hi(Join(hi, lo)) == hi && Lo(Join(hi, lo)) == lo
  {
  }

  /** The high half never decreases as the counter grows. */
  lemma HiMonotone(x: nat, y: nat)
    requires x <= y
    ensures Hi(x) <= Hi(y)
  {
  }

  /** A value between two counter values with the same high half has that
      high half too. */
  lemma HiBetween(x: nat, y: nat, z: nat)
    requires x <= y <= z && Hi(x) == Hi(z)
    ensures Hi(y) == Hi(x)
  {
    HiMonotone(x, y);
    HiMonotone(y, z);
  }

  /** `a - b` on `uint64_t`: the difference modulo 2^64. */
  function WrapSub(a: nat, b: nat): (d: nat)
    requires a < Pow64 && b < Pow64
    ensures d < Pow64
    ensures (b + d) % Pow64 == a
    ensures b <= a ==> d == a - b
    ensures b > a ==> d == a - b + Pow64
  {
    (a - b) % Pow64
  }

  /** The line `stop_trigger` prints: `cycle = 0x%016" PRIx64 "\n"`. */
  function CycleLine(c: nat): string {
    "cycle = 0x" + FixedHex(c, 16) + "\n"
  }

  /** Sixteen hexadecimal digits hold every 64-bit value. */
  lemma SixteenHexDigits()
    ensures Pow16(16) == Pow64
  {
    assert Pow16(4) == 0x1_0000;
    assert Pow16(8) == 0x1_0000_0000;
    assert Pow16(12) == 0x1_0000_0000_0000;
  }

  /** The counter as the hardware presents it: `counter(t)` is its value at
      instant `t`, a 64-bit value that never decreases. */
  ghost predicate CounterOk(counter: nat -> nat) {
    (forall t :: counter(t) < Pow64)
    && (forall t: nat :: counter(t) <= counter(t + 1))
  }

  /** The counter never decreases over any interval. */
  lemma {:induction false} CounterGrows(counter: nat -> nat, t0: nat, t1: nat)
    requires CounterOk(counter) && t0 <= t1
    ensures counter(t0) <= counter(t1)
    decreases t1 - t0
  {
    if t0 < t1 {
      CounterGrows(counter, t0 + 1, t1);
    }
  }

  /** With a counter that never decreases, the `uint64_t` subtraction of an
      earlier reading from a later one is the true difference. */
  lemma Elapsed(counter: nat -> nat, t0: nat, t1: nat)
    requires CounterOk(counter) && t0 <= t1
    ensures WrapSub(counter(t1), counter(t0)) == counter(t1) - counter(t0)
  {
    CounterGrows(counter, t0, t1);
  }

  /** The read order of `rdcycle` as written (low half, then the high half
      twice): when the counter carries into the high half between the low
      read and the first high read, and not between the two high reads, the
      loop accepts a value almost 2^32 above every reading. */
  lemma TornRead()
    ensures var lo, hi1, hi2 := 0xFFFF_FFFF, 0x1_0000_0000, 0x1_0000_0000;
      lo <= hi1 <= hi2 && Hi(hi1) == Hi(hi2)
      && Join(Hi(hi1), Lo(lo)) == 0x1_FFFF_FFFF
      && Join(Hi(hi1), Lo(lo)) == hi2 + (Pow32 - 1)
  {
  }

  /** The torn start reading makes the printed interval wrap: a later, exact
      stop reading below it is subtracted modulo 2^64. */
  lemma TornIntervalWraps()
    ensures WrapSub(0x1_0000_0005, 0x1_FFFF_FFFF) == Pow64 - 0xFFFF_FFFA
  {
  }

  /** The read order of `rdcycle` as written gives the counter's value at the
      low read whenever no carry reaches the high half between that read and
      the first high read. */
  lemma AsWrittenWithoutCarry(lo: nat, hi: nat)
    requires lo < Pow64 && Hi(lo) == Hi(hi)
    ensures Join(Hi(hi), Lo(lo)) == lo
  {
  }

  /** Every high half the counter shows is a 32-bit word. */
  lemma HiIsWord(counter: nat -> nat, t: nat)
    requires CounterOk(counter)
    ensures Hi(counter(t)) < Pow32
  {
    JoinSplit(counter(t));
  }

  /** A retry of either read loop sees a larger high half, still a 32-bit
      word: two high halves read at `t` and `u` differ, and the next one is
      read at `w`. */
  lemma RetryProgress(counter: nat -> nat, t: nat, u: nat, w: nat)
    requires CounterOk(counter) && t <= u <= w
    requires Hi(counter(t)) != Hi(counter(u))
    ensures Hi(counter(t)) < Hi(counter(w)) < Pow32
  {
    CounterGrows(counter, t, u);
    CounterGrows(counter, u, w);
    HiMonotone(counter(t), counter(u));
    HiMonotone(counter(u), counter(w));
    HiIsWord(counter, w);
  }

  /** High, low, high: equal high halves make the joined value the counter at
      the low read. */
  lemma HighLowHigh(counter: nat -> nat, t: nat)
    requires CounterOk(counter)
    requires Hi(counter(t)) == Hi(counter(t + 2))
    ensures Join(Hi(counter(t)), Lo(counter(t + 1))) == counter(t + 1)
  {
    assert counter(t) <= counter(t + 1) <= counter(t + 2);
    HiBetween(counter(t), counter(t + 1), counter(t + 2));
    JoinSplit(counter(t + 1));
  }

  /** The read order as written joins the high half of one reading `y` with
      the low half of an earlier one `x`: the value is never below `x` and
      less than 2^32 above `y`. */
  lemma TornBounds(x: nat, y: nat)
    requires x <= y < Pow64
    ensures x <= Join(Hi(y), Lo(x)) < y + Pow32
    ensures Join(Hi(y), Lo(x)) < Pow64
  {
    JoinSplit(x);
    JoinSplit(y);
    HiMonotone(x, y);
    SplitJoin(Hi(y), Lo(x));
  }

  /** What `rdcycle` as written returns when its last pass reads the low
      half at instant `t` and the high half at `t + 1` and `t + 2`. */
  function AsWrittenValue(counter: nat -> nat, t: nat): (v: nat)
    requires CounterOk(counter)
    ensures v < Pow64
    ensures counter(t) <= v < counter(t + 1) + Pow32
  {
    TornBounds(counter(t), counter(t + 1));
    Join(Hi(counter(t + 1)), Lo(counter(t)))
  }

  /** Without a carry into the high half right after either low read, the
      count as written is the true advance. */
  lemma AsWrittenCountWithoutCarry(counter: nat -> nat, t0: nat, t1: nat)
    requires CounterOk(counter) && t0 <= t1
    requires Hi(counter(t0)) == Hi(counter(t0 + 1)) && Hi(counter(t1)) == Hi(counter(t1 + 1))
    ensures WrapSub(AsWrittenValue(counter, t1), AsWrittenValue(counter, t0)) == counter(t1) - counter(t0)
  {
    AsWrittenWithoutCarry(counter(t0), counter(t0 + 1));
    AsWrittenWithoutCarry(counter(t1), counter(t1 + 1));
    Elapsed(counter, t0, t1);
  }

  /** The board: its cycle counter and the file-scope `cycle` variable. */
  class Board {
    /** The counter, by instant. */
    const counter: nat -> nat
    /** The current instant; each CSR read takes one. */
    var time: nat
    /** `static uint64_t cycle`. */
    var cycle: nat
    /** What the board has printed. */
    var stdout: string

    ghost predicate Valid()
      reads this
    {
      CounterOk(counter) && cycle < Pow64
    }

    constructor (counter: nat -> nat)
      requires CounterOk(counter)
      ensures Valid()
      ensures this.counter == counter && time == 0 && cycle == 0 && stdout == ""
    {
      this.counter := counter;
      time := 0;
      cycle := 0;
      stdout := "";
    }

    /** `csrr` of `cycleh` (high) or `cycle` (low). */
    method ReadCsr(high: bool) returns (w: nat)
      modifies this
      ensures time == old(time) + 1 && cycle == old(cycle) && stdout == old(stdout)
      ensures w == if high then Hi(counter(old(time))) else Lo(counter(old(time)))
    {
      w := if high then Hi(counter(time)) else Lo(counter(time));
      time := time + 1;
    }

    /** One pass of the read sequence of section 10.1 of the RISC-V
      Unprivileged ISA: `cycleh`, `cycle`, `cycleh`. */
    method ReadHighLowHigh() returns (hi1: nat, lo: nat, hi2: nat)
      modifies this
      ensures time == old(time) + 3 && cycle == old(cycle) && stdout == old(stdout)
      ensures hi1 == Hi(counter(time - 3)) && lo == Lo(counter(time - 2)) && hi2 == Hi(counter(time - 1))
    {
      hi1 := ReadCsr(true);
      lo := ReadCsr(false);
      hi2 := ReadCsr(true);
    }

    /** `rdcycle` with the reads in the order of section 10.1 of the RISC-V
      Unprivileged ISA, retried until the two high halves agree: the value is
      exactly the counter at the low read. */
    method ReadCycle() returns (v: nat)
      requires CounterOk(counter)
      modifies this
      ensures old(time) + 3 <= time && cycle == old(cycle) && stdout == old(stdout)
      ensures v == counter(time - 2)
    {
      var hi1, lo, hi2 := ReadHighLowHigh();
      ghost var t := time - 3;
      HiIsWord(counter, t);
      while hi1 != hi2
        invariant old(time) <= t && time == t + 3 && cycle == old(cycle) && stdout == old(stdout)
        invariant hi1 == Hi(counter(t)) && lo == Lo(counter(t + 1)) && hi2 == Hi(counter(t + 2))
        invariant hi1 < Pow32
        decreases Pow32 - hi1
      {
        RetryProgress(counter, t, t + 2, t + 3);
        hi1, lo, hi2 := ReadHighLowHigh();
        t := t + 3;
      }
      HighLowHigh(counter, t);
      v := Join(hi1, lo);
    }

    /** One pass of the read sequence as written: `cycle`, `cycleh`, `cycleh`. */
    method ReadLowHighHigh() returns (lo: nat, hi1: nat, hi2: nat)
      modifies this
      ensures time == old(time) + 3 && cycle == old(cycle) && stdout == old(stdout)
      ensures lo == Lo(counter(time - 3)) && hi1 == Hi(counter(time - 2)) && hi2 == Hi(counter(time - 1))
    {
      lo := ReadCsr(false);
      hi1 := ReadCsr(true);
      hi2 := ReadCsr(true);
    }

    /** `rdcycle` as written (low, high, high, retried until the two high
      halves agree): the high half of one reading joined to the low half of
      an earlier one. */
    method ReadCycleAsWritten() returns (v: nat)
      requires CounterOk(counter)
      modifies this
      ensures old(time) + 3 <= time && cycle == old(cycle) && stdout == old(stdout)
      ensures Hi(counter(time - 2)) == Hi(counter(time - 1))
      ensures v == Join(Hi(counter(time - 2)), Lo(counter(time - 3)))
    {
      var lo, hi1, hi2 := ReadLowHighHigh();
      ghost var t := time - 3;
      HiIsWord(counter, t + 1);
      while hi1 != hi2
        invariant old(time) <= t && time == t + 3 && cycle == old(cycle) && stdout == old(stdout)
        invariant lo == Lo(counter(t)) && hi1 == Hi(counter(t + 1)) && hi2 == Hi(counter(t + 2))
        invariant hi1 < Pow32
        decreases Pow32 - hi1
      {
        RetryProgress(counter, t + 1, t + 2, t + 4);
        lo, hi1, hi2 := ReadLowHighHigh();
        t := t + 3;
      }
      v := Join(hi1, lo);
    }

    /** `start_trigger` (boardsupport.c line 49): record the counter. */
    method StartTrigger()
      requires Valid()
      modifies this
      ensures Valid()
      ensures old(time) + 3 <= time && stdout == old(stdout)
      ensures cycle == counter(time - 2)
    {
      cycle := ReadCycle();
    }

    /** `stop_trigger` (boardsupport.c lines 55-57): replace the recorded
      counter value by the cycles elapsed since, modulo 2^64, and print them. */
    method StopTrigger()
      requires Valid()
      modifies this
      ensures Valid()
      ensures old(time) + 3 <= time
      ensures cycle == WrapSub(counter(time - 2), old(cycle))
      ensures stdout == old(stdout) + CycleLine(cycle)
    {
      var now := ReadCycle();
      cycle := WrapSub(now, cycle);
      stdout := stdout + "cycle = 0x" + FixedHex(cycle, 16) + "\n";
    }

    /** `start_trigger`, the benchmark (which takes `work` instants) and
      `stop_trigger`: the printed count is exactly the
      counter's advance between the two recorded readings. */
    method MeasureRegion(work: nat)
      requires Valid()
      modifies this
      ensures Valid()
      ensures exists t0, t1 :: old(time) <= t0 && t0 + work < t1 < time
                               && cycle == counter(t1) - counter(t0)
      ensures stdout == old(stdout) + CycleLine(cycle)
    {
      StartTrigger();
      ghost var t0 := time - 2;
      time := time + work;
      StopTrigger();
      ghost var t1 := time - 2;
      Elapsed(counter, t0, t1);
    }

    /** `start_trigger` as written: it records the torn value of `rdcycle`
      as written. */
    method StartTriggerAsWritten()
      requires Valid()
      modifies this
      ensures Valid()
      ensures old(time) + 3 <= time && stdout == old(stdout)
      ensures cycle == AsWrittenValue(counter, time - 3)
    {
      cycle := ReadCycleAsWritten();
    }

    /** `stop_trigger` as written: the elapsed count is taken from a torn
      reading. */
    method StopTriggerAsWritten()
      requires Valid()
      modifies this
      ensures Valid()
      ensures old(time) + 3 <= time
      ensures cycle == WrapSub(AsWrittenValue(counter, time - 3), old(cycle))
      ensures stdout == old(stdout) + CycleLine(cycle)
    {
      var now := ReadCycleAsWritten();
      cycle := WrapSub(now, cycle);
      stdout := stdout + "cycle = 0x" + FixedHex(cycle, 16) + "\n";
    }

    /** The measured region as written: the printed count is the `uint64_t`
      difference of two torn readings, which `TornIntervalWraps` shows can be
      near 2^64, and which `AsWrittenCountWithoutCarry` shows is exact when
      no carry falls right after a low read. */
    method MeasureRegionAsWritten(work: nat)
      requires Valid()
      modifies this
      ensures Valid()
      ensures exists t0, t1 :: old(time) <= t0 && t0 + work < t1 < time
                               && cycle == WrapSub(AsWrittenValue(counter, t1), AsWrittenValue(counter, t0))
      ensures stdout == old(stdout) + CycleLine(cycle)
    {
      StartTriggerAsWritten();
      ghost var t0 := time - 3;
      time := time + work;
      StopTriggerAsWritten();
      ghost var t1 := time - 3;
      assert cycle == WrapSub(AsWrittenValue(counter, t1), AsWrittenValue(counter, t0));
    }
  }
}
