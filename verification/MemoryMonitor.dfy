/** Memory backpressure with two watermarks (sgre/internal/cli/mempressure.go:17-101) and the
    watermarks derived from a cgroup limit (sgre/internal/cli/pipeline.go:238-258), in 64-bit
    arithmetic that wraps. */
module MemoryMonitors {

  const TWO63: int := 0x8000_0000_0000_0000
  const TWO64: int := 0x1_0000_0000_0000_0000
  const MIB: int := 1024 * 1024

  predicate Int64(n: int) { -TWO63 <= n < TWO63 }

  /** The value of an int64 result. */
  function Wrap(n: int): (r: int)
    ensures Int64(r) && (Int64(n) ==> r == n)
  {
    var m := n % TWO64;
    if m < TWO63 then m else m - TWO64
  }

  /** Go's integer division truncates. */
  function Quot(a: int, b: int): int
    requires b > 0
  {
    if a >= 0 then a / b else -(-a / b)
  }

  /** An unusable low watermark becomes 75% of the high one. */
  function LowFor(high: int, low: int): int {
    if high > 0 && (low <= 0 || low >= high) then Quot(Wrap(high * 3), 4) else low
  }

  /** The pressure flag after the samples, newest last. */
  function After(high: int, low: int, samples: seq<int>): bool {
    if samples == [] then false
    else
      var before := After(high, low, samples[..|samples| - 1]);
      var cur := samples[|samples| - 1];
      if !before && cur >= high then true
      else if before && cur <= low then false
      else before
  }

  class MemoryMonitor {
    const high: int
    const low: int
    var pressured: bool
    var current: int
    ghost var samples: seq<int>

    ghost predicate Valid()
      reads this
    {
      && pressured == After(high, low, samples)
      && current == if samples == [] then 0 else samples[|samples| - 1]
    }

    constructor (highBytes: int, lowBytes: int)
      requires Int64(highBytes) && Int64(lowBytes)
      ensures Valid() && samples == []
      ensures high == highBytes && low == LowFor(highBytes, lowBytes)
    {
      high := highBytes;
      low := if highBytes > 0 &&
        (lowBytes <= 0 || lowBytes >= highBytes) then Quot(Wrap(highBytes * 3), 4) else lowBytes;
      pressured, current, samples := false, 0, [];
    }

    /** One tick of the sampling goroutine. */
    method Sample(cur: int)
      requires Valid()
      modifies this
      ensures Valid() && samples == old(samples) + [cur]
    {
      current := cur;
      if !pressured && cur >= high {
        pressured := true;
      } else if pressured && cur <= low {
        pressured := false;
      }
      samples := samples + [cur];
      assert samples[..|samples| - 1] == old(samples);
    }

    /** What the gates ask; a zero high watermark disables the monitor. */
    predicate Pressured()
      reads this
    {
      high != 0 && pressured
    }

    /** The flag in terms of everything sampled so far. */
    lemma PressuredMeans()
      requires Valid() && low < high
      ensures Pressured() <==> high != 0 && RaisedAndNotCleared(high, low, samples)
    {
      FlagMeans(high, low, samples);
    }
  }

  /** Sample i reached the high watermark and every later one stayed above the low one. */
  ghost predicate RaisedAt(high: int, low: int, samples: seq<int>, i: nat) {
    i < |samples| && samples[i] >= high && forall j :: i < j < |samples| ==> samples[j] > low
  }

  ghost predicate RaisedAndNotCleared(high: int, low: int, samples: seq<int>) {
    exists i :: RaisedAt(high, low, samples, i)
  }

  lemma RaisedBeforeLast(high: int, low: int, samples: seq<int>, i: nat)
    requires i < |samples| - 1
    ensures RaisedAt(high, low, samples, i) <==>
        RaisedAt(high, low, samples[..|samples| - 1], i) && samples[|samples| - 1] > low
  {
    var before := samples[..|samples| - 1];
    assert forall j :: i <= j < |before| ==> before[j] == samples[j];
  }

  /** Hysteresis, after every sample sequence. */
  lemma {:induction false} FlagMeans(high: int, low: int, samples: seq<int>)
    requires low < high
    ensures After(high, low, samples) <==> RaisedAndNotCleared(high, low, samples)
    decreases |samples|
  {
    if samples != [] {
      var n := |samples| - 1;
      FlagMeans(high, low, samples[..n]);
      forall i: nat | i < n
        ensures RaisedAt(high, low, samples, i) <==> RaisedAt(high, low, samples[..n], i) && samples[n] > low
      {
        RaisedBeforeLast(high, low, samples, i);
      }
      assert RaisedAt(high, low, samples, n) <==> samples[n] >= high;
    }
  }

  /** Without low < high the flag is not this: with low == high it toggles on every sample that
      stays there. */
  lemma EqualWatermarksToggle(w: int)
    ensures After(w, w, [w]) && !After(w, w, [w, w]) && RaisedAndNotCleared(w, w - 1, [w, w])
  {
    assert [w][..0] == [] && [w, w][..1] == [w];
    assert RaisedAt(w, w - 1, [w, w], 1);
  }

  /** The watermarks are ordered for a given usable low one, and for the pinned one exactly when the
      product by 3 does not wrap to a negative number or to less than 4. */
  lemma WatermarksAreOrdered(high: int, low: int)
    requires Int64(high) && Int64(low)
    ensures 0 < LowFor(high, low) < high <==>
            0 < low < high || (2 <= high && (high * 3 < TWO63 || high * 3 >= TWO64 + 4))
  {
    if high > 0 && !(0 < low < high) {
      Thirds(high);
    }
  }

  lemma Thirds(high: int)
    requires 0 < high < TWO63
    ensures Wrap(high * 3) == if high * 3 < TWO63 then high * 3 else high * 3 - TWO64
  {
    assert high * 3 < 3 * TWO63;
    if high * 3 < TWO64 {
      assert (high * 3) % TWO64 == high * 3;
    } else {
      assert (high * 3 - TWO64) % TWO64 == high * 3 - TWO64;
      assert (high * 3) % TWO64 == high * 3 - TWO64;
    }
  }

  // ---------- derived watermarks ----------

  datatype Watermarks = Watermarks(high: int, low: int)

  /** 70% of the cgroup limit in whole MiB and 75% of that, in bytes; a zero high one means that no
      monitor is started. */
  function Derived(limit: int): Watermarks {
    var highMB := Quot(Quot(Wrap(limit * 7), 10), MIB);
    var lowMB := Quot(Wrap(highMB * 3), 4);
    Watermarks(Wrap(Wrap(highMB * 1024) * 1024), Wrap(Wrap(lowMB * 1024) * 1024))
  }

  /** For every limit: the watermarks are ordered whenever a monitor is started, and not above the
      limit; one is started exactly when the product by 7, as it wraps, is at least 10 MiB and not
      negative; and the high watermark is 70% of the limit in whole MiB exactly when the product
      does not wrap. */
  lemma DerivedWatermarksAreOrdered(limit: int)
    requires 0 < limit && Int64(limit)
    ensures var w := Derived(limit);
            && (w.high > 0 ==> 0 < LowFor(w.high, w.low) < w.high <= limit)
            && (w.high > 0 <==> 10 * MIB <= limit * 7 % TWO64 < TWO63)
            && (w.high == limit * 7 / 10 / MIB * MIB <==> limit * 7 < TWO63)
  {
    var highMB := Quot(Quot(Wrap(limit * 7), 10), MIB);
    HighIsSmall(Wrap(limit * 7));
    SevenTimes(limit);
    DerivedHigh(limit, highMB);
    if highMB > 0 {
      DerivedUnwrapped(limit, highMB, highMB * 3 / 4);
      WatermarksAreOrdered(highMB * MIB, highMB * 3 / 4 * MIB);
    }
    SeventyPercent(limit, highMB);
  }

  lemma SeventyPercent(limit: int, highMB: int)
    requires 0 < limit && Int64(limit) && highMB == Quot(Quot(Wrap(limit * 7), 10), MIB)
    ensures highMB * MIB == limit * 7 / 10 / MIB * MIB <==> limit * 7 < TWO63
  {
    SevenTimes(limit);
    HighIsSmall(Wrap(limit * 7));
    var n := limit * 7 / 10;
    assert n / MIB * MIB <= n < n / MIB * MIB + MIB;
  }

  lemma HighIsSmall(n: int)
    requires Int64(n)
    ensures var mb := Quot(Quot(n, 10), MIB);
            && Int64(mb * 3) && Int64(mb * MIB) && Int64(mb * MIB * 3)
            && (n >= 0 ==> mb == n / 10 / MIB && 0 <= mb * MIB <= n / 10) && (n < 0 ==> mb <= 0)
            && (mb > 0 <==> n >= 10 * MIB)
  {}

  lemma DerivedUnwrapped(limit: int, highMB: int, lowMB: int)
    requires highMB == Quot(Quot(Wrap(limit * 7), 10), MIB) && lowMB == highMB * 3 / 4
    requires 0 <= highMB && Int64(highMB * 3) && Int64(highMB * MIB)
    ensures Derived(limit) == Watermarks(highMB * MIB, lowMB * MIB)
  {
    assert Quot(Wrap(highMB * 3), 4) == lowMB && 0 <= lowMB <= highMB;
    assert Wrap(Wrap(highMB * 1024) * 1024) == highMB * MIB;
    assert Wrap(Wrap(lowMB * 1024) * 1024) == lowMB * MIB;
  }

  lemma DerivedHigh(limit: int, highMB: int)
    requires highMB == Quot(Quot(Wrap(limit * 7), 10), MIB) && Int64(highMB * MIB)
    ensures Derived(limit).high == highMB * MIB
  {
    assert Wrap(Wrap(highMB * 1024) * 1024) == highMB * MIB;
  }

  /** How often the product by 7 wraps. */
  lemma SevenTimes(limit: int)
    requires 0 < limit < TWO63
    ensures Wrap(limit * 7) == if limit * 7 % TWO64 < TWO63 then limit * 7 % TWO64 else limit * 7 % TWO64 - TWO64
    ensures limit * 7 < TWO63 ==> Wrap(limit * 7) == limit * 7
    ensures limit * 7 >= TWO63 ==> Wrap(limit * 7) <= limit * 7 - TWO64
    ensures Wrap(limit * 7) <= limit * 7
  {}

  lemma NegativeProductStartsNoMonitor(limit: int)
    requires 0 < limit < TWO63 && Wrap(limit * 7) <= -10 * MIB
    ensures Derived(limit).high < 0
  {
    var n := Wrap(limit * 7);
    HighIsSmall(n);
    DerivedHigh(limit, Quot(Quot(n, 10), MIB));
    assert -n / 10 >= MIB;
  }

  /** A limit of two exabytes is such a product: no monitor is started for it. */
  lemma HugeLimitGetsNoMonitor()
    ensures Derived(2_000_000_000_000_000_000).high < 0
  {
    assert Wrap(2_000_000_000_000_000_000 * 7) == 2_000_000_000_000_000_000 * 7 - TWO64;
    NegativeProductStartsNoMonitor(2_000_000_000_000_000_000);
  }
}
