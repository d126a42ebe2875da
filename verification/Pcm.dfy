/**
 Sizes and levels shared by the paced audio writers (hazeReceiver.py:235-240, 1314-1331,
 1813-1831, 2635-2648).  All sizes are byte counts of 16-bit little-endian PCM.
 */
module Pcm {

  type Byte = b: int | 0 <= b < 256

  type Bytes = seq<Byte>

  function Max(a: int, b: int): int {
    if a < b then b else a
  }

  function Min(a: int, b: int): int {
    if a < b then a else b
  }

  // ---------------------------------------------------------------- configuration

  /** The options of the receiver; the sound card side and the WebRTC side have rates of their own. */
  datatype Config = Config(
    outputRate: nat,
    inputRate: nat,
    channels: nat,
    frameMs: int,
    jitterMs: int,
    maxJitterMs: int,
    maxLagMs: int,
    maxActiveUnderrunMs: int,
    chunkSize: int)

  /** The clamps applied to the command line. */
  function Parsed(raw: Config): (c: Config)
    requires 1 <= raw.channels <= 2
    ensures Ready(c)
    ensures Ready(raw) ==> c == raw
  {
    var frameMs := Max(10, Min(100, raw.frameMs));
    var jitterMs := Max(0, raw.jitterMs);
    Config(Max(8000, raw.outputRate), Max(8000, raw.inputRate), raw.channels, frameMs, jitterMs,
           Max(jitterMs + frameMs, raw.maxJitterMs),
           Max(frameMs * 2, raw.maxLagMs),
           Max(frameMs * 2, raw.maxActiveUnderrunMs),
           Max(512, raw.chunkSize))
  }

  predicate Ready(c: Config) {
    && c.outputRate >= 8000 && c.inputRate >= 8000 && 1 <= c.channels <= 2
    && 10 <= c.frameMs <= 100
    && 0 <= c.jitterMs && c.jitterMs + c.frameMs <= c.maxJitterMs
    && 2 * c.frameMs <= c.maxLagMs && 2 * c.frameMs <= c.maxActiveUnderrunMs
    && 512 <= c.chunkSize
  }

  // ---------------------------------------------------------------- sizes

  datatype Sizes = Sizes(sample: nat, frame: nat, target: nat, limit: nat)

  /** What the writers rely on: everything is a whole number of samples, the target holds a
      frame, and the limit leaves room for a frame above the target. */
  predicate Sound(z: Sizes) {
    && 0 < z.sample <= z.frame <= z.target
    && z.target + z.frame <= z.limit
    && z.frame % z.sample == 0 && z.target % z.sample == 0 && z.limit % z.sample == 0
  }

  function RoundDown(n: nat, unit: nat): (r: nat)
    requires unit > 0
    ensures r <= n < r + unit && r % unit == 0
  {
    RemainderOfDifference(n, unit);
    n - n % unit
  }

  lemma RemainderOfDifference(n: nat, unit: nat)
    requires unit > 0
    ensures (n - n % unit) % unit == 0
  {
    MultipleHasNoRemainder(n / unit, unit);
  }

  lemma MultipleHasNoRemainder(k: nat, unit: nat)
    requires unit > 0
    ensures (k * unit) % unit == 0
  {
    if k > 0 {
      MultipleHasNoRemainder(k - 1, unit);
      AddUnit((k - 1) * unit, unit);
    }
  }

  lemma AddUnit(n: nat, unit: nat)
    requires unit > 0
    ensures (n + unit) % unit == n % unit
  {
    var q, r := n / unit, n % unit;
    assert n + unit == (q + 1) * unit + r;
    QuotientIsUnique(n + unit, unit, q + 1, r);
  }

  lemma QuotientIsUnique(n: int, unit: nat, q: int, r: int)
    requires unit > 0 && n == q * unit + r && 0 <= r < unit
    ensures n / unit == q && n % unit == r
  {
    var d := n / unit - q;
    assert d * unit == r - n % unit;
    if d >= 1 {
      AtLeastOneUnit(d, unit);
    } else if d <= -1 {
      AtLeastOneUnit(-d, unit);
    }
  }

  lemma AtLeastOneUnit(k: int, unit: nat)
    requires k >= 1
    ensures unit <= k * unit
  {
    assert k * unit == (k - 1) * unit + unit;
  }

  /** Whole numbers of samples add and subtract. */
  lemma WholeSamplesAdd(a: nat, b: nat, unit: nat)
    requires unit > 0 && a % unit == 0 && b % unit == 0
    ensures (a + b) % unit == 0
    ensures a >= b ==> (a - b) % unit == 0
  {
    assert a + b == (a / unit + b / unit) * unit;
    assert a - b == (a / unit - b / unit) * unit;
    QuotientIsUnique(a + b, unit, a / unit + b / unit, 0);
    QuotientIsUnique(a - b, unit, a / unit - b / unit, 0);
  }

  /** A multiple below `n` is below the rounded `n`. */
  lemma RoundDownKeepsMultiples(m: nat, n: nat, unit: nat)
    requires unit > 0 && m % unit == 0 && m <= n
    ensures m <= RoundDown(n, unit)
  {
    var r := RoundDown(n, unit);
    if r < m {
      QuotientIsUnique(m - r, unit, 0, m - r);
      WholeSamplesAdd(m, r, unit);
    }
  }

  function FrameMs(c: Config): (ms: int)
    ensures 10 <= ms <= 100
  {
    Max(10, Min(100, c.frameMs))
  }

  function SampleBytes(c: Config): nat {
    c.channels * 2
  }

  function RawFrame(c: Config): nat
    requires c.channels > 0
  {
    RoundDown(Max(SampleBytes(c), (c.outputRate * SampleBytes(c) * FrameMs(c)) / 1000), SampleBytes(c))
  }

  function HandoffFrame(c: Config): nat {
    Max(1, c.inputRate * FrameMs(c) / 1000) * SampleBytes(c)
  }

  function RawSizes(c: Config): Sizes
    requires c.channels > 0
  {
    BufferSizes(c, c.outputRate, RawFrame(c))
  }

  function HandoffSizes(c: Config): Sizes
    requires c.channels > 0
  {
    BufferSizes(c, c.inputRate, HandoffFrame(c))
  }

  /** Both thresholds are computed before either is rounded. */
  function BufferSizes(c: Config, rate: nat, frame: nat): Sizes
    requires c.channels > 0
  {
    var sample := SampleBytes(c);
    var byteRate := rate * sample;
    var target := Max(frame, byteRate * Max(0, c.jitterMs) / 1000);
    var limit := Max(target + frame, byteRate * Max(c.maxJitterMs, c.jitterMs) / 1000);
    Sizes(sample, frame, RoundDown(target, sample), RoundDown(limit, sample))
  }

  lemma BufferSizesAreSound(c: Config, rate: nat, frame: nat)
    requires c.channels > 0 && SampleBytes(c) <= frame && frame % SampleBytes(c) == 0
    ensures Sound(BufferSizes(c, rate, frame))
  {
    var sample := SampleBytes(c);
    var byteRate := rate * sample;
    var target := Max(frame, byteRate * Max(0, c.jitterMs) / 1000);
    var limit := Max(target + frame, byteRate * Max(c.maxJitterMs, c.jitterMs) / 1000);
    RoundDownKeepsMultiples(frame, target, sample);
    WholeSamplesAdd(RoundDown(target, sample), frame, sample);
    RoundDownKeepsMultiples(RoundDown(target, sample) + frame, limit, sample);
  }

  lemma FloorOfMultiple(n: nat, unit: nat)
    requires unit > 0
    ensures RoundDown((n * unit) / 1000, unit) == (n / 1000) * unit
  {
    var q, r := n / 1000, n % 1000;
    assert n * unit == (q * unit) * 1000 + r * unit;
    var f := (n * unit) / 1000;
    assert q * unit <= f;
    assert f < (q + 1) * unit by {
      assert r * unit < 1000 * unit;
      assert n * unit < (q * unit + unit) * 1000;
    }
    QuotientIsUnique(f, unit, q, f - q * unit);
  }

  lemma Reorder(a: nat, b: nat, c: int)
    ensures a * b * c == a * c * b
  {
    assert a * b * c == a * (b * c) == a * (c * b) == a * c * b;
  }

  lemma FrameOfSamples(n: nat, unit: nat)
    requires unit > 0
    ensures RoundDown(Max(unit, (n * unit) / 1000), unit) == Max(1, n / 1000) * unit
  {
    FloorOfMultiple(n, unit);
    var q := n / 1000;
    var f := (n * unit) / 1000;
    if q >= 1 {
      AtLeastOneUnit(q, unit);
    } else {
      assert f < unit;
      MultipleHasNoRemainder(1, unit);
    }
  }

  // ---------------------------------------------------------------- sizes in samples

  /** Sizes counted in samples. */
  datatype Counts = Counts(frame: nat, target: nat, limit: nat)

  /** What a writer would use if it counted samples from the start. */
  function SampleCounts(c: Config, rate: nat): Counts {
    var frame := Max(1, rate * FrameMs(c) / 1000);
    var target := Max(frame, rate * Max(0, c.jitterMs) / 1000);
    Counts(frame, target, Max(target + frame, rate * Max(c.maxJitterMs, c.jitterMs) / 1000))
  }

  function InBytes(n: Counts, sample: nat): Sizes {
    Sizes(sample, n.frame * sample, n.target * sample, n.limit * sample)
  }

  lemma MultipleIsRounded(k: nat, unit: nat)
    requires unit > 0
    ensures RoundDown(k * unit, unit) == k * unit
  {
    MultipleHasNoRemainder(k, unit);
  }

  lemma RoundDownOfMax(a: nat, b: nat, unit: nat)
    requires unit > 0
    ensures RoundDown(Max(a, b), unit) == Max(RoundDown(a, unit), RoundDown(b, unit))
  {
    if a <= b {
      RoundDownKeepsMultiples(RoundDown(a, unit), b, unit);
    } else {
      RoundDownKeepsMultiples(RoundDown(b, unit), a, unit);
    }
  }

  lemma RoundDownOfShift(a: nat, k: nat, unit: nat)
    requires unit > 0
    ensures RoundDown(a + k * unit, unit) == RoundDown(a, unit) + k * unit
  {
    MultipleHasNoRemainder(k, unit);
    WholeSamplesAdd(RoundDown(a, unit), k * unit, unit);
    var r := RoundDown(a, unit) + k * unit;
    RoundDownKeepsMultiples(r, a + k * unit, unit);
    if RoundDown(a + k * unit, unit) > r {
      WholeSamplesAdd(RoundDown(a + k * unit, unit), r, unit);
      QuotientIsUnique(RoundDown(a + k * unit, unit) - r, unit, 0, RoundDown(a + k * unit, unit) - r);
    }
  }

  lemma MaxOfMultiples(a: int, b: int, unit: nat)
    ensures Max(a, b) * unit == Max(a * unit, b * unit)
  {
    if a < b {
      assert (b - a) * unit >= 0;
    } else {
      assert (a - b) * unit >= 0;
    }
  }

  /** The larger of a whole number of samples and a share of the byte rate. */
  lemma RoundedShare(k: nat, n: nat, unit: nat)
    requires unit > 0
    ensures RoundDown(Max(k * unit, (n * unit) / 1000), unit) == Max(k, n / 1000) * unit
  {
    RoundDownOfMax(k * unit, (n * unit) / 1000, unit);
    MultipleIsRounded(k, unit);
    FloorOfMultiple(n, unit);
    MaxOfMultiples(k, n / 1000, unit);
  }

  lemma RoundedLimit(frame: nat, target: nat, n: int, share: int, unit: nat)
    requires unit > 0 && share == (n * unit) / 1000
    ensures RoundDown(Max(target + frame * unit, share), unit)
            == Max(RoundDown(target, unit) + frame * unit, (n / 1000) * unit)
  {
    RoundDownOfShift(target, frame, unit);
    if n >= 0 {
      assert n * unit >= 0;
      FloorOfMultiple(n, unit);
      RoundDownOfMax(target + frame * unit, share, unit);
    } else {
      assert n * unit <= 0;
      assert (n / 1000) * unit <= 0;
    }
  }

  lemma TargetInSamples(frame: nat, rate: nat, sample: nat, ms: nat)
    requires sample > 0
    ensures RoundDown(Max(frame * sample, rate * sample * ms / 1000), sample) == Max(frame, rate * ms / 1000) * sample
  {
    Reorder(rate, sample, ms);
    RoundedShare(frame, rate * ms, sample);
  }

  lemma LimitInSamples(frame: nat, targetBytes: nat, target: nat, rate: nat, sample: nat, ms: int)
    requires sample > 0 && RoundDown(targetBytes, sample) == target * sample
    ensures RoundDown(Max(targetBytes + frame * sample, rate * sample * ms / 1000), sample)
            == Max(target + frame, rate * ms / 1000) * sample
  {
    Reorder(rate, sample, ms);
    RoundedLimit(frame, targetBytes, rate * ms, rate * sample * ms / 1000, sample);
    MaxOfMultiples(target + frame, rate * ms / 1000, sample);
    assert (target + frame) * sample == target * sample + frame * sample;
  }

  /** Rounding bytes down at the end loses nothing that rounding samples down would keep: the
      sizes are those of a writer that counts samples. */
  lemma SizesInSamples(c: Config, rate: nat)
    requires c.channels > 0
    ensures BufferSizes(c, rate, SampleCounts(c, rate).frame * SampleBytes(c)) == InBytes(SampleCounts(c, rate), SampleBytes(c))
  {
    var sample, n := SampleBytes(c), SampleCounts(c, rate);
    var jitter, most := Max(0, c.jitterMs), Max(c.maxJitterMs, c.jitterMs);
    var target := Max(n.frame * sample, rate * sample * jitter / 1000);
    TargetInSamples(n.frame, rate, sample, jitter);
    LimitInSamples(n.frame, target, n.target, rate, sample, most);
    hide RoundDown, FrameMs, Max;
  }

  lemma FramesInSamples(c: Config)
    requires c.channels > 0
    ensures RawFrame(c) == SampleCounts(c, c.outputRate).frame * SampleBytes(c)
    ensures HandoffFrame(c) == SampleCounts(c, c.inputRate).frame * SampleBytes(c)
  {
    Reorder(c.outputRate, SampleBytes(c), FrameMs(c));
    FrameOfSamples(c.outputRate * FrameMs(c), SampleBytes(c));
  }

  lemma CountsInBytes(a: Counts, b: Counts, unit: nat)
    requires unit > 0
    ensures InBytes(a, unit) == InBytes(b, unit) <==> a == b
  {
    MultipleIsOnce(a.frame, b.frame, unit);
    MultipleIsOnce(a.target, b.target, unit);
    MultipleIsOnce(a.limit, b.limit, unit);
  }

  lemma MultipleIsOnce(a: nat, b: nat, unit: nat)
    requires unit > 0
    ensures a * unit == b * unit <==> a == b
  {
    if a * unit == b * unit {
      QuotientIsUnique(a * unit, unit, a, 0);
      QuotientIsUnique(a * unit, unit, b, 0);
    }
  }

  /** For every configuration each writer gets sound sizes at its own rate. */
  lemma SizesAreSound(c: Config)
    requires c.channels > 0
    ensures Sound(RawSizes(c)) && Sound(HandoffSizes(c))
  {
    FramesInSamples(c);
    var sample := SampleBytes(c);
    FrameIsWhole(SampleCounts(c, c.outputRate).frame, sample);
    FrameIsWhole(SampleCounts(c, c.inputRate).frame, sample);
    BufferSizesAreSound(c, c.outputRate, RawFrame(c));
    BufferSizesAreSound(c, c.inputRate, HandoffFrame(c));
  }

  lemma FrameIsWhole(k: nat, unit: nat)
    requires k >= 1 && unit > 0
    ensures (k * unit) % unit == 0 && unit <= k * unit
  {
    MultipleHasNoRemainder(k, unit);
    AtLeastOneUnit(k, unit);
  }

  /** The two writers compute alike, one from bytes and one from samples: their sizes are equal
      exactly when the two rates give the same whole numbers of samples, as equal rates do. */
  lemma SizesAreEqualIff(c: Config)
    requires c.channels > 0
    ensures RawSizes(c) == HandoffSizes(c) <==> SampleCounts(c, c.outputRate) == SampleCounts(c, c.inputRate)
  {
    FramesInSamples(c);
    SizesInSamples(c, c.outputRate);
    SizesInSamples(c, c.inputRate);
    CountsInBytes(SampleCounts(c, c.outputRate), SampleCounts(c, c.inputRate), SampleBytes(c));
  }

  /** The whole samples of so many milliseconds. */
  predicate Lasts(samples: nat, rate: nat, ms: int) {
    samples * 1000 <= rate * ms < (samples + 1) * 1000
  }

  /** The sizes are the durations that were asked for, in whole samples of two bytes a channel: a
      frame, a target of at least a frame, a limit of at least a frame more. */
  predicate SizesLast(z: Sizes, c: Config, rate: nat, frame: nat, jitter: nat, most: nat) {
    && Lasts(frame, rate, c.frameMs) && Lasts(jitter, rate, c.jitterMs) && Lasts(most, rate, c.maxJitterMs)
    && z.sample == 2 * c.channels && z.frame == frame * z.sample
    && z.target == (if jitter < frame then frame else jitter) * z.sample
    && z.limit == if most * z.sample < z.target + z.frame then z.target + z.frame else most * z.sample
  }

  lemma FloorLasts(n: nat, rate: nat, ms: nat)
    requires n == rate * ms / 1000
    ensures Lasts(n, rate, ms)
  {
  }

  lemma NotNegative(rate: nat, ms: int)
    requires ms >= 0
    ensures rate * ms >= 0
  {
  }

  lemma FrameHasSamples(rate: nat, ms: int)
    requires rate >= 8000 && ms >= 10
    ensures rate * ms / 1000 >= 1
  {
    assert rate * ms == (rate - 8000) * ms + 8000 * ms;
    NotNegative(rate - 8000, ms);
  }

  lemma CountsAre(c: Config, rate: nat) returns (frame: nat, jitter: nat, most: nat)
    requires Ready(c) && rate >= 8000
    ensures Lasts(frame, rate, c.frameMs) && Lasts(jitter, rate, c.jitterMs) && Lasts(most, rate, c.maxJitterMs)
    ensures var n := SampleCounts(c, rate);
            n.frame == frame && n.target == Max(frame, jitter) && n.limit == Max(n.target + frame, most)
  {
    FrameHasSamples(rate, c.frameMs);
    NotNegative(rate, c.jitterMs);
    NotNegative(rate, c.maxJitterMs);
    frame, jitter, most := rate * c.frameMs / 1000, rate * c.jitterMs / 1000, rate * c.maxJitterMs / 1000;
    FloorLasts(frame, rate, c.frameMs);
    FloorLasts(jitter, rate, c.jitterMs);
    FloorLasts(most, rate, c.maxJitterMs);
    hide Lasts;
  }

  lemma CountsLast(c: Config, rate: nat) returns (frame: nat, jitter: nat, most: nat)
    requires Ready(c) && rate >= 8000
    ensures SizesLast(InBytes(SampleCounts(c, rate), SampleBytes(c)), c, rate, frame, jitter, most)
  {
    frame, jitter, most := CountsAre(c, rate);
    var sample, n := SampleBytes(c), SampleCounts(c, rate);
    hide Lasts, SampleCounts, Ready;
    assert (n.target + frame) * sample == n.target * sample + frame * sample;
    MaxOfMultiples(n.target + frame, most, sample);
  }

  /** Every parsed configuration gives each writer, at its own rate, the durations it asks for. */
  lemma WritersGetTheirDurations(c: Config)
    returns (raw: (nat, nat, nat), handoff: (nat, nat, nat))
    requires Ready(c)
    ensures SizesLast(RawSizes(c), c, c.outputRate, raw.0, raw.1, raw.2)
    ensures SizesLast(HandoffSizes(c), c, c.inputRate, handoff.0, handoff.1, handoff.2)
  {
    FramesInSamples(c);
    SizesInSamples(c, c.outputRate);
    SizesInSamples(c, c.inputRate);
    var f, j, m := CountsLast(c, c.outputRate);
    raw := (f, j, m);
    f, j, m := CountsLast(c, c.inputRate);
    handoff := (f, j, m);
  }

  /** An option out of range becomes the nearest one in range. */
  predicate IsNearest(given: int, taken: int, least: int) {
    taken == given || (given < least && taken == least)
  }

  lemma OptionsAreClamped(raw: Config)
    requires 1 <= raw.channels <= 2
    ensures var c := Parsed(raw);
            && c.channels == raw.channels
            && IsNearest(raw.outputRate, c.outputRate, 8000) && IsNearest(raw.inputRate, c.inputRate, 8000)
            && (IsNearest(raw.frameMs, c.frameMs, 10) || (raw.frameMs > 100 && c.frameMs == 100))
            && IsNearest(raw.jitterMs, c.jitterMs, 0)
            && IsNearest(raw.maxJitterMs, c.maxJitterMs, c.jitterMs + c.frameMs)
            && IsNearest(raw.maxLagMs, c.maxLagMs, 2 * c.frameMs)
            && IsNearest(raw.maxActiveUnderrunMs, c.maxActiveUnderrunMs, 2 * c.frameMs)
            && IsNearest(raw.chunkSize, c.chunkSize, 512)
  {
  }

  // ---------------------------------------------------------------- level

  function Sample(data: Bytes, k: nat): (v: int)
    requires 2 * k + 1 < |data|
    ensures -32768 <= v < 32768
  {
    var u := (data[2 * k] as int) + 256 * (data[2 * k + 1] as int);
    if u >= 32768 then u - 65536 else u
  }

  function Abs(v: int): nat {
    if v < 0 then -v else v
  }

  /** The largest magnitude among the complete samples of `data`, 0 when there is none. */
  function Peak(data: Bytes): (p: nat)
    ensures forall k | 0 <= k < |data| / 2 :: Abs(Sample(data, k)) <= p
    ensures p == 0 || exists k :: 0 <= k < |data| / 2 && Abs(Sample(data, k)) == p
  {
    PeakOfFirst(data, |data| / 2)
  }

  function PeakOfFirst(data: Bytes, n: nat): (p: nat)
    requires 2 * n <= |data|
    ensures forall k | 0 <= k < n :: Abs(Sample(data, k)) <= p
    ensures p == 0 || exists k :: 0 <= k < n && Abs(Sample(data, k)) == p
  {
    if n == 0 then 0 else Max(PeakOfFirst(data, n - 1), Abs(Sample(data, n - 1)))
  }

  /** Audio counts as active above this level. */
  const QUIET_PEAK := 96

  predicate Active(frame: Bytes) {
    Peak(frame) > QUIET_PEAK
  }

  /** The two bytes of a number, in two's complement, the low one first. */
  function LittleEndian(v: int): Bytes
    requires -32768 <= v < 32768
  {
    [v % 256, (v / 256) % 256]
  }

  /** A sample is what its two bytes stand for. */
  lemma SampleIsDecoded(data: Bytes, k: nat, v: int)
    requires 2 * k + 1 < |data| && -32768 <= v < 32768
    ensures Sample(data, k) == v <==> data[2 * k..2 * k + 2] == LittleEndian(v)
  {
    var low, high := data[2 * k], data[2 * k + 1];
    assert data[2 * k..2 * k + 2] == [low, high];
    assert v == 256 * (v / 256) + v % 256;
  }

  /** Audio is active exactly if one of its complete samples is louder than 96 either way. */
  lemma ActiveIff(frame: Bytes)
    ensures Active(frame) <==>
            exists k :: 0 <= k < |frame| / 2 && (Sample(frame, k) > 96 || Sample(frame, k) < -96)
  {
    var p := Peak(frame);
    hide Peak, Sample;
    if p > 96 {
      var k :| 0 <= k < |frame| / 2 && Abs(Sample(frame, k)) == p;
    }
  }

  function Zeros(n: nat): Bytes {
    seq(n, _ => 0)
  }
}
