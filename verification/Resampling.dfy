/** The call's stream transformers: linear resampling to 48 kHz, over the reals. */
module Resampling {
  type Sample = x: int | -32768 <= x <= 32767

  const OUT_RATE: nat := 48000
  const EPSILON: real := 1.0 / 4503599627370496.0

  /** Conversion to an integer drops the fraction. */
  function Trunc(x: real): int {
    if x >= 0.0 then x.Floor else -((-x).Floor)
  }

  function Weigh(last: real, sample: real, phase: real): real {
    last * (1.0 - phase) + sample * phase
  }

  function Mix(last: Sample, sample: Sample, phase: real): int {
    Trunc(Weigh(last as real, sample as real, phase))
  }

  lemma Scaled(d: real, phase: real)
    requires d >= 0.0 && 0.0 <= phase <= 1.0
    ensures 0.0 <= d * phase <= d
  {
    assert d - d * phase == d * (1.0 - phase);
  }

  lemma Rises(last: real, sample: real, phase: real)
    requires last <= sample && 0.0 <= phase <= 1.0
    ensures last <= Weigh(last, sample, phase) <= sample
  {
    var step := (sample - last) * phase;
    Scaled(sample - last, phase);
    assert Weigh(last, sample, phase) == last + step;
  }

  lemma Falls(last: real, sample: real, phase: real)
    requires sample <= last && 0.0 <= phase <= 1.0
    ensures sample <= Weigh(last, sample, phase) <= last
  {
    var step := (last - sample) * phase;
    Scaled(last - sample, phase);
    assert Weigh(last, sample, phase) == last - step;
  }

  lemma TruncBetween(x: real, lo: int, hi: int)
    requires lo as real <= x <= hi as real
    ensures lo <= Trunc(x) <= hi
  {
  }

  /** A mixed sample lies between the two it mixes. */
  lemma MixBetween(last: Sample, sample: Sample, phase: real)
    requires 0.0 <= phase <= 1.0
    ensures last <= sample ==> last <= Mix(last, sample, phase) <= sample
    ensures sample <= last ==> sample <= Mix(last, sample, phase) <= last
  {
    if last <= sample {
      Rises(last as real, sample as real, phase);
      TruncBetween(Weigh(last as real, sample as real, phase), last, sample);
    } else {
      Falls(last as real, sample as real, phase);
      TruncBetween(Weigh(last as real, sample as real, phase), sample, last);
    }
  }

  // -- The resampled stream, said without any state --------------------------------------

  /** Where output tick k falls, in units of a 48000th of an input interval. */
  function Pos(rate: nat, k: nat): nat {
    if k == 0 then 0 else Pos(rate, k - 1) + rate
  }

  lemma {:induction false} PosIs(rate: nat, k: nat)
    ensures Pos(rate, k) == k * rate
  {
    if k > 0 {
      PosIs(rate, k - 1);
      assert k * rate == (k - 1) * rate + rate;
    }
  }

  lemma {:induction false} PosGrows(rate: nat, j: nat, k: nat)
    requires j <= k
    ensures Pos(rate, j) <= Pos(rate, k)
  {
    if j < k {
      PosGrows(rate, j, k - 1);
    }
  }

  /** The first tick, from `k` on, at or past a position. */
  function FirstPast(rate: nat, end: nat, k: nat): (r: nat)
    requires rate > 0 && (k > 0 ==> Pos(rate, k - 1) < end)
    ensures Pos(rate, r) >= end && (r > 0 ==> Pos(rate, r - 1) < end)
    decreases end + rate - Pos(rate, k)
  {
    if Pos(rate, k) >= end then k else FirstPast(rate, end, k + 1)
  }

  /** How many output ticks fall before the first `n` inputs end. */
  function Ticks(rate: nat, n: nat): (r: nat)
    requires rate > 0
    ensures Pos(rate, r) >= OUT_RATE * n && (r > 0 ==> Pos(rate, r - 1) < OUT_RATE * n)
  {
    FirstPast(rate, OUT_RATE * n, 0)
  }

  /** The input an output tick falls before, and how far into its interval. */
  function At(rate: nat, k: nat): nat {
    Pos(rate, k) / OUT_RATE
  }

  function PhaseAt(rate: nat, k: nat): real {
    (Pos(rate, k) % OUT_RATE) as real / 48000.0
  }

  function Tick(rate: nat, stream: seq<Sample>, k: nat): Sample
    requires At(rate, k) < |stream|
  {
    var n := At(rate, k);
    var last := if n == 0 then 0 else stream[n - 1];
    MixBetween(last, stream[n], PhaseAt(rate, k));
    Mix(last, stream[n], PhaseAt(rate, k))
  }

  lemma TicksLeast(rate: nat, n: nat, k: nat)
    requires rate > 0
    ensures k < Ticks(rate, n) <==> Pos(rate, k) < OUT_RATE * n
  {
    var t := Ticks(rate, n);
    if k < t {
      PosGrows(rate, k, t - 1);
    } else {
      PosGrows(rate, t, k);
    }
  }

  lemma TicksIs(rate: nat, n: nat, k: nat)
    requires rate > 0 && Pos(rate, k) >= OUT_RATE * n && (k > 0 ==> Pos(rate, k - 1) < OUT_RATE * n)
    ensures k == Ticks(rate, n)
  {
    TicksLeast(rate, n, k);
    if k > 0 {
      TicksLeast(rate, n, k - 1);
    }
  }

  lemma TickInside(rate: nat, n: nat, k: nat)
    requires rate > 0 && k < Ticks(rate, n)
    ensures At(rate, k) < n
  {
    TicksLeast(rate, n, k);
  }

  /** The first `t` output ticks. */
  function FirstTicks(rate: nat, stream: seq<Sample>, t: nat): (r: seq<Sample>)
    requires rate > 0 && t <= Ticks(rate, |stream|)
    ensures |r| == t
  {
    if t == 0 then []
    else
      TickInside(rate, |stream|, t - 1);
      FirstTicks(rate, stream, t - 1) + [Tick(rate, stream, t - 1)]
  }

  /** The whole resampled stream. A 48 kHz stream is passed through as it is. */
  function Resampled(rate: nat, stream: seq<Sample>): seq<Sample>
    requires rate > 0
  {
    if rate == OUT_RATE then stream else FirstTicks(rate, stream, Ticks(rate, |stream|))
  }

  lemma ResampledEmpty(rate: nat)
    requires rate > 0
    ensures Resampled(rate, []) == []
  {
    TicksIs(rate, 0, 0);
  }

  lemma TicksGrow(rate: nat, n: nat, m: nat)
    requires rate > 0 && n <= m
    ensures Ticks(rate, n) <= Ticks(rate, m)
  {
    TicksLeast(rate, n, Ticks(rate, m));
  }

  lemma TickSame(rate: nat, stream: seq<Sample>, total: seq<Sample>, k: nat)
    requires stream <= total && At(rate, k) < |stream|
    ensures Tick(rate, stream, k) == Tick(rate, total, k)
  {
  }

  /** What has been emitted never depends on what comes later. */
  lemma {:induction false} FirstTicksSame(rate: nat, stream: seq<Sample>, total: seq<Sample>, t: nat)
    requires rate > 0 && stream <= total && t <= Ticks(rate, |stream|) <= Ticks(rate, |total|)
    ensures FirstTicks(rate, stream, t) == FirstTicks(rate, total, t)
  {
    if t > 0 {
      TickInside(rate, |stream|, t - 1);
      TickSame(rate, stream, total, t - 1);
      FirstTicksSame(rate, stream, total, t - 1);
    }
  }

  lemma {:induction false} FirstTicksAt(rate: nat, stream: seq<Sample>, t: nat, k: nat)
    requires rate > 0 && k < t <= Ticks(rate, |stream|)
    ensures At(rate, k) < |stream| && FirstTicks(rate, stream, t)[k] == Tick(rate, stream, k)
  {
    TickInside(rate, |stream|, k);
    if k < t - 1 {
      FirstTicksAt(rate, stream, t - 1, k);
    }
  }

  /** After n inputs exactly ceil(n * 48000 / rate) samples are out. */
  lemma ResampledCount(rate: nat, stream: seq<Sample>)
    requires rate > 0 && rate != OUT_RATE
    ensures OUT_RATE * |stream| <= |Resampled(rate, stream)| * rate
    ensures |Resampled(rate, stream)| > 0 ==> (|Resampled(rate, stream)| - 1) * rate < OUT_RATE * |stream|
  {
    var t := Ticks(rate, |stream|);
    PosIs(rate, t);
    if t > 0 {
      PosIs(rate, t - 1);
    }
  }

  predicate Between(x: int, a: int, b: int) {
    a <= x <= b || b <= x <= a
  }

  lemma TickBetween(rate: nat, stream: seq<Sample>, k: nat)
    requires At(rate, k) < |stream|
    ensures Between(Tick(rate, stream, k), if At(rate, k) == 0 then 0 else stream[At(rate, k) - 1], stream[At(rate, k)])
  {
    MixBetween(if At(rate, k) == 0 then 0 else stream[At(rate, k) - 1], stream[At(rate, k)], PhaseAt(rate, k));
  }

  /** Each of them lies between the input it comes before and the one before that. */
  lemma ResampledBetween(rate: nat, stream: seq<Sample>, k: nat)
    requires rate > 0 && rate != OUT_RATE && k < |Resampled(rate, stream)|
    ensures At(rate, k) < |stream|
    ensures Between(Resampled(rate, stream)[k], if At(rate, k) == 0 then 0 else stream[At(rate, k) - 1], stream[At(rate, k)])
  {
    FirstTicksAt(rate, stream, Ticks(rate, |stream|), k);
    TickBetween(rate, stream, k);
  }

  // -- Each sample in integers -------------------------------------------------------------

  /** `q` is `a / b` with the fraction dropped. */
  predicate TowardZero(a: int, b: nat, q: int) {
    && (a >= 0 ==> 0 <= q * b <= a < q * b + b)
    && (a <= 0 ==> q * b - b < a <= q * b <= 0)
  }

  lemma {:induction false} RealProduct(a: nat, b: int)
    ensures (a * b) as real == a as real * b as real
  {
    if a > 0 {
      RealProduct(a - 1, b);
      assert a * b == (a - 1) * b + b;
    }
  }

  lemma WeighInParts(last: int, sample: int, f: nat)
    requires f < OUT_RATE
    ensures Weigh(last as real, sample as real, f as real / 48000.0) * 48000.0 == ((OUT_RATE - f) * last + f * sample) as real
  {
    RealProduct(OUT_RATE - f, last);
    RealProduct(f, sample);
    var x, y, phase := last as real, sample as real, f as real / 48000.0;
    assert x * (1.0 - phase) * 48000.0 == x * (48000.0 - f as real);
    assert y * phase * 48000.0 == y * f as real;
  }

  lemma TruncDrops(x: real, a: int)
    requires x * 48000.0 == a as real
    ensures TowardZero(a, OUT_RATE, Trunc(x))
  {
  }

  /** Output k mixes the input its tick falls before with the one before that, in proportion to where between them
      it falls, dropping the fraction; at 48 kHz the stream is passed through. */
  lemma ResampledAt(rate: nat, stream: seq<Sample>, k: nat)
    requires rate > 0 && k < |Resampled(rate, stream)|
    ensures rate == 48000 ==> Resampled(rate, stream) == stream
    ensures rate != 48000 ==>
      var n, f := k * rate / 48000, k * rate % 48000;
      && n < |stream|
      && var before := if n == 0 then 0 else stream[n - 1];
         TowardZero((48000 - f) * before + f * stream[n], 48000, Resampled(rate, stream)[k])
  {
    if rate != OUT_RATE {
      FirstTicksAt(rate, stream, Ticks(rate, |stream|), k);
      PosIs(rate, k);
      var n, f := At(rate, k), Pos(rate, k) % OUT_RATE;
      var before := if n == 0 then 0 else stream[n - 1];
      WeighInParts(before, stream[n], f);
      TruncDrops(Weigh(before as real, stream[n] as real, PhaseAt(rate, k)), (OUT_RATE - f) * before + f * stream[n]);
    }
  }

  /** A tick that falls exactly where an input starts emits the input before it. */
  lemma ResampledOnBoundary(rate: nat, stream: seq<Sample>, k: nat)
    requires rate > 0 && rate != 48000 && k < |Resampled(rate, stream)| && k * rate % 48000 == 0
    ensures k * rate / 48000 <= |stream|
    ensures Resampled(rate, stream)[k] == if k * rate / 48000 == 0 then 0 else stream[k * rate / 48000 - 1]
  {
    ResampledAt(rate, stream, k);
  }

  /** How far tick k falls past input n, in input intervals. */
  function Offset(rate: nat, n: nat, k: nat): real {
    (Pos(rate, k) - OUT_RATE * n) as real / 48000.0
  }

  lemma OffsetBelow(rate: nat, n: nat, k: nat)
    requires rate > 0
    ensures Offset(rate, n, k) < 1.0 <==> k < Ticks(rate, n + 1)
  {
    TicksLeast(rate, n + 1, k);
  }

  lemma OffsetNext(rate: nat, n: nat, k: nat)
    ensures Offset(rate, n, k) + rate as real / 48000.0 == Offset(rate, n, k + 1)
  {
  }

  lemma OffsetLater(rate: nat, n: nat, k: nat)
    ensures Offset(rate, n, k) - 1.0 == Offset(rate, n + 1, k)
  {
  }

  lemma TickHere(rate: nat, n: nat, k: nat)
    requires rate > 0 && Ticks(rate, n) <= k < Ticks(rate, n + 1)
    ensures At(rate, k) == n && PhaseAt(rate, k) == Offset(rate, n, k) && 0.0 <= Offset(rate, n, k) < 1.0
  {
    TicksLeast(rate, n, k);
    TicksLeast(rate, n + 1, k);
  }

  // -- The machine ---------------------------------------------------------------------------

  class Resampler {
    const rate: nat
    const step: real
    var phase: real
    var last: Sample

    /** Everything pushed so far. */
    ghost var fed: seq<Sample>

    ghost predicate Valid()
      reads this
    {
      && rate > 0 && step == rate as real / 48000.0
      && (rate != OUT_RATE ==>
            && phase == Offset(rate, |fed|, Ticks(rate, |fed|))
            && last == Previous(fed, |fed|))
    }

    constructor (rate: nat)
      requires rate > 0
      ensures Valid() && fed == [] && this.rate == rate
    {
      this.rate, step, phase, last, fed := rate, rate as real / 48000.0, 0.0, 0, [];
      TicksIs(rate, 0, 0);
    }

    /** However the stream is split into pushes, the outputs concatenate to one resampled stream. */
    method Push(input: seq<Sample>) returns (output: seq<Sample>)
      requires Valid()
      modifies this
      ensures Valid() && fed == old(fed) + input
      ensures Resampled(rate, fed) == Resampled(rate, old(fed)) + output
    {
      ghost var total := fed + input;
      if -EPSILON < step - 1.0 < EPSILON {
        assert rate == OUT_RATE;
        if input != [] {
          last := input[|input| - 1];
        }
        fed := total;
        return input;
      }
      assert rate != OUT_RATE;
      TicksGrow(rate, |fed|, |total|);
      FirstTicksSame(rate, fed, total, Ticks(rate, |fed|));
      output, phase, last := TicksOver(rate, step, phase, last, input, total, Resampled(rate, fed));
      fed := total;
    }
  }

  function Previous(stream: seq<Sample>, n: nat): Sample
    requires n <= |stream|
  {
    if n == 0 then 0 else stream[n - 1]
  }

  /** Where the machine stands after n inputs of a stream, and what it has sent by then. */
  ghost predicate Stands(rate: nat, total: seq<Sample>, n: nat, phase: real, last: Sample, sent: seq<Sample>)
    requires rate > 0
  {
    && n <= |total| && last == Previous(total, n) && phase == Offset(rate, n, Ticks(rate, n))
    && Ticks(rate, n) <= Ticks(rate, |total|) && sent == FirstTicks(rate, total, Ticks(rate, n))
  }

  /** Every output tick that lands before the end of this input. */
  method TicksOver(rate: nat, step: real, start: real, first: Sample, input: seq<Sample>, ghost total: seq<Sample>, ghost sent: seq<Sample>)
    returns (output: seq<Sample>, phase: real, last: Sample)
    requires rate > 0 && step == rate as real / 48000.0 && |input| <= |total| && input == total[|total| - |input|..]
    requires Stands(rate, total, |total| - |input|, start, first, sent)
    ensures Stands(rate, total, |total|, phase, last, sent + output)
  {
    output, phase, last := [], start, first;
    ghost var base := |total| - |input|;
    assert sent + [] == sent;
    for i := 0 to |input|
      invariant Stands(rate, total, base + i, phase, last, sent + output)
    {
      var emitted;
      emitted, phase := OneInput(rate, step, phase, last, input[i], base + i, total, sent + output);
      last := input[i];
      assert (sent + output) + emitted == sent + (output + emitted);
      output := output + emitted;
    }
  }

  /** One input sample takes the machine from where it stands to the next interval. */
  method OneInput(rate: nat, step: real, start: real, last: Sample, sample: Sample, ghost n: nat, ghost total: seq<Sample>, ghost sent: seq<Sample>)
    returns (output: seq<Sample>, phase: real)
    requires rate > 0 && step == rate as real / 48000.0 && n < |total| && total[n] == sample
    requires Stands(rate, total, n, start, last, sent)
    ensures Stands(rate, total, n + 1, phase, sample, sent + output)
  {
    TicksGrow(rate, n, n + 1);
    TicksGrow(rate, n + 1, |total|);
    var end;
    output, end := TicksBefore(rate, step, start, last, sample, n, total, sent);
    OffsetLater(rate, n, Ticks(rate, n + 1));
    phase := end - 1.0;
  }

  /** Every output tick that lands before one input sample, and the phase they end at. */
  method TicksBefore(rate: nat, step: real, start: real, last: Sample, sample: Sample, ghost n: nat, ghost total: seq<Sample>, ghost sent: seq<Sample>)
    returns (output: seq<Sample>, phase: real)
    requires rate > 0 && step == rate as real / 48000.0 && start == Offset(rate, n, Ticks(rate, n))
    requires n < |total| && total[n] == sample && last == Previous(total, n)
    requires Ticks(rate, n) <= Ticks(rate, n + 1) <= Ticks(rate, |total|) && sent == FirstTicks(rate, total, Ticks(rate, n))
    ensures phase == Offset(rate, n, Ticks(rate, n + 1)) && sent + output == FirstTicks(rate, total, Ticks(rate, n + 1))
  {
    output, phase := [], start;
    ghost var k: nat := Ticks(rate, n);
    OffsetBelow(rate, n, k);
    while phase < 1.0
      invariant Ticks(rate, n) <= k <= Ticks(rate, n + 1) && phase == Offset(rate, n, k)
      invariant phase < 1.0 <==> k < Ticks(rate, n + 1)
      invariant FirstTicks(rate, total, k) == sent + output
      decreases Ticks(rate, n + 1) - k
    {
      var mixed := MixTick(rate, last, sample, phase, n, k, total);
      output := output + [mixed];
      OffsetNext(rate, n, k);
      phase := phase + step;
      k := k + 1;
      OffsetBelow(rate, n, k);
    }
  }

  /** The sample at one tick's phase, between the last input and this one. */
  method MixTick(rate: nat, last: Sample, sample: Sample, phase: real, ghost n: nat, ghost k: nat, ghost total: seq<Sample>) returns (mixed: Sample)
    requires rate > 0 && Ticks(rate, n) <= k < Ticks(rate, n + 1) && phase == Offset(rate, n, k)
    requires n < |total| && total[n] == sample && last == Previous(total, n)
    ensures At(rate, k) < |total| && mixed == Tick(rate, total, k)
  {
    TickHere(rate, n, k);
    MixBetween(last, sample, phase);
    mixed := Mix(last, sample, phase);
  }
}
