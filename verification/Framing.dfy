/** Voice frames out of a sample stream, the playout ring, and folding to mono. */
module Framing {
  import opened Resampling

  const FRAME_SAMPLES: nat := 960
  const PLAYOUT_CAP: nat := 9600

  function Joined(frames: seq<seq<Sample>>): seq<Sample> {
    if frames == [] then [] else Joined(frames[..|frames| - 1]) + frames[|frames| - 1]
  }

  predicate Exact(frames: seq<seq<Sample>>) {
    forall i :: 0 <= i < |frames| ==> |frames[i]| == FRAME_SAMPLES
  }

  lemma JoinedAppend(frames: seq<seq<Sample>>, frame: seq<Sample>)
    ensures Joined(frames + [frame]) == Joined(frames) + frame
  {
    assert (frames + [frame])[..|frames|] == frames;
  }

  lemma {:induction false} JoinedConcat(a: seq<seq<Sample>>, b: seq<seq<Sample>>)
    ensures Joined(a + b) == Joined(a) + Joined(b)
  {
    if b == [] {
      assert a + b == a;
    } else {
      var init, last := b[..|b| - 1], b[|b| - 1];
      JoinedConcat(a, init);
      assert a + b == (a + init) + [last];
      JoinedAppend(a + init, last);
      assert Joined(a) + (Joined(init) + last) == (Joined(a) + Joined(init)) + last;
    }
  }

  lemma {:induction false} JoinedLength(frames: seq<seq<Sample>>)
    requires Exact(frames)
    ensures |Joined(frames)| == FRAME_SAMPLES * |frames|
  {
    if frames != [] {
      JoinedLength(frames[..|frames| - 1]);
    }
  }

  class FrameAccumulator {
    var buffer: seq<Sample>

    constructor ()
      ensures buffer == []
    {
      buffer := [];
    }

    /** Whole frames come out in order; what is left is under a frame, and nothing is lost. */
    method Push(samples: seq<Sample>) returns (frames: seq<seq<Sample>>)
      modifies this
      ensures Exact(frames) && Joined(frames) + buffer == old(buffer) + samples
      ensures |buffer| < FRAME_SAMPLES
    {
      buffer := buffer + samples;
      frames := [];
      while |buffer| >= FRAME_SAMPLES
        invariant Exact(frames) && Joined(frames) + buffer == old(buffer) + samples
        decreases |buffer|
      {
        JoinedAppend(frames, buffer[..FRAME_SAMPLES]);
        ghost var all := Joined(frames) + buffer;
        frames := frames + [buffer[..FRAME_SAMPLES]];
        buffer := buffer[FRAME_SAMPLES..];
        assert Joined(frames) + buffer == all;
      }
    }
  }

  /** The capture path: device callbacks in, voice frames out. */
  class Microphone {
    const resampler: Resampler
    const accumulator: FrameAccumulator
    ghost var sent: seq<seq<Sample>>

    ghost predicate Valid()
      reads this, resampler, accumulator
    {
      && resampler.Valid() && Exact(sent) && |accumulator.buffer| < FRAME_SAMPLES
      && Joined(sent) + accumulator.buffer == Resampled(resampler.rate, resampler.fed)
    }

    constructor (rate: nat)
      requires rate > 0
      ensures Valid() && fresh(resampler) && fresh(accumulator) && resampler.rate == rate && resampler.fed == [] && sent == []
    {
      resampler := new Resampler(rate);
      accumulator := new FrameAccumulator();
      sent := [];
      new;
      ResampledEmpty(rate);
    }

    /** However callbacks split the stream, the frames sent so far and the remainder are the resampled stream. */
    method Capture(input: seq<Sample>) returns (frames: seq<seq<Sample>>)
      requires Valid()
      modifies this, resampler, accumulator
      ensures Valid() && resampler.fed == old(resampler.fed) + input && sent == old(sent) + frames
    {
      var output := resampler.Push(input);
      frames := accumulator.Push(output);
      JoinedConcat(sent, frames);
      calc {
        Joined(sent + frames) + accumulator.buffer;
        Joined(sent) + (Joined(frames) + accumulator.buffer);
        Joined(sent) + (old(accumulator.buffer) + output);
        (Joined(sent) + old(accumulator.buffer)) + output;
        Resampled(resampler.rate, resampler.fed);
      }
      sent := sent + frames;
    }
  }

  /** Frames are determined by the stream alone: two ways of splitting it send the same frames and keep the same remainder. */
  lemma {:induction false} FramesDetermined(a: seq<seq<Sample>>, restA: seq<Sample>, b: seq<seq<Sample>>, restB: seq<Sample>)
    requires Exact(a) && Exact(b) && |restA| < FRAME_SAMPLES && |restB| < FRAME_SAMPLES
    requires Joined(a) + restA == Joined(b) + restB
    ensures a == b && restA == restB
  {
    JoinedLength(a);
    JoinedLength(b);
    assert |a| == |b|;
    if a == [] {
      assert Joined(a) + restA == restA && Joined(b) + restB == restB;
    } else {
      var initA, initB, lastA, lastB := a[..|a| - 1], b[..|b| - 1], a[|a| - 1], b[|b| - 1];
      assert restA == (Joined(a) + restA)[|Joined(a)|..] && restB == (Joined(b) + restB)[|Joined(b)|..];
      assert Joined(a) == (Joined(a) + restA)[..|Joined(a)|] && Joined(b) == (Joined(b) + restB)[..|Joined(b)|];
      JoinedLength(initA);
      JoinedLength(initB);
      assert lastA == Joined(a)[|Joined(initA)|..] && lastB == Joined(b)[|Joined(initB)|..];
      assert Joined(initA) == Joined(a)[..|Joined(initA)|] && Joined(initB) == Joined(b)[..|Joined(initB)|];
      assert Joined(initA) + [] == Joined(initA) && Joined(initB) + [] == Joined(initB);
      FramesDetermined(initA, [], initB, []);
      assert a == initA + [lastA] && b == initB + [lastB];
    }
  }

  // -- Playout ------------------------------------------------------------------------------

  /** The newest samples that fit. */
  function Newest(samples: seq<Sample>): seq<Sample> {
    if |samples| <= PLAYOUT_CAP then samples else samples[|samples| - PLAYOUT_CAP..]
  }

  class PlayoutRing {
    var samples: seq<Sample>

    constructor ()
      ensures samples == []
    {
      samples := [];
    }

    /** Late audio is dead audio: the oldest samples go first. */
    method PushFrame(frame: seq<Sample>)
      requires |samples| <= PLAYOUT_CAP
      modifies this
      ensures samples == Newest(old(samples) + frame) && |samples| <= PLAYOUT_CAP
    {
      samples := samples + frame;
      ghost var all := samples;
      while |samples| > PLAYOUT_CAP
        invariant |samples| <= |all| && samples == all[|all| - |samples|..] && (|all| > PLAYOUT_CAP ==> |samples| >= PLAYOUT_CAP)
        invariant |all| <= PLAYOUT_CAP ==> samples == all
        decreases |samples|
      {
        samples := samples[1..];
      }
    }

    /** The device takes what there is in order, then silence. */
    method DrainInto(out: array<Sample>)
      modifies this, out
      ensures forall i :: 0 <= i < out.Length ==> out[i] == if i < |old(samples)| then old(samples)[i] else 0
      ensures samples == if out.Length <= |old(samples)| then old(samples)[out.Length..] else []
    {
      for i := 0 to out.Length
        invariant samples == if i <= |old(samples)| then old(samples)[i..] else []
        invariant forall j :: 0 <= j < i ==> out[j] == if j < |old(samples)| then old(samples)[j] else 0
      {
        if samples == [] {
          out[i] := 0;
        } else {
          out[i] := samples[0];
          samples := samples[1..];
        }
      }
    }
  }

  // -- Mono ----------------------------------------------------------------------------------

  function Sum(samples: seq<Sample>): int {
    if samples == [] then 0 else Sum(samples[..|samples| - 1]) + samples[|samples| - 1]
  }

  /** Integer division drops the fraction. */
  function Quotient(a: int, b: nat): int
    requires b > 0
  {
    if a >= 0 then a / b else -(-a / b)
  }

  lemma {:induction false} SumBetween(samples: seq<Sample>, lo: int, hi: int)
    requires forall i :: 0 <= i < |samples| ==> lo <= samples[i] <= hi
    ensures lo * |samples| <= Sum(samples) <= hi * |samples|
  {
    if samples != [] {
      var n := |samples| - 1;
      SumBetween(samples[..n], lo, hi);
      assert lo * (n + 1) == lo * n + lo && hi * (n + 1) == hi * n + hi;
    }
  }

  lemma Cancel(x: int, y: int, b: nat)
    requires b > 0 && x * b < y * b
    ensures x < y
  {
  }

  lemma Divides(a: nat, b: nat)
    requires b > 0
    ensures (a / b) * b <= a < (a / b + 1) * b
  {
    assert a == (a / b) * b + a % b;
    assert (a / b + 1) * b == (a / b) * b + b;
  }

  lemma QuotientBetween(a: int, b: nat, lo: int, hi: int)
    requires b > 0 && lo * b <= a <= hi * b
    ensures lo <= Quotient(a, b) <= hi
  {
    if a >= 0 {
      Divides(a, b);
      Cancel(lo, a / b + 1, b);
      assert (hi + 1) * b == hi * b + b;
      Cancel(a / b, hi + 1, b);
    } else {
      var q := -a / b;
      Divides(-a, b);
      assert (-hi) * b == -(hi * b) && (1 - lo) * b == -(lo * b) + b;
      Cancel(-hi, q + 1, b);
      Cancel(q, 1 - lo, b);
    }
  }

  /** The average of a tick lies between its quietest and loudest channel, so it is a sample again. */
  lemma AverageBetween(tick: seq<Sample>, lo: int, hi: int)
    requires tick != [] && forall i :: 0 <= i < |tick| ==> lo <= tick[i] <= hi
    ensures lo <= Quotient(Sum(tick), |tick|) <= hi
  {
    SumBetween(tick, lo, hi);
    QuotientBetween(Sum(tick), |tick|, lo, hi);
  }

  function Average(tick: seq<Sample>): Sample
    requires tick != []
  {
    AverageBetween(tick, -32768, 32767);
    Quotient(Sum(tick), |tick|)
  }

  function Ticked(samples: seq<Sample>, channels: nat): seq<Sample>
    requires channels > 0
  {
    if |samples| < channels then [] else [Average(samples[..channels])] + Ticked(samples[channels..], channels)
  }

  /** Channels average per tick; a trailing part of a tick is dropped. */
  function InterleavedToMono(samples: seq<Sample>, channels: nat): seq<Sample> {
    if channels <= 1 then samples else Ticked(samples, channels)
  }

  /** One sample per tick; with no channel or one, every sample is a tick. */
  function TickSize(channels: nat): (size: nat)
    ensures size > 0
  {
    if channels <= 1 then 1 else channels
  }

  lemma {:induction false} TickedLength(samples: seq<Sample>, channels: nat)
    requires channels > 0
    ensures |Ticked(samples, channels)| * channels <= |samples| < (|Ticked(samples, channels)| + 1) * channels
  {
    if |samples| >= channels {
      var rest := samples[channels..];
      TickedLength(rest, channels);
      var n := |Ticked(rest, channels)|;
      assert (n + 1) * channels == n * channels + channels && (n + 2) * channels == (n + 1) * channels + channels;
    }
  }

  /** Exactly the whole ticks are folded. */
  lemma MonoLength(samples: seq<Sample>, channels: nat)
    ensures
      var n := |InterleavedToMono(samples, channels)|;
      n * TickSize(channels) <= |samples| < (n + 1) * TickSize(channels)
  {
    if channels > 1 {
      TickedLength(samples, channels);
    }
  }

  lemma Within(i: nat, n: nat, size: nat)
    requires i < n
    ensures (i + 1) * size <= n * size && (i + 1) * size == i * size + size
  {
    assert n * size == (i + 1) * size + (n - i - 1) * size;
  }

  /** The i-th tick of the samples. */
  function Tick(samples: seq<Sample>, channels: nat, i: nat): (tick: seq<Sample>)
    requires i < |InterleavedToMono(samples, channels)|
    ensures |tick| == TickSize(channels) && forall j :: 0 <= j < |tick| ==> tick[j] in samples
  {
    MonoLength(samples, channels);
    Within(i, |InterleavedToMono(samples, channels)|, TickSize(channels));
    samples[i * TickSize(channels)..i * TickSize(channels) + TickSize(channels)]
  }

  lemma {:induction false} TickedAt(samples: seq<Sample>, channels: nat, i: nat)
    requires channels > 0 && i < |Ticked(samples, channels)|
    ensures i * channels + channels <= |samples|
    ensures Ticked(samples, channels)[i] == Average(samples[i * channels..i * channels + channels])
  {
    if i > 0 {
      var rest := samples[channels..];
      TickedAt(rest, channels, i - 1);
      assert i * channels == (i - 1) * channels + channels;
      assert rest[(i - 1) * channels..(i - 1) * channels + channels] == samples[i * channels..i * channels + channels];
    }
  }

  lemma NatDrops(a: nat, b: nat)
    requires b > 0
    ensures 0 <= (a / b) * b <= a < (a / b) * b + b
  {
    assert a == (a / b) * b + a % b;
  }

  lemma QuotientDrops(a: int, b: nat)
    requires b > 0
    ensures TowardZero(a, b, Quotient(a, b))
  {
    if a >= 0 {
      NatDrops(a, b);
    } else {
      NatDrops(-a, b);
      var q := -a / b;
      assert (-q) * b == -(q * b);
    }
  }

  /** Every sample of the fold is the sum of its own tick's channels divided by their number, the fraction dropped. */
  lemma MonoAverages(samples: seq<Sample>, channels: nat, i: nat)
    requires i < |InterleavedToMono(samples, channels)|
    ensures TowardZero(Sum(Tick(samples, channels, i)), TickSize(channels), InterleavedToMono(samples, channels)[i])
  {
    MonoAt(samples, channels, i);
    var tick := Tick(samples, channels, i);
    QuotientDrops(Sum(tick), |tick|);
  }

  lemma MonoAt(samples: seq<Sample>, channels: nat, i: nat)
    requires i < |InterleavedToMono(samples, channels)|
    ensures InterleavedToMono(samples, channels)[i] == Average(Tick(samples, channels, i))
  {
    if channels > 1 {
      TickedAt(samples, channels, i);
    } else {
      var tick := Tick(samples, channels, i);
      assert tick == [samples[i]];
      assert Sum(tick) == Sum(tick[..0]) + samples[i];
    }
  }

  /** A signal within bounds folds to samples within the same bounds. */
  lemma MonoBetween(samples: seq<Sample>, channels: nat, lo: Sample, hi: Sample, i: nat)
    requires forall j :: 0 <= j < |samples| ==> lo <= samples[j] <= hi
    requires i < |InterleavedToMono(samples, channels)|
    ensures lo <= InterleavedToMono(samples, channels)[i] <= hi
  {
    MonoAt(samples, channels, i);
    var tick := Tick(samples, channels, i);
    assert forall j :: 0 <= j < |tick| ==> tick[j] in samples;
    AverageBetween(tick, lo, hi);
  }
}
