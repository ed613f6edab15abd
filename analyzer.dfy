/** The tempo analysis run in the analysis worker: boxcar decimation of
    long high-rate audio, the frame-energy envelope, rectified and
    normalised spectral flux, smoothing, median thresholding, mean removal,
    autocorrelation, the best-lag search and octave correction. */
module Analysis {
  import opened Num

  // ------------------------------------------------------------ sums

  /** a[lo] + ... + a[hi-1]. */
  function Sum(a: seq<real>, lo: nat, hi: nat): real
    requires lo <= hi <= |a|
    decreases hi - lo
  {
    if lo == hi then 0.0 else Sum(a, lo, hi - 1) + a[hi - 1]
  }

  /** n·lo ≤ s ≤ n·hi gives lo ≤ s/n ≤ hi. */
  lemma MeanWithin(s: real, n: real, lo: real, hi: real)
    requires n > 0.0 && Mul(n, lo) <= s <= Mul(n, hi)
    ensures lo <= s / n <= hi
  {
    var q := s / n;
    assert q * n == s;
    assert (q - lo) * n == s - n * lo;
    assert (hi - q) * n == n * hi - s;
  }

  /** A sum of values in [lo, hi] lies between count·lo and count·hi. */
  lemma {:induction false} SumWithin(a: seq<real>, l: nat, h: nat, lo: real, hi: real)
    requires l <= h <= |a|
    requires forall j :: l <= j < h ==> lo <= a[j] <= hi
    ensures Mul((h - l) as real, lo) <= Sum(a, l, h) <= Mul((h - l) as real, hi)
    decreases h - l
  {
    if l < h {
      SumWithin(a, l, h - 1, lo, hi);
      assert Mul((h - l) as real, lo) == Mul((h - 1 - l) as real, lo) + lo;
      assert Mul((h - l) as real, hi) == Mul((h - 1 - l) as real, hi) + hi;
    }
  }

  // ------------------------------------------------------------ median

  predicate Sorted(s: seq<real>) {
    forall i, j :: 0 <= i < j < |s| ==> s[i] <= s[j]
  }

  /** x placed into a sorted sequence before the first larger element. */
  function Insert(x: real, s: seq<real>): (r: seq<real>)
    requires Sorted(s)
    ensures Sorted(r) && multiset(r) == multiset(s) + multiset{x} && |r| == |s| + 1
    ensures r[0] == x || (|s| > 0 && r[0] == s[0])
  {
    if |s| == 0 then [x]
    else if x <= s[0] then [x] + s
    else
      var t := Insert(x, s[1..]);
      assert s == [s[0]] + s[1..];
      assert s[0] <= t[0];
      [s[0]] + t
  }

  /** The ascending sort of `values.slice().sort((a, b) => a - b)`. */
  function Sort(s: seq<real>): (r: seq<real>)
    ensures Sorted(r) && multiset(r) == multiset(s) && |r| == |s|
  {
    if |s| == 0 then []
    else
      assert s == [s[0]] + s[1..];
      Insert(s[0], Sort(s[1..]))
  }

  /** `median`: 0 for no values, else the middle of the sorted copy, or the
      mean of the two middle values for an even count. */
  function Median(values: seq<real>): (m: real)
    ensures |values| == 0 ==> m == 0.0
  {
    if |values| == 0 then 0.0 else Middle(Sort(values))
  }

  /** The middle element of a non-empty sorted copy, or the mean of its two
      middle elements for an even length. */
  function Middle(arr: seq<real>): real
    requires |arr| > 0
  {
    var k := |arr| / 2;
    if |arr| % 2 == 1 then arr[k] else (arr[k - 1] + arr[k]) / 2.0
  }

  /** The least element of a sorted non-empty sequence is its head. */
  lemma SortedHead(a: seq<real>, x: real)
    requires Sorted(a) && |a| > 0 && x in multiset(a)
    ensures a[0] <= x
  {
    var i :| 0 <= i < |a| && a[i] == x;
  }

  /** Two sorted sequences with the same elements have the same head. */
  lemma SortedSameHead(a: seq<real>, b: seq<real>)
    requires Sorted(a) && Sorted(b) && multiset(a) == multiset(b) && |a| > 0
    ensures |b| > 0 && a[0] == b[0]
  {
    assert a[0] in multiset(a);
    assert a[0] in multiset(b);
    assert |b| > 0;
    assert b[0] in multiset(b);
    SortedHead(b, a[0]);
    SortedHead(a, b[0]);
  }

  /** Removing the head of a sequence removes it from its elements. */
  lemma TailMultiset(a: seq<real>)
    requires |a| > 0
    ensures multiset(a[1..]) == multiset(a) - multiset{a[0]}
  {
    assert a == [a[0]] + a[1..];
  }

  /** Two sorted sequences with the same elements are equal. */
  lemma {:induction false} SortedUnique(a: seq<real>, b: seq<real>)
    requires Sorted(a) && Sorted(b) && multiset(a) == multiset(b)
    ensures a == b
    decreases |a|
  {
    if |a| == 0 {
      assert |multiset(b)| == 0;
    } else {
      SortedSameHead(a, b);
      TailMultiset(a);
      TailMultiset(b);
      SortedUnique(a[1..], b[1..]);
      assert a == [a[0]] + a[1..];
      assert b == [b[0]] + b[1..];
    }
  }

  /** The median depends only on the values, not on their order. */
  lemma MedianPermutation(a: seq<real>, b: seq<real>)
    requires multiset(a) == multiset(b)
    ensures Median(a) == Median(b)
  {
    if |a| > 0 {
      assert |b| > 0 by {
        assert a[0] in multiset(b);
      }
      SortedUnique(Sort(a), Sort(b));
    } else {
      assert |multiset(b)| == 0;
    }
  }

  /** Of a sorted input the median is the middle element, or the mean of
      the middle two. */
  lemma MedianOfSorted(a: seq<real>)
    requires Sorted(a) && |a| > 0
    ensures |a| % 2 == 1 ==> Median(a) == a[|a| / 2]
    ensures |a| % 2 == 0 ==> Median(a) == (a[|a| / 2 - 1] + a[|a| / 2]) / 2.0
  {
    SortedUnique(Sort(a), a);
  }

  /** The median lies between the least and the greatest value. */
  lemma MedianBetween(values: seq<real>)
    requires |values| > 0
    ensures exists i :: 0 <= i < |values| && values[i] <= Median(values)
    ensures exists j :: 0 <= j < |values| && Median(values) <= values[j]
  {
    var arr := Sort(values);
    var k := |arr| / 2;
    assert arr[0] in multiset(values);
    assert arr[|arr| - 1] in multiset(values);
    var i :| 0 <= i < |values| && values[i] == arr[0];
    var j :| 0 <= j < |values| && values[j] == arr[|arr| - 1];
    assert values[i] <= Median(values) <= values[j];
  }

  // ------------------------------------------------------------ smoothing

  /** The first index of the smoothing window around i. */
  function WinLo(i: nat, r: nat): nat {
    if i >= r then i - r else 0
  }

  /** The last index of the smoothing window around i. */
  function WinHi(i: nat, r: nat, len: nat): nat
    requires len >= 1
  {
    if i + r <= len - 1 then i + r else len - 1
  }

  /** out[i] of `smoothArray`: the mean of the window, divided by the
      number of terms actually summed. */
  function SmoothAt(a: seq<real>, i: nat, r: nat): real
    requires i < |a|
  {
    Sum(a, WinLo(i, r), WinHi(i, r, |a|) + 1) / (WinHi(i, r, |a|) - WinLo(i, r) + 1) as real
  }

  /** The window around an index holds that index, between 1 and 2r+1 terms. */
  lemma WindowSize(i: nat, r: nat, len: nat)
    requires i < len
    ensures WinLo(i, r) <= i <= WinHi(i, r, len) < len
    ensures 1 <= WinHi(i, r, len) - WinLo(i, r) + 1 <= 2 * r + 1
  {
  }

  /** `smoothArray`. */
  method SmoothArray(a: seq<real>, r: nat) returns (out: array<real>)
    ensures fresh(out) && out.Length == |a|
    ensures forall i :: 0 <= i < |a| ==> out[i] == SmoothAt(a, i, r)
  {
    out := new real[|a|](_ => 0.0);
    for i := 0 to |a|
      invariant forall k :: 0 <= k < i ==> out[k] == SmoothAt(a, k, r)
    {
      var lo := WinLo(i, r);
      var hi := WinHi(i, r, |a|);
      var s := 0.0;
      var j := lo;
      while j <= hi
        invariant lo <= j <= hi + 1
        invariant s == Sum(a, lo, j)
      {
        s := s + a[j];
        j := j + 1;
      }
      out[i] := s / (hi - lo + 1) as real;
    }
  }

  /** Smoothing values in [lo, hi] gives values in [lo, hi]. */
  lemma SmoothWithin(a: seq<real>, r: nat, lo: real, hi: real)
    requires forall j :: 0 <= j < |a| ==> lo <= a[j] <= hi
    ensures forall i :: 0 <= i < |a| ==> lo <= SmoothAt(a, i, r) <= hi
  {
    forall i | 0 <= i < |a|
      ensures lo <= SmoothAt(a, i, r) <= hi
    {
      var l := WinLo(i, r);
      var h := WinHi(i, r, |a|) + 1;
      SumWithin(a, l, h, lo, hi);
      MeanWithin(Sum(a, l, h), (h - l) as real, lo, hi);
    }
  }

  // ------------------------------------------------------------ decimation

  const TargetRate: real := 44100.0

  /** Only audio above 44.1 kHz and longer than 30 s at that rate is decimated. */
  predicate Decimates(sampleRate: real, len: nat) {
    sampleRate > TargetRate && len as real > TargetRate * 30.0
  }

  /** `Math.max(1, Math.round(sampleRate / 44100))`. */
  function DecimationFactor(sampleRate: real): (f: nat)
    ensures f >= 1
  {
    var k := Round(sampleRate / TargetRate);
    if k >= 1 then k else 1
  }

  /** The mean of block j of width `factor` (0 past the end). */
  function BlockMean(pcm: seq<real>, factor: nat, j: nat): real
    requires factor >= 1
  {
    if Span(j + 1, factor) <= |pcm| then Sum(pcm, Span(j, factor), Span(j + 1, factor)) / factor as real
    else 0.0
  }

  /** The first floor(len / factor) blocks lie inside the samples. */
  lemma BlocksFit(len: nat, factor: nat, j: nat)
    requires factor >= 1 && j < len / factor
    ensures Span(j + 1, factor) <= len
  {
    DivMod(len, factor);
    SpanMono(j + 1, len / factor, factor);
  }

  /** The boxcar decimation loop: floor(len / factor) block means. */
  method Decimate(pcm: seq<real>, factor: nat) returns (out: array<real>)
    requires factor >= 1
    ensures fresh(out) && out.Length == |pcm| / factor
    ensures forall j :: 0 <= j < out.Length ==> out[j] == BlockMean(pcm, factor, j)
  {
    out := new real[|pcm| / factor](_ => 0.0);
    var i := 0;
    var j := 0;
    while i + factor <= |pcm|
      invariant i == Span(j, factor) && i <= |pcm|
      invariant j <= out.Length
      invariant forall k :: 0 <= k < j ==> out[k] == BlockMean(pcm, factor, k)
    {
      var s := 0.0;
      for k := 0 to factor
        invariant s == Sum(pcm, i, i + k)
      {
        s := s + pcm[i + k];
      }
      DivAtLeast(j + 1, factor, |pcm|);
      assert Span(j + 1, factor) == i + factor;
      out[j] := s / factor as real;
      i := i + factor;
      j := j + 1;
    }
    DivMod(|pcm|, factor);
    if j < out.Length {
      SpanMono(j + 1, |pcm| / factor, factor);
      assert false;
    }
  }

  /** The samples and rate `analyzePCM` analyses: long audio above 44.1 kHz
      is decimated by the rounded rate ratio and analysed at the rounded
      reduced rate; anything else is analysed as received. */
  method PreparePcm(pcm: seq<real>, sampleRate: real) returns (processed: seq<real>, usedRate: real)
    ensures !Decimates(sampleRate, |pcm|) ==> processed == pcm && usedRate == sampleRate
    ensures Decimates(sampleRate, |pcm|) ==>
              var f := DecimationFactor(sampleRate);
              |processed| == |pcm| / f && usedRate == Round(sampleRate / f as real) as real &&
              forall j :: 0 <= j < |processed| ==> processed[j] == BlockMean(pcm, f, j)
  {
    processed, usedRate := pcm, sampleRate;
    if sampleRate > TargetRate && |pcm| as real > TargetRate * 30.0 {
      var factor := DecimationFactor(sampleRate);
      var out := Decimate(pcm, factor);
      processed := out[..];
      usedRate := Round(sampleRate / factor as real) as real;
    }
  }

  /** Every decimated sample of values in [lo, hi] lies in [lo, hi]. */
  lemma BlockMeanWithin(pcm: seq<real>, factor: nat, j: nat, lo: real, hi: real)
    requires factor >= 1 && Span(j + 1, factor) <= |pcm|
    requires forall k :: 0 <= k < |pcm| ==> lo <= pcm[k] <= hi
    ensures lo <= BlockMean(pcm, factor, j) <= hi
  {
    SumWithin(pcm, Span(j, factor), Span(j + 1, factor), lo, hi);
    MeanWithin(Sum(pcm, Span(j, factor), Span(j + 1, factor)), factor as real, lo, hi);
  }

  // ------------------------------------------------------------ frames and flux

  const FftSize: nat := 512
  const HopSize: nat := 256

  /** `Math.max(0, Math.floor((len - fftSize) / hopSize) + 1)`. */
  function FrameCount(len: nat): nat {
    if len < FftSize then 0 else (len - FftSize) / HopSize + 1
  }

  /** The windowed absolute energy of the frame starting at `pos`, summed over [pos, pos + k). */
  function EnergySum(data: seq<real>, window: seq<real>, pos: nat, k: nat): real
    requires k <= |window| && pos + k <= |data|
  {
    if k == 0 then 0.0 else EnergySum(data, window, pos, k - 1) + Abs(Mul(data[pos + k - 1], window[k - 1]))
  }

  /** The mean absolute windowed energy of frame f. */
  function FrameEnergy(data: seq<real>, window: seq<real>, f: nat): real
    requires |window| == FftSize && HopSize * f + FftSize <= |data|
  {
    EnergySum(data, window, HopSize * f, FftSize) / FftSize as real
  }

  lemma {:induction false} EnergyNonneg(data: seq<real>, window: seq<real>, pos: nat, k: nat)
    requires k <= |window| && pos + k <= |data|
    ensures EnergySum(data, window, pos, k) >= 0.0
  {
    if k > 0 {
      EnergyNonneg(data, window, pos, k - 1);
    }
  }

  /** The frame loop: one energy per hop while a whole frame fits. */
  method Frames(data: seq<real>, window: seq<real>) returns (frames: array<real>)
    requires |window| == FftSize
    ensures fresh(frames) && frames[..] == FrameEnergies(data, window)
  {
    frames := new real[FrameCount(|data|)](_ => 0.0);
    var fi := 0;
    var pos := 0;
    while pos + FftSize <= |data|
      invariant pos == HopSize * fi && fi <= frames.Length
      invariant fi < frames.Length || pos + FftSize > |data|
      invariant forall f :: 0 <= f < fi ==> HopSize * f + FftSize <= |data| && frames[f] == FrameEnergy(data, window, f)
    {
      var s := 0.0;
      for i := 0 to FftSize
        invariant s == EnergySum(data, window, pos, i)
      {
        s := s + Abs(Mul(data[pos + i], window[i]));
      }
      frames[fi] := s / FftSize as real;
      fi := fi + 1;
      pos := pos + HopSize;
    }
  }

  /** Frame energies are never negative. */
  lemma FrameEnergyNonneg(data: seq<real>, window: seq<real>, f: nat)
    requires |window| == FftSize && HopSize * f + FftSize <= |data|
    ensures FrameEnergy(data, window, f) >= 0.0
  {
    EnergyNonneg(data, window, HopSize * f, FftSize);
  }

  /** Onset strength at frame i: the rise of the energy, 0 for a fall and for frame 0. */
  function FluxAt(frames: seq<real>, i: nat): (r: real)
    requires i < |frames|
    ensures r >= 0.0
    ensures i > 0 && frames[i] > frames[i - 1] ==> r == frames[i] - frames[i - 1]
    ensures i == 0 || frames[i] <= frames[i - 1] ==> r == 0.0
  {
    if i == 0 then 0.0
    else
      var diff := frames[i] - frames[i - 1];
      if diff > 0.0 then diff else 0.0
  }

  /** The flux loop. */
  method Flux(frames: array<real>) returns (flux: array<real>)
    ensures fresh(flux) && flux.Length == frames.Length
    ensures forall i :: 0 <= i < flux.Length ==> flux[i] == FluxAt(frames[..], i)
  {
    flux := new real[frames.Length](_ => 0.0);
    var i := 1;
    while i < frames.Length
      invariant 1 <= i
      invariant forall k :: 0 <= k < flux.Length ==> flux[k] == if k < i then FluxAt(frames[..], k) else 0.0
    {
      var diff := frames[i] - frames[i - 1];
      flux[i] := if diff > 0.0 then diff else 0.0;
      i := i + 1;
    }
  }

  /** The running maximum from 0 over a[..n]. */
  function MaxFrom0(a: seq<real>, n: nat): (m: real)
    requires n <= |a|
    ensures m >= 0.0
    ensures forall k :: 0 <= k < n ==> a[k] <= m
  {
    if n == 0 then 0.0 else MaxR(MaxFrom0(a, n - 1), a[n - 1])
  }

  /** The divisor of the normalisation: the largest value, but at least 1e-9. */
  function FluxScale(a: seq<real>): (m: real)
    ensures m > 0.0
  {
    var m := MaxFrom0(a, |a|);
    if m < 0.000000001 then 0.000000001 else m
  }

  /** Each value divided by the flux scale. */
  function Normalized(a: seq<real>): (r: seq<real>)
    ensures |r| == |a|
  {
    seq(|a|, i requires 0 <= i < |a| => a[i] / FluxScale(a))
  }

  /** Flux normalisation, in place. */
  method NormalizeInPlace(flux: array<real>)
    modifies flux
    ensures flux[..] == Normalized(old(flux[..]))
  {
    var maxFlux := 0.0;
    for i := 0 to flux.Length
      invariant maxFlux == MaxFrom0(flux[..], i)
    {
      if flux[i] > maxFlux {
        maxFlux := flux[i];
      }
    }
    if maxFlux < 0.000000001 {
      maxFlux := 0.000000001;
    }
    ghost var a := flux[..];
    assert maxFlux == FluxScale(a);
    for i := 0 to flux.Length
      invariant forall k :: 0 <= k < flux.Length ==> flux[k] == if k < i then a[k] / maxFlux else a[k]
    {
      flux[i] := flux[i] / maxFlux;
    }
  }

  /** Normalising non-negative values gives values in [0, 1]. */
  lemma NormalizedUnit(a: seq<real>)
    requires forall k :: 0 <= k < |a| ==> a[k] >= 0.0
    ensures forall k :: 0 <= k < |a| ==> 0.0 <= Normalized(a)[k] <= 1.0
  {
    var m := FluxScale(a);
    forall k | 0 <= k < |a|
      ensures 0.0 <= Normalized(a)[k] <= 1.0
    {
      assert a[k] <= m;
      MeanWithin(a[k], m, 0.0, 1.0);
    }
  }

  // ------------------------------------------------------------ threshold and mean

  /** Values below the cut set to 0. */
  function Thresholded(a: seq<real>, cut: real): (r: seq<real>)
    ensures |r| == |a|
    ensures forall i :: 0 <= i < |a| ==> (r[i] == 0.0 || r[i] >= cut) && (a[i] >= cut ==> r[i] == a[i])
  {
    seq(|a|, i requires 0 <= i < |a| => if a[i] < cut then 0.0 else a[i])
  }

  /** The onset threshold, in place. */
  method ThresholdInPlace(smooth: array<real>, cut: real)
    modifies smooth
    ensures smooth[..] == Thresholded(old(smooth[..]), cut)
  {
    ghost var a := smooth[..];
    for i := 0 to smooth.Length
      invariant forall k :: 0 <= k < smooth.Length ==> smooth[k] == if k < i && a[k] < cut then 0.0 else a[k]
    {
      if smooth[i] < cut {
        smooth[i] := 0.0;
      }
    }
  }

  /** `meanEnv`: the sum over `Math.max(1, length)`. */
  function MeanOf(a: seq<real>): real {
    Sum(a, 0, |a|) / (if |a| > 1 then |a| else 1) as real
  }

  /** Every value minus c. */
  function Shifted(a: seq<real>, c: real): (r: seq<real>)
    ensures |r| == |a|
  {
    seq(|a|, i requires 0 <= i < |a| => a[i] - c)
  }

  /** Mean subtraction, in place. */
  method SubtractMeanInPlace(env: array<real>)
    modifies env
    ensures env[..] == Shifted(old(env[..]), MeanOf(old(env[..])))
  {
    ghost var a := env[..];
    var meanEnv := 0.0;
    for i := 0 to env.Length
      invariant meanEnv == Sum(a, 0, i)
    {
      meanEnv := meanEnv + env[i];
    }
    meanEnv := meanEnv / (if env.Length > 1 then env.Length else 1) as real;
    for i := 0 to env.Length
      invariant forall k :: 0 <= k < env.Length ==> env[k] == if k < i then a[k] - meanEnv else a[k]
    {
      env[i] := env[i] - meanEnv;
    }
  }

  lemma {:induction false} ShiftedSum(a: seq<real>, c: real, n: nat)
    requires n <= |a|
    ensures Sum(Shifted(a, c), 0, n) == Sum(a, 0, n) - Mul(n as real, c)
  {
    if n > 0 {
      ShiftedSum(a, c, n - 1);
      assert Mul(n as real, c) == Mul((n - 1) as real, c) + c;
    }
  }

  /** After mean subtraction the envelope sums to 0. */
  lemma ShiftedSumsToZero(a: seq<real>)
    ensures Sum(Shifted(a, MeanOf(a)), 0, |a|) == 0.0
  {
    ShiftedSum(a, MeanOf(a), |a|);
    if |a| > 0 {
      assert (if |a| > 1 then |a| else 1) == |a|;
      MulMean(|a| as real, Sum(a, 0, |a|));
    }
  }

  // ------------------------------------------------------------ autocorrelation

  /** env[0]·env[lag] + ... over the pairs inside the envelope, first k pairs. */
  function AcSum(env: seq<real>, lag: nat, k: nat): real
    requires k + lag <= |env|
  {
    if k == 0 then 0.0 else AcSum(env, lag, k - 1) + Mul(env[k - 1], env[k - 1 + lag])
  }

  /** The autocorrelation of the envelope at `lag`. */
  function AcAt(env: seq<real>, lag: nat): real {
    if lag <= |env| then AcSum(env, lag, |env| - lag) else 0.0
  }

  /** The autocorrelation loop over [minLag, maxLag]; other lags stay 0. */
  method Autocorrelate(env: seq<real>, minLag: nat, maxLag: nat) returns (ac: array<real>)
    ensures fresh(ac) && ac.Length == maxLag + 1
    ensures forall l :: 0 <= l < ac.Length ==> ac[l] == if minLag <= l then AcAt(env, l) else 0.0
  {
    ac := new real[maxLag + 1](_ => 0.0);
    var lag := minLag;
    while lag <= maxLag
      invariant minLag <= lag
      invariant forall l :: 0 <= l < ac.Length ==> ac[l] == if minLag <= l < lag then AcAt(env, l) else 0.0
    {
      var s := 0.0;
      var i := 0;
      while i + lag < |env|
        invariant i + lag <= |env| || i == 0
        invariant lag <= |env| ==> s == AcSum(env, lag, i)
        invariant lag > |env| ==> s == 0.0
      {
        s := s + Mul(env[i], env[i + lag]);
        i := i + 1;
      }
      assert s == AcAt(env, lag);
      ac[lag] := s;
      lag := lag + 1;
    }
  }

  /** The best-lag search: the first lag in [minLag, maxLag] with the
      largest autocorrelation, rejected unless that value is positive. */
  method BestLag(ac: array<real>, minLag: nat, maxLag: nat) returns (r: Result<nat, string>)
    requires maxLag < ac.Length
    ensures r.Ok? ==> minLag <= r.value <= maxLag && ac[r.value] > 0.0
    ensures r.Ok? ==> forall l :: minLag <= l <= maxLag ==> ac[l] <= ac[r.value]
    ensures r.Ok? ==> forall l :: minLag <= l < r.value ==> ac[l] < ac[r.value]
    ensures r.Err? <==> forall l :: minLag <= l <= maxLag ==> ac[l] <= 0.0
    ensures r.Err? ==> r.error == "autocorr-no-peak"
  {
    var bestLag := minLag;
    var bestVal: Option<real> := None;
    var l := minLag;
    while l <= maxLag
      invariant minLag <= l <= maxLag + 1 || (l == minLag && minLag > maxLag)
      invariant bestVal.None? <==> l == minLag
      invariant bestVal.Some? ==> minLag <= bestLag < l && bestVal.value == ac[bestLag]
      invariant bestVal.Some? ==> forall k :: minLag <= k < l ==> ac[k] <= bestVal.value
      invariant bestVal.Some? ==> forall k :: minLag <= k < bestLag ==> ac[k] < bestVal.value
    {
      if bestVal.None? || ac[l] > bestVal.value {
        bestVal := Some(ac[l]);
        bestLag := l;
      }
      l := l + 1;
    }
    if bestVal.None? || bestVal.value <= 0.0 {
      return Err("autocorr-no-peak");
    }
    r := Ok(bestLag);
  }

  // ------------------------------------------------------------ the envelope as values

  /** Frame f of a frame count lies inside the samples. */
  lemma FrameFits(len: nat, f: nat)
    requires f < FrameCount(len)
    ensures HopSize * f + FftSize <= len
  {
    assert f <= (len - FftSize) / HopSize;
    assert HopSize * ((len - FftSize) / HopSize) <= len - FftSize;
  }

  /** The energies `Frames` computes, one per whole frame. */
  function FrameEnergies(data: seq<real>, window: seq<real>): (r: seq<real>)
    requires |window| == FftSize
    ensures |r| == FrameCount(|data|)
  {
    seq(FrameCount(|data|), f requires 0 <= f < FrameCount(|data|) =>
      FrameFits(|data|, f); FrameEnergy(data, window, f))
  }

  /** The flux `Flux` computes. */
  function FluxOf(frames: seq<real>): (r: seq<real>)
    ensures |r| == |frames|
  {
    seq(|frames|, i requires 0 <= i < |frames| => FluxAt(frames, i))
  }

  /** The smoothing `smoothArray` computes. */
  function Smoothed(a: seq<real>, r: nat): (s: seq<real>)
    ensures |s| == |a|
  {
    seq(|a|, i requires 0 <= i < |a| => SmoothAt(a, i, r))
  }

  /** The onset envelope `estimateBpm` autocorrelates: the normalised flux,
      smoothed over 5 frames, cut below half its median, with its mean
      removed. It has one value per frame and sums to 0. */
  function Envelope(data: seq<real>, window: seq<real>): (env: seq<real>)
    requires |window| == FftSize
    ensures |env| == FrameCount(|data|)
    ensures Sum(env, 0, |env|) == 0.0
  {
    EnvelopeOf(FrameEnergies(data, window))
  }

  /** The envelope stages over given frame energies. */
  function EnvelopeOf(frames: seq<real>): (env: seq<real>)
    ensures |env| == |frames|
    ensures Sum(env, 0, |env|) == 0.0
  {
    Centered(CutBelowHalfMedian(Smoothed(Normalized(FluxOf(frames)), 2)))
  }

  /** Values under half the median set to 0. */
  function CutBelowHalfMedian(a: seq<real>): (r: seq<real>)
    ensures |r| == |a|
  {
    Thresholded(a, Median(a) * 0.5)
  }

  /** The values with their mean removed; they then sum to 0. */
  function Centered(a: seq<real>): (r: seq<real>)
    ensures |r| == |a|
    ensures Sum(r, 0, |r|) == 0.0
  {
    ShiftedSumsToZero(a);
    Shifted(a, MeanOf(a))
  }

  /** The onset threshold at half the median, in place. */
  method CutInPlace(smooth: array<real>)
    modifies smooth
    ensures smooth[..] == CutBelowHalfMedian(old(smooth[..]))
  {
    var med := Median(smooth[..]);
    ThresholdInPlace(smooth, med * 0.5);
  }

  /** The envelope stages of `estimateBpm`, each an array pass. */
  method OnsetEnvelope(frames: array<real>) returns (smooth: array<real>)
    ensures fresh(smooth) && smooth[..] == EnvelopeOf(frames[..])
  {
    ghost var energies := frames[..];
    var flux := Flux(frames);
    assert flux[..] == FluxOf(energies);
    NormalizeInPlace(flux);
    smooth := SmoothArray(flux[..], 2);
    assert smooth[..] == Smoothed(Normalized(FluxOf(energies)), 2);
    CutInPlace(smooth);
    SubtractMeanInPlace(smooth);
    assert frames[..] == energies;
  }

  /** `lag` is the lag the best-lag search picks: in range, with a positive
      autocorrelation that no lag in range exceeds and no earlier lag ties. */
  predicate IsBestLag(env: seq<real>, lag: nat, lo: int, hi: int) {
    lo <= lag <= hi && AcAt(env, lag) > 0.0 &&
    (forall l: nat :: lo <= l <= hi ==> AcAt(env, l) <= AcAt(env, lag)) &&
    (forall l: nat :: lo <= l < lag ==> AcAt(env, l) < AcAt(env, lag))
  }

  /** At most one lag is the best, so the tempo is a function of the envelope. */
  lemma BestLagUnique(env: seq<real>, a: nat, b: nat, lo: int, hi: int)
    requires IsBestLag(env, a, lo, hi) && IsBestLag(env, b, lo, hi)
    ensures a == b
  {
  }

  // ------------------------------------------------------------ tempo

  /** The lag range for 60 to 180 BPM at `fps` envelope frames per second. */
  function MinLag(fps: real): int {
    (fps * 60.0 / 180.0).Floor
  }

  function MaxLag(fps: real): int {
    -((-(fps * 60.0 / 60.0)).Floor)
  }

  /** Envelope frames per second. */
  function Fps(sampleRate: real): real {
    sampleRate / HopSize as real
  }

  /** At 3 or more frames per second every lag in [MinLag, MaxLag] is at
      least 1 and gives a raw tempo in [45, 360]. */
  lemma TempoRange(fps: real, lag: nat)
    requires fps >= 3.0 && MinLag(fps) <= lag <= MaxLag(fps)
    ensures lag >= 1 && 45.0 <= 60.0 * fps / lag as real <= 360.0
  {
    assert fps * 60.0 / 180.0 == fps / 3.0 && fps * 60.0 / 60.0 == fps;
    var l := lag as real;
    assert l < fps + 1.0;
    assert fps / 3.0 < l + 1.0;
    assert l >= 1.0;
    QuotientWithin(60.0 * fps, l, 45.0, 360.0);
  }

  /** a / b lies in [lo, hi] when a does in [lo * b, hi * b] for b > 0. */
  lemma QuotientWithin(a: real, b: real, lo: real, hi: real)
    requires b > 0.0 && lo * b <= a <= hi * b
    ensures lo <= a / b <= hi
  {
  }

  /** Octave correction: below 90 doubled, above 140 halved and rounded. */
  function OctaveCorrect(bpm: real): real {
    if bpm < 90.0 then bpm * 2.0
    else if bpm > 140.0 then Round(bpm / 2.0) as real
    else bpm
  }

  /** `Math.round(bpm) || 120`. */
  function FinalBpm(bpm: real): (b: int)
    ensures b != 0
  {
    var r := Round(OctaveCorrect(bpm));
    if r == 0 then 120 else r
  }

  /** The corrected tempo: doubled below 90, halved above 140, unchanged in
      between; a tempo from 45 to 280 BPM ends in [70, 180]. */
  lemma OctaveFacts(bpm: real)
    ensures bpm < 90.0 ==> OctaveCorrect(bpm) == 2.0 * bpm
    ensures bpm > 140.0 ==> OctaveCorrect(bpm) == Round(bpm / 2.0) as real
    ensures 90.0 <= bpm <= 140.0 ==> OctaveCorrect(bpm) == bpm
    ensures 45.0 <= bpm <= 360.0 ==> 70 <= FinalBpm(bpm) <= 180
  {
    if bpm > 140.0 && bpm <= 360.0 {
      RoundMonotone(70.0, bpm / 2.0);
      RoundMonotone(bpm / 2.0, 180.0);
      RoundOfInt(70);
      RoundOfInt(180);
      RoundOfInt(Round(bpm / 2.0));
    }
    if 45.0 <= bpm < 90.0 {
      RoundMonotone(90.0, bpm * 2.0);
      RoundMonotone(bpm * 2.0, 180.0);
      RoundOfInt(90);
      RoundOfInt(180);
    }
    if 90.0 <= bpm <= 140.0 {
      RoundMonotone(90.0, bpm);
      RoundMonotone(bpm, 140.0);
      RoundOfInt(90);
      RoundOfInt(140);
    }
  }

  /** The lag search and tempo of `estimateBpm` over a finished envelope:
      the octave-corrected tempo of the best lag between MinLag and MaxLag,
      always in [70, 180], or "autocorr-no-peak" exactly when no lag in
      that range correlates positively. */
  /** What the tempo stage yields from envelope `env` at `fps` frames per
      second: the "autocorr-no-peak" error exactly when no lag in range has a
      positive autocorrelation, otherwise the folded tempo of the best lag,
      within [70, 180]. */
  ghost predicate IsTempoOf(env: seq<real>, fps: real, r: Result<int, string>) {
    (r.Err? <==> forall l: nat :: MinLag(fps) <= l <= MaxLag(fps) ==> AcAt(env, l) <= 0.0) &&
    (r.Err? ==> r.error == "autocorr-no-peak") &&
    (r.Ok? ==> exists lag: nat :: lag >= 1 && IsBestLag(env, lag, MinLag(fps), MaxLag(fps)) &&
                                  r.value == FinalBpm(60.0 * fps / lag as real)) &&
    (r.Ok? ==> 70 <= r.value <= 180)
  }

  method TempoOf(env: seq<real>, fps: real) returns (r: Result<int, string>)
    requires fps >= 3.0
    ensures IsTempoOf(env, fps, r)
  {
    var minLag := MinLag(fps);
    var maxLag := MaxLag(fps);
    assert fps * 60.0 / 180.0 == fps / 3.0 && fps * 60.0 / 60.0 == fps;
    assert minLag >= 1 && maxLag >= minLag;
    var ac := Autocorrelate(env, minLag, maxLag);
    var best := BestLag(ac, minLag, maxLag);
    assert forall l: nat :: minLag <= l <= maxLag ==> ac[l] == AcAt(env, l);
    if best.Err? {
      return Err(best.error);
    }
    var lag := best.value;
    assert IsBestLag(env, lag, minLag, maxLag);
    TempoRange(fps, lag);
    var bpm := 60.0 * fps / lag as real;
    OctaveFacts(bpm);
    r := Ok(FinalBpm(bpm));
  }

  /** `estimateBpm` on decoded mono samples, with the Hann window given. */
  method EstimateBpm(data: seq<real>, window: seq<real>, sampleRate: real) returns (r: Result<int, string>)
    requires |window| == FftSize && sampleRate >= 3.0 * HopSize as real
    ensures r.Err? && r.error == "not-enough-frames" <==> FrameCount(|data|) < 4
    ensures r.Err? ==> r.error == "not-enough-frames" || r.error == "autocorr-no-peak"
    ensures r.Ok? ==> 70 <= r.value <= 180
    ensures FrameCount(|data|) >= 4 ==> IsTempoOf(Envelope(data, window), Fps(sampleRate), r)
  {
    var frames := Frames(data, window);
    if frames.Length < 4 {
      return Err("not-enough-frames");
    }
    var smooth := OnsetEnvelope(frames);
    assert smooth[..] == Envelope(data, window);
    r := TempoOf(smooth[..], Fps(sampleRate));
  }
}
