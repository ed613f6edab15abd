/** The waveform overview: one peak magnitude per stride of samples, about
    2000 peaks for a long track. */
module Peaks {
  import opened Num

  /** `Math.max(1, Math.floor(len / 2000))`. */
  function Stride(len: nat): (s: nat)
    ensures s >= 1
    ensures len < 4000 ==> s == 1
  {
    if len / 2000 > 1 then len / 2000 else 1
  }

  /** The largest magnitude among `data[lo..hi]`, 0 for an empty window. */
  function MaxAbs(data: seq<real>, lo: nat, hi: nat): real
    requires lo <= hi <= |data|
    decreases hi - lo
  {
    if lo == hi then 0.0 else MaxR(MaxAbs(data, lo, hi - 1), Abs(data[hi - 1]))
  }

  /** A window's peak is at least every magnitude in it, is never
      negative, and is either 0 or one of those magnitudes. */
  lemma {:induction false} MaxAbsFacts(data: seq<real>, lo: nat, hi: nat)
    requires lo <= hi <= |data|
    ensures MaxAbs(data, lo, hi) >= 0.0
    ensures forall j :: lo <= j < hi ==> Abs(data[j]) <= MaxAbs(data, lo, hi)
    ensures MaxAbs(data, lo, hi) == 0.0 || exists j :: lo <= j < hi && MaxAbs(data, lo, hi) == Abs(data[j])
    decreases hi - lo
  {
    if lo < hi {
      MaxAbsFacts(data, lo, hi - 1);
    }
  }

  /** The end of window k. */
  function WindowEnd(k: nat, stride: nat, len: nat): nat {
    if Span(k + 1, stride) < len then Span(k + 1, stride) else len
  }

  /** The peak of window k: samples [k·stride, min((k+1)·stride, len)). */
  function PeakAt(data: seq<real>, stride: nat, k: nat): real
    requires Span(k, stride) <= |data|
  {
    MaxAbs(data, Span(k, stride), WindowEnd(k, stride, |data|))
  }

  /** `ceil(len / stride)`. */
  function PeakCount(len: nat, stride: nat): nat
    requires stride >= 1
  {
    (len + stride - 1) / stride
  }

  /** If k windows of width s reach `len` and k - 1 do not, k is the ceiling. */
  lemma CeilOf(k: nat, s: nat, len: nat)
    requires s >= 1 && len <= Span(k, s) && (k == 0 || Span(k - 1, s) < len)
    ensures k == PeakCount(len, s)
  {
    var q := (len + s - 1) / s;
    DivMod(len + s - 1, s);
    if q < k {
      SpanMono(q, k - 1, s);
      assert false;
    }
    if q > k {
      SpanMono(k + 1, q, s);
      assert false;
    }
  }

  /** The inner loop of `makePeaks`: the largest magnitude from sample `i`
      up to the next stride or the end, whichever comes first. */
  method WindowMax(data: seq<real>, i: nat, stride: nat) returns (max: real)
    requires i <= |data|
    ensures max == MaxAbs(data, i, if i + stride < |data| then i + stride else |data|)
  {
    max := 0.0;
    var j := i;
    while j < i + stride && j < |data|
      invariant i <= j <= |data| && j <= i + stride
      invariant max == MaxAbs(data, i, j)
    {
      max := MaxR(max, Abs(data[j]));
      j := j + 1;
    }
  }

  /** Entry k of `peaks` is the peak of window k. */
  predicate PeakOk(data: seq<real>, stride: nat, peaks: seq<real>, k: nat)
    requires k < |peaks|
  {
    Span(k, stride) <= |data| && peaks[k] == PeakAt(data, stride, k)
  }

  /** `makePeaks` on channel 0 of the decoded audio. */
  method MakePeaks(data: seq<real>) returns (peaks: seq<real>)
    ensures |peaks| == PeakCount(|data|, Stride(|data|))
    ensures forall k :: 0 <= k < |peaks| ==>
      Span(k, Stride(|data|)) <= |data| && peaks[k] == PeakAt(data, Stride(|data|), k)
  {
    var len := |data|;
    var stride := Stride(len);
    peaks := [];
    var i := 0;
    while i < len
      invariant i == Span(|peaks|, stride)
      invariant |peaks| == 0 || Span(|peaks| - 1, stride) < len
      invariant forall k :: 0 <= k < |peaks| ==> PeakOk(data, stride, peaks, k)
    {
      var max := WindowMax(data, i, stride);
      ghost var k := |peaks|;
      assert Span(k + 1, stride) == i + stride;
      assert max == PeakAt(data, stride, k);
      ghost var old_peaks := peaks;
      peaks := peaks + [max];
      forall m | 0 <= m < |peaks|
        ensures PeakOk(data, stride, peaks, m)
      {
        if m < k {
          assert PeakOk(data, stride, old_peaks, m);
          assert peaks[m] == old_peaks[m];
        }
      }
      i := i + stride;
    }
    CeilOf(|peaks|, stride, len);
    forall k | 0 <= k < |peaks|
      ensures Span(k, stride) <= len && peaks[k] == PeakAt(data, stride, k)
    {
      assert PeakOk(data, stride, peaks, k);
    }
  }

  /** The windows tile the samples: sample j lies in window j / stride,
      and that window is one of the peaks. */
  lemma WindowOf(j: nat, stride: nat, len: nat)
    requires stride >= 1 && j < len
    ensures var k := j / stride;
      Span(k, stride) <= j < WindowEnd(k, stride, len) && k < PeakCount(len, stride)
  {
    var k := j / stride;
    DivMod(j, stride);
    DivAtLeast(k + 1, stride, len + stride - 1);
  }

  /** Empty audio gives no peaks and short audio one peak per sample; every
      window starts inside the data and every peak is non-negative. */
  lemma PeakCounts(data: seq<real>)
    ensures |data| == 0 ==> PeakCount(|data|, Stride(|data|)) == 0
    ensures |data| < 4000 ==> PeakCount(|data|, Stride(|data|)) == |data|
    ensures forall k :: 0 <= k < PeakCount(|data|, Stride(|data|)) ==>
      Span(k, Stride(|data|)) < |data| && PeakAt(data, Stride(|data|), k) >= 0.0
  {
    var s := Stride(|data|);
    var n := |data| + s - 1;
    forall k | 0 <= k < PeakCount(|data|, s)
      ensures Span(k, s) < |data| && PeakAt(data, s, k) >= 0.0
    {
      DivMod(n, s);
      SpanMono(k + 1, n / s, s);
      MaxAbsFacts(data, Span(k, s), WindowEnd(k, s, |data|));
    }
  }

  /** Every sample's magnitude is bounded by the peak of its window. */
  lemma PeaksCover(data: seq<real>, j: nat)
    requires j < |data|
    ensures var s := Stride(|data|); var k := j / s;
      k < PeakCount(|data|, s) && Span(k, s) <= j < WindowEnd(k, s, |data|) &&
      Abs(data[j]) <= PeakAt(data, s, k)
  {
    var s := Stride(|data|);
    var k := j / s;
    WindowOf(j, s, |data|);
    MaxAbsFacts(data, Span(k, s), WindowEnd(k, s, |data|));
  }
}
