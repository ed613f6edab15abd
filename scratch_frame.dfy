/** The per-sample state machine of the scratch render engine, as pure
    functions over a snapshot of the worklet's mutable fields. The worklet
    class in scratch_processor.dfy runs these stages step by step on its
    fields; the lemmas here state what each stage promises. */
module ScratchFrame {
  import opened Num

  /** One-pole smoothing factor per sample (`_rateSmoothing`). */
  const RateSmoothing: real := 0.0045
  /** Gate hysteresis: below this the gate mutes (`_zeroEnter`). */
  const ZeroEnter: real := 0.0035
  /** Gate hysteresis: above this the gate opens (`_zeroExit`). */
  const ZeroExit: real := 0.007
  /** Bound on the target rate and on the fling rate. */
  const RateLimit: real := 8.0
  /** A fling whose rate falls under this magnitude ends. */
  const FlingEndRate: real := 0.001
  /** A slew target closer than this many samples counts as reached. */
  const SlewDone: real := 0.25

  /** The fields `process` updates per frame. */
  datatype Voice = Voice(
    pos: real,              // _posSamples
    targetRate: real,       // _playbackRate
    smoothedRate: real,     // _smoothedRate
    hold: bool,             // _hold
    flingActive: bool,      // _flingActive
    flingRate: real,        // _flingRate
    gateGain: real,         // _gateGain
    gateMuted: bool,        // _gateMuted
    posTarget: Option<real> // _posTargetSamples (null = None)
  )

  /** Per-block coefficients the source derives with Math.exp; they are
      supplied by the caller with the ranges Math.exp guarantees. */
  datatype Coefs = Coefs(gateK: real, posSlewK: real, flingDecay: real)

  predicate ValidCoefs(k: Coefs) {
    0.0 < k.gateK <= 1.0 && 0.0 < k.posSlewK <= 1.0 && 0.0 < k.flingDecay <= 1.0
  }

  /** What every frame keeps: the gate gain is a gain, the fling rate is bounded. */
  predicate Sane(v: Voice) {
    0.0 <= v.gateGain <= 1.0 && Abs(v.flingRate) <= RateLimit
  }

  // ---------------------------------------------------------------------
  // Stage 1: rate resolution and near-zero snap

  function RateStage(v: Voice): (r: Voice)
    ensures r == v.(targetRate := r.targetRate, smoothedRate := r.smoothedRate)
    ensures v.hold ==> r.targetRate == 0.0 && r.smoothedRate == 0.0
    ensures !v.hold && v.flingActive ==> r.targetRate == v.flingRate && r.smoothedRate == v.flingRate
  {
    var v1 :=
      if v.hold then v.(targetRate := 0.0, smoothedRate := 0.0)
      else if v.flingActive then v.(targetRate := v.flingRate, smoothedRate := v.flingRate)
      else
        var target := Clamp(v.targetRate, -RateLimit, RateLimit);
        v.(smoothedRate := Lerp(v.smoothedRate, target, RateSmoothing));
    if !v1.flingActive && Abs(v1.targetRate) < ZeroEnter && Abs(v1.smoothedRate) < ZeroEnter
    then v1.(smoothedRate := 0.0)
    else v1
  }

  /** Outside hold and fling the smoothed rate takes one step of the one-pole
      filter toward the clamped target: it ends between its old value and that
      target, unless both target and result are under the snap threshold, in
      which case it is exactly 0. The target itself is untouched. */
  lemma RateStageSmooths(v: Voice)
    requires !v.hold && !v.flingActive
    ensures var c := Clamp(v.targetRate, -RateLimit, RateLimit);
            var r := RateStage(v);
            r.targetRate == v.targetRate &&
            (r.smoothedRate == 0.0 ||
             (MinR(v.smoothedRate, c) <= r.smoothedRate <= MaxR(v.smoothedRate, c)))
    ensures Abs(v.targetRate) < ZeroEnter && Abs(RateStage(v).smoothedRate) < ZeroEnter ==>
              RateStage(v).smoothedRate == 0.0
    ensures var c := Clamp(v.targetRate, -RateLimit, RateLimit);
            var l := Lerp(v.smoothedRate, c, RateSmoothing);
            RateStage(v).smoothedRate == 0.0 || RateStage(v).smoothedRate == l
    ensures var c := Clamp(v.targetRate, -RateLimit, RateLimit);
            var l := Lerp(v.smoothedRate, c, RateSmoothing);
            Abs(v.targetRate) >= ZeroEnter || Abs(l) >= ZeroEnter ==> RateStage(v).smoothedRate == l
  {
    var c := Clamp(v.targetRate, -RateLimit, RateLimit);
    StepToward(v.smoothedRate, c, RateSmoothing);
  }

  /** The smoothing never leaves [-8, 8] once inside it: the clamped target
      and the previous value both lie there. */
  lemma RateStageBounded(v: Voice)
    requires Abs(v.smoothedRate) <= RateLimit && Abs(v.flingRate) <= RateLimit
    ensures Abs(RateStage(v).smoothedRate) <= RateLimit
  {
    if !v.hold && !v.flingActive {
      RateStageSmooths(v);
    }
  }

  // ---------------------------------------------------------------------
  // Stage 2: mute gate with hysteresis and a smoothed gate gain

  function GateStage(v: Voice, gateK: real): (r: Voice)
    requires 0.0 < gateK <= 1.0
    ensures r == v.(gateMuted := r.gateMuted, gateGain := r.gateGain)
  {
    var muted :=
      if v.hold then true
      else if v.flingActive then false
      else
        var mag := Abs(v.smoothedRate);
        if v.gateMuted then !(mag > ZeroExit) else mag < ZeroEnter;
    var target := if muted then 0.0 else 1.0;
    v.(gateMuted := muted, gateGain := Lerp(v.gateGain, target, gateK))
  }

  /** The gate's latch: hold forces it shut, an active fling forces it open;
      otherwise a shut gate opens only above 0.007 and an open gate shuts only
      below 0.0035, so a magnitude between the two thresholds never changes it. */
  lemma GateHysteresis(v: Voice, gateK: real)
    requires 0.0 < gateK <= 1.0
    ensures v.hold ==> GateStage(v, gateK).gateMuted
    ensures !v.hold && v.flingActive ==> !GateStage(v, gateK).gateMuted
    ensures !v.hold && !v.flingActive && v.gateMuted ==>
              (GateStage(v, gateK).gateMuted <==> Abs(v.smoothedRate) <= ZeroExit)
    ensures !v.hold && !v.flingActive && !v.gateMuted ==>
              (GateStage(v, gateK).gateMuted <==> Abs(v.smoothedRate) < ZeroEnter)
    ensures !v.hold && !v.flingActive && ZeroEnter <= Abs(v.smoothedRate) <= ZeroExit ==>
              GateStage(v, gateK).gateMuted == v.gateMuted
  {
  }

  /** One step of the gain toward 0 or 1 by a factor in (0, 1] stays in
      [0, 1] and never moves away from its target. */
  lemma GainStep(g: real, target: real, k: real)
    requires 0.0 <= g <= 1.0 && (target == 0.0 || target == 1.0) && 0.0 < k <= 1.0
    ensures 0.0 <= Lerp(g, target, k) <= 1.0
    ensures Abs(Lerp(g, target, k) - target) <= Abs(g - target)
  {
    StepToward(g, target, k);
  }

  /** The gate gain stays a gain and moves toward 0 when muted, 1 when open. */
  lemma GateGainBounded(v: Voice, gateK: real)
    requires 0.0 < gateK <= 1.0 && 0.0 <= v.gateGain <= 1.0
    ensures var r := GateStage(v, gateK);
            0.0 <= r.gateGain <= 1.0 &&
            Abs(r.gateGain - (if r.gateMuted then 0.0 else 1.0)) <=
              Abs(v.gateGain - (if r.gateMuted then 0.0 else 1.0))
  {
    var r := GateStage(v, gateK);
    GainStep(v.gateGain, if r.gateMuted then 0.0 else 1.0, gateK);
  }

  // ---------------------------------------------------------------------
  // Stage 3: 4-point Catmull-Rom lookup

  /** The cubic through p1 (at t = 0) and p2 (at t = 1) with tangents from p0 and p3. */
  function Cubic(p0: real, p1: real, p2: real, p3: real, t: real): (s: real)
    ensures t == 0.0 ==> s == p1
    ensures t == 1.0 ==> s == p2
    ensures p0 == p1 == p2 == p3 ==> s == p1
  {
    var a0 := -0.5 * p0 + 1.5 * p1 - 1.5 * p2 + 0.5 * p3;
    var a1 := p0 - 2.5 * p1 + 2.0 * p2 - 0.5 * p3;
    var a2 := -0.5 * p0 + 0.5 * p2;
    var a3 := p1;
    ((a0 * t + a1) * t + a2) * t + a3
  }

  /** The four tap indices exactly as ScratchProcessor.js computes them: i0 is
      clamped below only. */
  function TapsAsWritten(idx: int, len: int): (int, int, int, int) {
    (if idx - 1 > 0 then idx - 1 else 0,
     if idx < len - 1 then (if idx > 0 then idx else 0) else (if len - 1 > 0 then len - 1 else 0),
     if idx + 1 < len - 1 then (if idx + 1 > 0 then idx + 1 else 0) else (if len - 1 > 0 then len - 1 else 0),
     if idx + 2 < len - 1 then (if idx + 2 > 0 then idx + 2 else 0) else (if len - 1 > 0 then len - 1 else 0))
  }

  function ClampIndex(i: int, len: int): (r: int)
    requires len >= 1
    ensures 0 <= r < len
    ensures 0 <= i < len ==> r == i
  {
    if i < 0 then 0 else if i > len - 1 then len - 1 else i
  }

  /** The corrected taps: every index clamped into the buffer. */
  function Taps(idx: int, len: int): (r: (int, int, int, int))
    requires len >= 1
    ensures 0 <= r.0 < len && 0 <= r.1 < len && 0 <= r.2 < len && 0 <= r.3 < len
    ensures 1 <= idx && idx + 2 < len ==> r == (idx - 1, idx, idx + 1, idx + 2)
  {
    (ClampIndex(idx - 1, len), ClampIndex(idx, len), ClampIndex(idx + 1, len), ClampIndex(idx + 2, len))
  }

  /** As written, a read index two or more past the end leaves i0 outside
      the channel (JavaScript then reads `undefined` and the sample is NaN). */
  lemma TapsAsWrittenOverrun(len: int)
    requires len >= 1
    ensures TapsAsWritten(len + 1, len).0 == len
  {
  }

  /** Where the read index is at most the buffer length, the code as written
      and the corrected taps agree. */
  lemma TapsAgreeInRange(idx: int, len: int)
    requires len >= 1 && idx <= len
    ensures TapsAsWritten(idx, len) == Taps(idx, len)
  {
  }

  /** The channel an output channel reads: its own, or channel 0 when the
      buffer has fewer channels. */
  function SourceChannel(channels: seq<seq<real>>, ch: nat): (src: seq<real>)
    requires |channels| > 0
    ensures ch < |channels| ==> src == channels[ch]
    ensures ch >= |channels| ==> src == channels[0]
  {
    if ch < |channels| then channels[ch] else channels[0]
  }

  /** The pre-gain sample of one channel: 0 when muted, otherwise the clamped
      cubic at the resampled read position. */
  function Sample(m: Voice, src: seq<real>, resample: real): (s: real)
    requires |src| >= 1
    ensures -1.0 <= s <= 1.0
    ensures m.gateMuted ==> s == 0.0
    ensures !m.gateMuted && Mul(m.pos, resample).Floor as real == Mul(m.pos, resample) &&
            0 <= Mul(m.pos, resample).Floor < |src| ==>
              s == Clamp(src[Mul(m.pos, resample).Floor], -1.0, 1.0)
  {
    if m.gateMuted then 0.0
    else
      var bufIndex := Mul(m.pos, resample);
      var idx := bufIndex.Floor;
      var frac := bufIndex - idx as real;
      var taps := Taps(idx, |src|);
      var s := Cubic(src[taps.0], src[taps.1], src[taps.2], src[taps.3], frac);
      if s > 1.0 then 1.0 else if s < -1.0 then -1.0 else s
  }

  /** What is written to the output: the sample times the gate gain. */
  function FrameOut(m: Voice, src: seq<real>, resample: real): (o: real)
    requires |src| >= 1
    ensures 0.0 <= m.gateGain <= 1.0 ==> -1.0 <= o <= 1.0
    ensures m.gateMuted ==> o == 0.0
  {
    var s := Sample(m, src, resample);
    GainBounds(s, m.gateGain);
    Mul(s, m.gateGain)
  }

  lemma GainBounds(s: real, g: real)
    requires -1.0 <= s <= 1.0
    ensures 0.0 <= g <= 1.0 ==> -1.0 <= Mul(s, g) <= 1.0
  {
    if 0.0 <= g <= 1.0 {
      if s >= 0.0 {
        MulAtMost(g, s);
        assert g * s <= g;
      } else {
        MulAtMost(g, -s);
        assert g * (-s) <= g;
        assert s * g == -(g * (-s));
      }
    }
  }

  // ---------------------------------------------------------------------
  // Stage 4: position integration, slew and clamp

  /** The position after integration, before slew. */
  function Integrated(v: Voice): real {
    var suppressed := v.hold || (!v.flingActive && v.gateMuted);
    var p1 := if !suppressed then v.pos + v.smoothedRate else v.pos;
    if v.flingActive && v.gateMuted then p1 + v.smoothedRate else p1
  }

  /** The end-of-frame clamp: below 0 goes to 0, at or past a non-zero
      maxPos goes to maxPos - 1. */
  function ClampPos(p: real, maxPos: real): (r: real)
    ensures 0.0 <= p < maxPos ==> r == p
    ensures maxPos >= 1.0 ==> 0.0 <= r < maxPos
    ensures maxPos < 0.0 ==> r == maxPos - 1.0
  {
    var p4 := if p < 0.0 then 0.0 else p;
    if maxPos != 0.0 && p4 >= maxPos then maxPos - 1.0 else p4
  }

  /** Slew toward a pending target; the target is dropped once the position
      before this step is within a quarter sample of it. */
  function SlewStage(v: Voice, posSlewK: real): (r: Voice)
    ensures r == v.(pos := r.pos, posTarget := r.posTarget)
  {
    match v.posTarget
    case None => v
    case Some(t) =>
      v.(pos := Lerp(v.pos, t, posSlewK),
         posTarget := if Abs(t - v.pos) < SlewDone then None else Some(t))
  }

  function MoveStage(v: Voice, posSlewK: real, maxPos: real): (r: Voice)
    ensures r == v.(pos := r.pos, posTarget := r.posTarget)
  {
    var s := SlewStage(v.(pos := Integrated(v)), posSlewK);
    s.(pos := ClampPos(s.pos, maxPos))
  }

  /** After the clamp the position lies in [0, maxPos), when maxPos >= 1. */
  lemma MoveStageInRange(v: Voice, posSlewK: real, maxPos: real)
    requires maxPos >= 1.0
    ensures 0.0 <= MoveStage(v, posSlewK, maxPos).pos < maxPos
  {
  }

  // ---------------------------------------------------------------------
  // Stage 5: fling decay

  /** Returns the new state and whether the fling ended on this frame. */
  function FlingStage(v: Voice, decay: real): (r: (Voice, bool))
    ensures r.0 == v.(flingActive := r.0.flingActive, flingRate := r.0.flingRate,
                      targetRate := r.0.targetRate, smoothedRate := r.0.smoothedRate)
    ensures !v.flingActive ==> r == (v, false)
  {
    if !v.flingActive then (v, false)
    else
      var fr := Clamp(Mul(v.flingRate, decay), -RateLimit, RateLimit);
      if Abs(fr) < FlingEndRate
      then (v.(flingActive := false, flingRate := fr, targetRate := 0.0, smoothedRate := 0.0), true)
      else (v.(flingRate := fr), false)
  }

  /** A fling's rate stays in [-8, 8] and decays in magnitude; it ends exactly
      when the decayed rate drops under 1e-3, and then both rates are 0. */
  lemma FlingDecays(v: Voice, decay: real)
    requires v.flingActive && Abs(v.flingRate) <= RateLimit && 0.0 < decay <= 1.0
    ensures Abs(FlingStage(v, decay).0.flingRate) <= Abs(v.flingRate)
    ensures decay < 1.0 && v.flingRate != 0.0 ==>
              Abs(FlingStage(v, decay).0.flingRate) < Abs(v.flingRate)
    ensures FlingStage(v, decay).1 <==> Abs(Mul(v.flingRate, decay)) < FlingEndRate
    ensures FlingStage(v, decay).1 ==>
              var w := FlingStage(v, decay).0;
              !w.flingActive && w.targetRate == 0.0 && w.smoothedRate == 0.0
    ensures !FlingStage(v, decay).1 ==>
              var w := FlingStage(v, decay).0;
              w.flingActive && w.flingRate == Mul(v.flingRate, decay)
  {
    var x := Mul(v.flingRate, decay);
    AbsScale(v.flingRate, decay);
    assert -RateLimit <= x <= RateLimit;
    assert Clamp(x, -RateLimit, RateLimit) == x;
    assert FlingStage(v, decay).0.flingRate == x;
  }

  // ---------------------------------------------------------------------
  // One frame, and a block of frames

  /** The state after rate resolution and the gate: the one the sample is read from. */
  function Mid(v: Voice, k: Coefs): Voice
    requires ValidCoefs(k)
  {
    GateStage(RateStage(v), k.gateK)
  }

  function StepFrame(v: Voice, k: Coefs, maxPos: real): Voice
    requires ValidCoefs(k)
  {
    FlingStage(MoveStage(Mid(v, k), k.posSlewK, maxPos), k.flingDecay).0
  }

  function EndsFling(v: Voice, k: Coefs, maxPos: real): bool
    requires ValidCoefs(k)
  {
    FlingStage(MoveStage(Mid(v, k), k.posSlewK, maxPos), k.flingDecay).1
  }

  /** The state after n frames. */
  function Run(v: Voice, n: nat, k: Coefs, maxPos: real): Voice
    requires ValidCoefs(k)
  {
    if n == 0 then v else StepFrame(Run(v, n - 1, k, maxPos), k, maxPos)
  }

  /** Whether some frame among the first n ended the fling. */
  function EndedWithin(v: Voice, n: nat, k: Coefs, maxPos: real): bool
    requires ValidCoefs(k)
  {
    n > 0 && (EndedWithin(v, n - 1, k, maxPos) || EndsFling(Run(v, n - 1, k, maxPos), k, maxPos))
  }

  /** Position moves by the smoothed rate exactly once per frame unless the
      frame is held, or muted outside a fling: the second advance the source
      makes for a muted fling only ever adds a held rate of 0. */
  lemma IntegratesOnce(v: Voice, k: Coefs)
    requires ValidCoefs(k)
    ensures var m := Mid(v, k);
            Integrated(m) == m.pos + (if m.hold || (!m.flingActive && m.gateMuted) then 0.0 else m.smoothedRate)
  {
    var m := Mid(v, k);
    GateHysteresis(RateStage(v), k.gateK);
    if m.flingActive && m.gateMuted {
      assert m.hold;
      assert m.smoothedRate == 0.0;
    }
  }

  /** The move stage of a frame that does not integrate, with no target:
      the position stays put. */
  lemma StillWithoutTarget(m: Voice, k: real, maxPos: real)
    requires Integrated(m) == m.pos && 0.0 <= m.pos < maxPos && m.posTarget == None
    ensures MoveStage(m, k, maxPos).pos == m.pos && MoveStage(m, k, maxPos).posTarget == None
  {
  }

  /** The move stage of a frame that does not integrate, with a target: the
      slew alone moves the position, toward the target, and drops the target
      once within a quarter sample. */
  lemma SlewToward(m: Voice, k: real, maxPos: real)
    requires 0.0 < k <= 1.0 && Integrated(m) == m.pos && m.posTarget.Some?
    requires 0.0 <= m.pos < maxPos && 0.0 <= m.posTarget.value < maxPos
    ensures var t := m.posTarget.value;
            MinR(m.pos, t) <= MoveStage(m, k, maxPos).pos <= MaxR(m.pos, t)
  {
    var t := m.posTarget.value;
    var p3 := Lerp(m.pos, t, k);
    StepToward(m.pos, t, k);
    assert MinR(m.pos, t) <= p3;
    assert p3 <= MaxR(m.pos, t);
    assert 0.0 <= MinR(m.pos, t);
    assert MaxR(m.pos, t) < maxPos;
    assert SlewStage(m, k).pos == p3;
    assert ClampPos(p3, maxPos) == p3;
  }

  /** Whatever moves the position, the slew target is kept until the
      integrated position is within a quarter sample of it. */
  lemma SlewTargetKept(m: Voice, k: real, maxPos: real)
    requires m.posTarget.Some?
    ensures var w := MoveStage(m, k, maxPos);
            (w.posTarget == None <==> Abs(m.posTarget.value - Integrated(m)) < SlewDone) &&
            (w.posTarget != None ==> w.posTarget == m.posTarget)
  {
  }

  /** While holding, the position moves only through the slew: without a
      target it stays put, and with a target inside the buffer it ends between
      where it was and the target; the target is dropped once it is within a
      quarter sample. */
  lemma HoldOnlySlews(v: Voice, k: Coefs, maxPos: real)
    requires ValidCoefs(k) && v.hold && 0.0 <= v.pos < maxPos
    ensures var r := StepFrame(v, k, maxPos);
            (v.posTarget == None ==> r.pos == v.pos && r.posTarget == None) &&
            (v.posTarget.Some? && 0.0 <= v.posTarget.value < maxPos ==>
               MinR(v.pos, v.posTarget.value) <= r.pos <= MaxR(v.pos, v.posTarget.value)) &&
            (v.posTarget.Some? ==>
               (r.posTarget == None <==> Abs(v.posTarget.value - v.pos) < SlewDone) &&
               (r.posTarget != None ==> r.posTarget == v.posTarget))
  {
    var m := Mid(v, k);
    IntegratesOnce(v, k);
    assert m.pos == v.pos && m.posTarget == v.posTarget && m.hold;
    if m.posTarget == None {
      StillWithoutTarget(m, k.posSlewK, maxPos);
    } else {
      SlewTargetKept(m, k.posSlewK, maxPos);
      if 0.0 <= m.posTarget.value < maxPos {
        SlewToward(m, k.posSlewK, maxPos);
      }
    }
    var w := MoveStage(m, k.posSlewK, maxPos);
    assert StepFrame(v, k, maxPos) == FlingStage(w, k.flingDecay).0;
  }

  /** One frame keeps the gate gain in [0, 1] and the fling rate in [-8, 8];
      a smoothed rate that starts inside [-8, 8] stays there. */
  lemma StepFrameSane(v: Voice, k: Coefs, maxPos: real)
    requires ValidCoefs(k) && Sane(v)
    ensures Sane(StepFrame(v, k, maxPos))
    ensures 0.0 <= Mid(v, k).gateGain <= 1.0
    ensures Abs(v.smoothedRate) <= RateLimit ==> Abs(StepFrame(v, k, maxPos).smoothedRate) <= RateLimit
  {
    if Abs(v.smoothedRate) <= RateLimit {
      RateStageBounded(v);
    }
    GateGainBounded(RateStage(v), k.gateK);
    var w := MoveStage(Mid(v, k), k.posSlewK, maxPos);
    if w.flingActive {
      FlingDecays(w, k.flingDecay);
    }
  }

  /** Every frame of a block keeps the invariant, and a smoothed rate that
      starts the block inside [-8, 8] stays there. */
  lemma {:induction false} RunSane(v: Voice, n: nat, k: Coefs, maxPos: real)
    requires ValidCoefs(k) && Sane(v)
    ensures Sane(Run(v, n, k, maxPos))
    ensures 0.0 <= Mid(Run(v, n, k, maxPos), k).gateGain <= 1.0
    ensures Abs(v.smoothedRate) <= RateLimit ==> Abs(Run(v, n, k, maxPos).smoothedRate) <= RateLimit
  {
    if n > 0 {
      RunSane(v, n - 1, k, maxPos);
      StepFrameSane(Run(v, n - 1, k, maxPos), k, maxPos);
    }
    StepFrameSane(Run(v, n, k, maxPos), k, maxPos);
  }

  /** After at least one frame the position lies in [0, maxPos). */
  lemma RunInRange(v: Voice, n: nat, k: Coefs, maxPos: real)
    requires ValidCoefs(k) && maxPos >= 1.0 && n >= 1
    ensures 0.0 <= Run(v, n, k, maxPos).pos < maxPos
  {
    MoveStageInRange(Mid(Run(v, n - 1, k, maxPos), k), k.posSlewK, maxPos);
  }

  /** With a negative end (a buffer sent with a negative rate) every frame
      leaves the position one sample below that end: the clamp to 0 puts it
      at or past the end, and the end clamp then applies. */
  lemma {:induction false} RunParksBelowEnd(v: Voice, n: nat, k: Coefs, maxPos: real)
    requires ValidCoefs(k) && maxPos < 0.0 && n >= 1
    ensures Run(v, n, k, maxPos).pos == maxPos - 1.0
  {
    var m := Mid(Run(v, n - 1, k, maxPos), k);
    assert StepFrame(Run(v, n - 1, k, maxPos), k, maxPos).pos == MoveStage(m, k.posSlewK, maxPos).pos;
  }

  /** No frame starts a fling: a fling-free frame stays fling-free and ends nothing. */
  lemma FlingFreeStays(v: Voice, k: Coefs, maxPos: real)
    requires ValidCoefs(k) && !v.flingActive
    ensures !StepFrame(v, k, maxPos).flingActive && !EndsFling(v, k, maxPos)
  {
    var w := MoveStage(Mid(v, k), k.posSlewK, maxPos);
    assert !w.flingActive;
  }

  /** Once a frame ends the fling, later frames of the block are fling-free,
      so a block ends at most one fling. */
  lemma {:induction false} NoFlingAfterEnd(v: Voice, j: nat, n: nat, k: Coefs, maxPos: real)
    requires ValidCoefs(k) && j < n && EndsFling(Run(v, j, k, maxPos), k, maxPos)
    ensures !Run(v, n, k, maxPos).flingActive
    ensures n > j + 1 ==> !EndsFling(Run(v, n - 1, k, maxPos), k, maxPos)
  {
    if n == j + 1 {
      var w := MoveStage(Mid(Run(v, j, k, maxPos), k), k.posSlewK, maxPos);
      assert w.flingActive;
    } else {
      NoFlingAfterEnd(v, j, n - 1, k, maxPos);
      FlingFreeStays(Run(v, n - 1, k, maxPos), k, maxPos);
    }
  }
}
