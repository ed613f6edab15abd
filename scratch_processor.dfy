/** The scratch render engine as a class over its mutable fields: the
    message handler, specified by a pure command semantics `Apply`, and the
    per-block `Process` loop, proved to run the frame stages of ScratchFrame
    one frame at a time. */
module ScratchWorklet {
  import opened Num
  import opened ScratchFrame

  /** `setRate` snaps a commanded rate under this magnitude to 0. */
  const RateSnap: real := 0.005
  /** `fling` clamps its initial rate to [-4, 4]. */
  const FlingMax: real := 4.0
  /** A fling starts only above this magnitude. */
  const FlingStartRate: real := 0.0005
  /** Fling decay time constant when none (or a non-positive one) is given. */
  const DefaultFlingTau: real := 0.4
  /** The gate gain a fling starts from at least. */
  const FlingGateHeadStart: real := 0.12

  /** The messages the worklet understands. A field the source reads with
      `typeof ... === 'number'` or `Number(...) || 0` is an Option: None
      stands for a missing value or NaN. */
  datatype Command =
    | SetBuffer(channels: seq<seq<real>>, bufferRate: Option<real>)
    | StartScratch(position: Option<real>, playbackRate: Option<real>)
    | SetPosition(position: Option<real>)
    | SetRate(playbackRate: Option<real>)
    | StopScratch
    | SetHold(holding: bool)
    | Fling(rate: Option<real>, tau: Option<real>)
    | Other  // any other `cmd` is ignored

  /** A snapshot of every field of the worklet. */
  datatype Worklet = Worklet(
    channels: seq<seq<real>>,
    bufLen: nat,
    bufSampleRate: real,
    resample: real,
    scratchActive: bool,
    flingTau: real,
    flingEndedFlag: bool,
    voice: Voice
  )

  /** What every message keeps. The resample ratio is never 0, but it is
      negative after a buffer sent with a negative rate; the channels may
      differ in length, and `bufLen` is the first one's. */
  predicate ValidWorklet(w: Worklet) {
    w.resample != 0.0 && w.flingTau > 0.0 && Sane(w.voice) &&
    w.bufLen == (if |w.channels| == 0 then 0 else |w.channels[0]|)
  }

  /** Every channel holds at least one sample, so each cubic tap reads a
      number (an empty channel is read as `undefined`, giving NaN). */
  predicate ChannelsFilled(chs: seq<seq<real>>) {
    forall i :: 0 <= i < |chs| ==> |chs[i]| >= 1
  }

  function Initial(sampleRate: real): Worklet {
    Worklet([], 0, sampleRate, 1.0, false, DefaultFlingTau, false,
            Voice(0.0, 1.0, 1.0, false, false, 0.0, 0.0, true, None))
  }

  function OrZero(x: Option<real>): real {
    if x.Some? then x.value else 0.0
  }

  /** The effect of one message on the fields (`_onMessage`). */
  function Apply(w: Worklet, c: Command, sampleRate: real): Worklet
    requires sampleRate > 0.0
  {
    match c
    case SetBuffer(chs, rate) => SetBufferEffect(w, chs, rate, sampleRate)
    case StartScratch(position, rate) => StartScratchEffect(w, position, rate, sampleRate)
    case SetPosition(position) => SetPositionEffect(w, position, sampleRate)
    case SetRate(rate) => SetRateEffect(w, rate)
    case StopScratch => w.(scratchActive := false)
    case SetHold(h) => SetHoldEffect(w, h)
    case Fling(rate, tau) => FlingEffect(w, rate, tau)
    case Other => w
  }

  function SetBufferEffect(w: Worklet, chs: seq<seq<real>>, rate: Option<real>, sampleRate: real): Worklet
    requires sampleRate > 0.0
  {
    if |chs| == 0 then w
    else
      var bsr := if rate.Some? then rate.value else sampleRate;
      var res := Div(if bsr != 0.0 then bsr else sampleRate, sampleRate);
      var len := |chs[0]|;
      var w1 := w.(channels := chs, bufLen := len, bufSampleRate := bsr, resample := res);
      if res != 0.0 && w.voice.pos >= Div(len as real, res) then w1.(voice := w.voice.(pos := 0.0)) else w1
  }

  function StartScratchEffect(w: Worklet, position: Option<real>, rate: Option<real>, sampleRate: real): Worklet {
    var p := Mul(OrZero(position), sampleRate);
    var r := OrZero(rate);
    w.(voice := w.voice.(pos := p, posTarget := Some(p), targetRate := r, smoothedRate := r,
                         flingActive := false, flingRate := 0.0),
       flingEndedFlag := false, scratchActive := true)
  }

  function SetPositionEffect(w: Worklet, position: Option<real>, sampleRate: real): Worklet {
    var t := Mul(OrZero(position), sampleRate);
    var v1 := w.voice.(posTarget := Some(t));
    if w.voice.flingActive
    then w.(voice := v1.(flingActive := false, flingRate := 0.0), flingEndedFlag := false, scratchActive := true)
    else w.(voice := v1, scratchActive := true)
  }

  function SetRateEffect(w: Worklet, rate: Option<real>): Worklet {
    if rate.None? then w
    else if Abs(rate.value) < RateSnap then w.(voice := w.voice.(targetRate := 0.0, smoothedRate := 0.0))
    else w.(voice := w.voice.(targetRate := rate.value))
  }

  function SetHoldEffect(w: Worklet, h: bool): Worklet {
    if h then w.(voice := w.voice.(hold := true, targetRate := 0.0, smoothedRate := 0.0))
    else w.(voice := w.voice.(hold := false))
  }

  /** The fling's decay time constant: the one given if positive, else 0.4 s. */
  function FlingTau(tau: Option<real>): (t: real)
    ensures t > 0.0
  {
    if tau.Some? && tau.value > 0.0 then tau.value else DefaultFlingTau
  }

  /** A fling starts only with a rate above 0.0005 in magnitude. */
  predicate StartsFling(r: real) {
    Abs(r) > FlingStartRate
  }

  function FlingEffect(w: Worklet, rate: Option<real>, tau: Option<real>): Worklet {
    var r := Clamp(OrZero(rate), -FlingMax, FlingMax);
    var tc := FlingTau(tau);
    var g := MaxR(w.voice.gateGain, FlingGateHeadStart);
    w.(voice := w.voice.(hold := false, flingActive := StartsFling(r), flingRate := r,
                         targetRate := r, smoothedRate := r, posTarget := None, gateMuted := false,
                         gateGain := g),
       flingTau := tc, scratchActive := true, flingEndedFlag := false)
  }

  /** A quotient over a positive divisor has the dividend's sign. */
  lemma DivSign(a: real, b: real)
    requires b > 0.0
    ensures a > 0.0 ==> Div(a, b) > 0.0
    ensures a < 0.0 ==> Div(a, b) < 0.0
  {
  }

  /** Every message keeps the worklet's invariant, whatever channels and
      rate a `setBuffer` carries. */
  lemma ApplyValid(w: Worklet, c: Command, sampleRate: real)
    requires sampleRate > 0.0 && ValidWorklet(w)
    ensures ValidWorklet(Apply(w, c, sampleRate))
  {
    if c.SetBuffer? && |c.channels| > 0 {
      var bsr := if c.bufferRate.Some? then c.bufferRate.value else sampleRate;
      DivSign(if bsr != 0.0 then bsr else sampleRate, sampleRate);
    }
  }

  /** Only `setBuffer` changes the audio; a buffer swap leaves the position
      where it was if it still lies inside the new buffer and rewinds it to 0
      otherwise. The ratio has the sign of the rate sent; a missing or zero
      rate means the context's own. */
  lemma SetBufferKeepsPositionInside(w: Worklet, chs: seq<seq<real>>, rate: Option<real>, sampleRate: real)
    requires sampleRate > 0.0 && |chs| > 0
    ensures var r := Apply(w, SetBuffer(chs, rate), sampleRate);
            r.channels == chs && r.bufLen == |chs[0]| && r.resample != 0.0 &&
            (rate.None? || rate.value >= 0.0 <==> r.resample > 0.0) &&
            r.bufSampleRate == (if rate.Some? then rate.value else sampleRate) &&
            r.resample == Div(if r.bufSampleRate != 0.0 then r.bufSampleRate else sampleRate, sampleRate) &&
            (w.voice.pos < Div(|chs[0]| as real, r.resample) ==> r.voice == w.voice) &&
            (w.voice.pos >= Div(|chs[0]| as real, r.resample) ==> r.voice == w.voice.(pos := 0.0))
  {
    var bsr := if rate.Some? then rate.value else sampleRate;
    var base := if bsr != 0.0 then bsr else sampleRate;
    DivSign(base, sampleRate);
    var r := Apply(w, SetBuffer(chs, rate), sampleRate);
    assert r.resample == Div(base, sampleRate);
  }

  /** A buffer sent with a negative rate gets a negative ratio and a negative
      end, so every rendered block parks the position one sample below that
      end (ScratchFrame.RunParksBelowEnd) instead of playing it. */
  lemma NegativeRateParks(w: Worklet, chs: seq<seq<real>>, x: real, sampleRate: real, n: nat, k: Coefs)
    requires sampleRate > 0.0 && |chs| > 0 && |chs[0]| > 0 && x < 0.0 && n >= 1 && ValidCoefs(k)
    ensures var r := Apply(w, SetBuffer(chs, Some(x)), sampleRate);
            r.resample < 0.0 && MaxPos(r) < 0.0 &&
            Run(r.voice, n, k, MaxPos(r)).pos == MaxPos(r) - 1.0
  {
    var r := Apply(w, SetBuffer(chs, Some(x)), sampleRate);
    DivSign(x, sampleRate);
    assert r.resample == Div(x, sampleRate);
    assert MaxPos(r) < 0.0;
    RunParksBelowEnd(r.voice, n, k, MaxPos(r));
  }

  /** A `setBuffer` without channels is ignored. */
  lemma SetBufferEmptyIgnored(w: Worklet, rate: Option<real>, sampleRate: real)
    requires sampleRate > 0.0
    ensures Apply(w, SetBuffer([], rate), sampleRate) == w
  {
  }

  /** Messages other than `setBuffer` never touch the audio data. */
  lemma CommandsKeepBuffer(w: Worklet, c: Command, sampleRate: real)
    requires sampleRate > 0.0 && !c.SetBuffer?
    ensures var r := Apply(w, c, sampleRate);
            r.channels == w.channels && r.bufLen == w.bufLen && r.resample == w.resample
  {
  }

  /** `startScratch` jumps (not slews) to the position, cancels any fling and
      re-arms the fling-end notice; `setPosition` only sets a slew target and
      also cancels a fling. */
  lemma PositionCommands(w: Worklet, position: Option<real>, rate: Option<real>, sampleRate: real)
    requires sampleRate > 0.0
    ensures var r := Apply(w, StartScratch(position, rate), sampleRate);
            r.voice.pos == Mul(OrZero(position), sampleRate) && r.voice.posTarget == Some(r.voice.pos) &&
            !r.voice.flingActive && !r.flingEndedFlag && r.scratchActive &&
            r.voice.targetRate == r.voice.smoothedRate
    ensures var r := Apply(w, SetPosition(position), sampleRate);
            r.voice.pos == w.voice.pos && r.voice.posTarget == Some(Mul(OrZero(position), sampleRate)) &&
            !r.voice.flingActive && r.scratchActive &&
            (w.voice.flingActive ==> !r.flingEndedFlag) &&
            (!w.voice.flingActive ==> r.flingEndedFlag == w.flingEndedFlag)
  {
  }

  /** `setRate` keeps the commanded rate as the target unless it is under
      5e-3, in which case target and smoothed rate are both snapped to 0. */
  lemma SetRateSnaps(w: Worklet, rate: real, sampleRate: real)
    requires sampleRate > 0.0
    ensures var r := Apply(w, SetRate(Some(rate)), sampleRate);
            (r.voice.targetRate == 0.0 <==> Abs(rate) < RateSnap) &&
            (Abs(rate) < RateSnap ==> r.voice.smoothedRate == 0.0) &&
            (Abs(rate) >= RateSnap ==> r.voice == w.voice.(targetRate := rate))
  {
  }

  /** Engaging hold zeroes both rates, so the next frame leaves the position
      to the slew alone (see HoldOnlySlews). */
  lemma HoldStopsMotion(w: Worklet, sampleRate: real)
    requires sampleRate > 0.0
    ensures var r := Apply(w, SetHold(true), sampleRate);
            r.voice.hold && r.voice.targetRate == 0.0 && r.voice.smoothedRate == 0.0 &&
            r.voice.pos == w.voice.pos
  {
  }

  /** A fling releases hold, opens the gate with a head start, drops any slew
      target, drives both rates with its clamped rate, and is active exactly
      when that rate exceeds 0.0005 in magnitude. */
  lemma FlingStarts(w: Worklet, rate: Option<real>, tau: Option<real>, sampleRate: real)
    requires sampleRate > 0.0 && ValidWorklet(w)
    ensures var r := Apply(w, Fling(rate, tau), sampleRate);
            var fr := r.voice.flingRate;
            !r.voice.hold && r.scratchActive && !r.voice.gateMuted && r.voice.posTarget == None &&
            -FlingMax <= fr <= FlingMax && r.voice.targetRate == fr && r.voice.smoothedRate == fr &&
            (r.voice.flingActive <==> Abs(fr) > FlingStartRate) &&
            FlingGateHeadStart <= r.voice.gateGain <= 1.0 && r.voice.gateGain >= w.voice.gateGain &&
            r.flingTau > 0.0 && (tau.Some? && tau.value > 0.0 ==> r.flingTau == tau.value) &&
            !r.flingEndedFlag && r.voice.pos == w.voice.pos
  {
  }

  // ---------------------------------------------------------------------
  // One block

  /** Whether `process` renders audio, or fills silence. */
  predicate Renders(w: Worklet) {
    w.scratchActive && |w.channels| > 0 && w.bufLen != 0
  }

  function MaxPos(w: Worklet): real
    requires w.resample != 0.0
  {
    Div(w.bufLen as real, w.resample)
  }

  /** The per-block coefficients: the faster gate while a fling is running,
      and no decay outside a fling. */
  function BlockCoefs(w: Worklet, gateK: real, gateKFling: real, posSlewK: real, flingDecay: real): Coefs {
    Coefs(if w.voice.flingActive then gateKFling else gateK,
          posSlewK,
          if w.voice.flingActive && w.flingTau > 0.0 then flingDecay else 1.0)
  }

  /** The value `process` writes for output channel c at frame j of a block
      that starts in state w. */
  function BlockOut(w: Worklet, k: Coefs, c: nat, j: nat): real
    requires ValidWorklet(w) && Renders(w) && ChannelsFilled(w.channels) && ValidCoefs(k)
  {
    var src := SourceChannel(w.channels, c);
    assert |src| >= 1;
    FrameOut(Mid(Run(w.voice, j, k, MaxPos(w)), k), src, w.resample)
  }

  /** A rendered block's samples are all within [-1, 1]. */
  lemma BlockOutBounded(w: Worklet, k: Coefs, c: nat, j: nat)
    requires ValidWorklet(w) && Renders(w) && ChannelsFilled(w.channels) && ValidCoefs(k)
    ensures -1.0 <= BlockOut(w, k, c, j) <= 1.0
  {
    RunSane(w.voice, j, k, MaxPos(w));
  }

  class ScratchProcessor {
    /** The context's sample rate (the worklet global `sampleRate`). */
    const sampleRate: real

    var channels: seq<seq<real>>
    var bufLen: nat
    var bufSampleRate: real
    var resample: real
    var pos: real
    var targetRate: real
    var smoothedRate: real
    var scratchActive: bool
    var hold: bool
    var flingActive: bool
    var flingRate: real
    var flingTau: real
    var flingEndedFlag: bool
    var gateGain: real
    var gateMuted: bool
    var posTarget: Option<real>

    function State(): Voice
      reads this
    {
      Voice(pos, targetRate, smoothedRate, hold, flingActive, flingRate, gateGain, gateMuted, posTarget)
    }

    function Snap(): Worklet
      reads this
    {
      Worklet(channels, bufLen, bufSampleRate, resample, scratchActive, flingTau, flingEndedFlag, State())
    }

    predicate Valid()
      reads this
    {
      sampleRate > 0.0 && ValidWorklet(Snap())
    }

    constructor(sr: real)
      requires sr > 0.0
      ensures Valid() && sampleRate == sr && Snap() == Initial(sr)
    {
      sampleRate := sr;
      channels := [];
      bufLen := 0;
      bufSampleRate := sr;
      resample := 1.0;
      pos := 0.0;
      targetRate := 1.0;
      smoothedRate := 1.0;
      scratchActive := false;
      hold := false;
      flingActive := false;
      flingRate := 0.0;
      flingTau := DefaultFlingTau;
      flingEndedFlag := false;
      gateGain := 0.0;
      gateMuted := true;
      posTarget := None;
    }

    /** `_onMessage`. */
    method OnMessage(c: Command)
      requires Valid()
      modifies this
      ensures Valid()
      ensures Snap() == Apply(old(Snap()), c, sampleRate)
    {
      ApplyValid(Snap(), c, sampleRate);
      match c
      case SetBuffer(chs, rate) => SetBufferCmd(chs, rate);
      case StartScratch(position, rate) => StartScratchCmd(position, rate);
      case SetPosition(position) => SetPositionCmd(position);
      case SetRate(rate) => SetRateCmd(rate);
      case StopScratch => scratchActive := false;
      case SetHold(h) => SetHoldCmd(h);
      case Fling(rate, tau) => FlingCmd(rate, tau);
      case Other =>
    }

    method SetBufferCmd(chs: seq<seq<real>>, rate: Option<real>)
      requires sampleRate > 0.0
      modifies this
      ensures Snap() == SetBufferEffect(old(Snap()), chs, rate, sampleRate)
    {
      if |chs| > 0 {
        channels := chs;
        bufLen := |chs[0]|;
        bufSampleRate := if rate.Some? then rate.value else sampleRate;
        resample := Div(if bufSampleRate != 0.0 then bufSampleRate else sampleRate, sampleRate);
        if resample != 0.0 && pos >= Div(bufLen as real, resample) {
          pos := 0.0;
        }
      }
    }

    method StartScratchCmd(position: Option<real>, rate: Option<real>)
      requires sampleRate > 0.0
      modifies this
      ensures Snap() == StartScratchEffect(old(Snap()), position, rate, sampleRate)
    {
      var r := OrZero(rate);
      pos := Mul(OrZero(position), sampleRate);
      posTarget := Some(pos);
      targetRate := r;
      smoothedRate := r;
      flingActive := false;
      flingRate := 0.0;
      flingEndedFlag := false;
      scratchActive := true;
      assert State() == old(State()).(pos := pos, posTarget := Some(pos), targetRate := r, smoothedRate := r,
                     flingActive := false, flingRate := 0.0);
      assert Snap() == old(Snap()).(voice := State(), flingEndedFlag := false, scratchActive := true);
    }

    method SetPositionCmd(position: Option<real>)
      requires sampleRate > 0.0
      modifies this
      ensures Snap() == SetPositionEffect(old(Snap()), position, sampleRate)
    {
      var t := Mul(OrZero(position), sampleRate);
      posTarget := Some(t);
      scratchActive := true;
      if flingActive {
        flingActive := false;
        flingRate := 0.0;
        flingEndedFlag := false;
        assert State() == old(State()).(posTarget := Some(t), flingActive := false, flingRate := 0.0);
      } else {
        assert State() == old(State()).(posTarget := Some(t));
      }
    }

    method SetRateCmd(rate: Option<real>)
      requires sampleRate > 0.0
      modifies this
      ensures Snap() == SetRateEffect(old(Snap()), rate)
    {
      if rate.Some? {
        targetRate := rate.value;
        if Abs(targetRate) < RateSnap {
          targetRate := 0.0;
          smoothedRate := 0.0;
        }
      }
    }

    method SetHoldCmd(h: bool)
      requires sampleRate > 0.0
      modifies this
      ensures Snap() == SetHoldEffect(old(Snap()), h)
    {
      hold := h;
      if hold {
        targetRate := 0.0;
        smoothedRate := 0.0;
      }
    }

    method FlingCmd(rate: Option<real>, tau: Option<real>)
      requires sampleRate > 0.0
      modifies this
      ensures Snap() == FlingEffect(old(Snap()), rate, tau)
    {
      var r := Clamp(OrZero(rate), -FlingMax, FlingMax);
      FlingRates(r);
      flingTau := FlingTau(tau);
      scratchActive := true;
      flingEndedFlag := false;
      OpenGate();
    }

    /** The rate fields a fling sets: the clamped rate drives everything. */
    method FlingRates(r: real)
      modifies this
      ensures State() == old(State()).(hold := false, flingActive := StartsFling(r), flingRate := r,
                                       targetRate := r, smoothedRate := r, posTarget := None)
      ensures channels == old(channels) && bufLen == old(bufLen) && bufSampleRate == old(bufSampleRate)
      ensures resample == old(resample) && scratchActive == old(scratchActive)
      ensures flingTau == old(flingTau) && flingEndedFlag == old(flingEndedFlag)
    {
      hold := false;
      flingActive := StartsFling(r);
      flingRate := r;
      targetRate := r;
      smoothedRate := r;
      posTarget := None;
    }

    /** A fling unmutes the gate and gives its gain a head start. */
    method OpenGate()
      modifies this
      ensures State() == old(State()).(gateMuted := false, gateGain := MaxR(old(gateGain), FlingGateHeadStart))
      ensures channels == old(channels) && bufLen == old(bufLen) && bufSampleRate == old(bufSampleRate)
      ensures resample == old(resample) && scratchActive == old(scratchActive)
      ensures flingTau == old(flingTau) && flingEndedFlag == old(flingEndedFlag)
    {
      gateMuted := false;
      if gateGain < FlingGateHeadStart {
        gateGain := FlingGateHeadStart;
      }
    }

    /** Stages 1 and 2 of a frame: rate resolution, snap, gate. */
    method ResolveRateAndGate(gateK: real)
      requires 0.0 < gateK <= 1.0
      modifies this
      ensures Snap() == old(Snap()).(voice := GateStage(RateStage(old(State())), gateK))
    {
      if hold {
        targetRate := 0.0;
        smoothedRate := 0.0;
      } else if flingActive {
        targetRate := flingRate;
        smoothedRate := flingRate;
      } else {
        var clampedTarget := Clamp(targetRate, -RateLimit, RateLimit);
        smoothedRate := Lerp(smoothedRate, clampedTarget, RateSmoothing);
      }
      if !flingActive && Abs(targetRate) < ZeroEnter && Abs(smoothedRate) < ZeroEnter {
        smoothedRate := 0.0;
      }
      assert State() == RateStage(old(State()));
      if hold {
        gateMuted := true;
      } else if flingActive {
        gateMuted := false;
      } else {
        var mag := Abs(smoothedRate);
        if gateMuted {
          if mag > ZeroExit {
            gateMuted := false;
          }
        } else {
          if mag < ZeroEnter {
            gateMuted := true;
          }
        }
      }
      var gateTarget := if gateMuted then 0.0 else 1.0;
      gateGain := Lerp(gateGain, gateTarget, gateK);
    }

    /** Stage 4 of a frame: integrate, slew toward a target, clamp. */
    method MoveFrame(posSlewK: real, maxPos: real)
      modifies this
      ensures Snap() == old(Snap()).(voice := MoveStage(old(State()), posSlewK, maxPos))
    {
      ghost var v := State();
      var p := pos;
      var targetZeroNow := hold || (!flingActive && gateMuted);
      if !targetZeroNow {
        p := p + smoothedRate;
      }
      if flingActive && gateMuted {
        p := p + smoothedRate;
      }
      assert p == Integrated(v);
      var target := posTarget;
      if posTarget.Some? {
        var dpos := posTarget.value - p;
        if Abs(dpos) < SlewDone {
          target := None;
        }
        p := Lerp(p, posTarget.value, posSlewK);
      }
      assert v.(pos := p, posTarget := target) == SlewStage(v.(pos := Integrated(v)), posSlewK);
      if p < 0.0 {
        p := 0.0;
      }
      if maxPos != 0.0 && p >= maxPos {
        p := maxPos - 1.0;
      }
      pos := p;
      posTarget := target;
    }

    /** Stage 5 of a frame: decay the fling; returns whether it ended. */
    method DecayFling(decay: real) returns (ended: bool)
      modifies this
      ensures var r := FlingStage(old(State()), decay);
              Snap() == old(Snap()).(voice := r.0) && ended == r.1
    {
      ended := false;
      if flingActive {
        flingRate := Clamp(Mul(flingRate, decay), -RateLimit, RateLimit);
        if Abs(flingRate) < FlingEndRate {
          flingActive := false;
          targetRate := 0.0;
          smoothedRate := 0.0;
          ended := true;
        }
      }
    }

    /** One frame of `process`: writes column i of the output and advances
        the state by one frame. */
    method Frame(output: array2<real>, i: nat, k: Coefs, maxPos: real) returns (ended: bool)
      requires ValidCoefs(k) && i < output.Length1
      requires |channels| > 0 && ChannelsFilled(channels)
      modifies this, output
      ensures Snap() == old(Snap()).(voice := StepFrame(old(State()), k, maxPos))
      ensures ended == EndsFling(old(State()), k, maxPos)
      ensures forall c :: 0 <= c < output.Length0 ==>
                output[c, i] == FrameOut(Mid(old(State()), k), SourceChannel(channels, c), resample)
      ensures forall c, j :: 0 <= c < output.Length0 && 0 <= j < output.Length1 && j != i ==>
                output[c, j] == old(output[c, j])
    {
      ghost var v := State();
      ResolveRateAndGate(k.gateK);
      for ch := 0 to output.Length0
        invariant Snap() == old(Snap()).(voice := Mid(v, k))
        invariant forall c :: 0 <= c < ch ==> output[c, i] == FrameOut(Mid(v, k), SourceChannel(channels, c), resample)
        invariant forall c, j :: 0 <= c < output.Length0 && 0 <= j < output.Length1 && (j != i || c >= ch) ==>
                    output[c, j] == old(output[c, j])
      {
        var src := SourceChannel(channels, ch);
        assert |src| >= 1;
        var s := Sample(State(), src, resample);
        output[ch, i] := Mul(s, gateGain);
      }
      MoveFrame(k.posSlewK, maxPos);
      ended := DecayFling(k.flingDecay);
    }

    /** The frame loop of `process` over a block that renders: every frame
        writes its column and steps the voice. */
    method RenderBlock(output: array2<real>, k: Coefs) returns (flingEnded: bool)
      requires Valid() && Renders(Snap()) && ChannelsFilled(channels) && ValidCoefs(k)
      modifies this, output
      ensures var w := old(Snap());
              Snap() == w.(voice := Run(w.voice, output.Length1, k, MaxPos(w))) &&
              flingEnded == EndedWithin(w.voice, output.Length1, k, MaxPos(w))
      ensures forall c, j :: 0 <= c < output.Length0 && 0 <= j < output.Length1 ==>
                output[c, j] == BlockOut(old(Snap()), k, c, j)
    {
      ghost var w := Snap();
      var maxPos := Div(bufLen as real, resample);
      flingEnded := false;
      for i := 0 to output.Length1
        invariant Snap() == w.(voice := Run(w.voice, i, k, maxPos))
        invariant flingEnded == EndedWithin(w.voice, i, k, maxPos)
        invariant forall c, j :: 0 <= c < output.Length0 && 0 <= j < i ==> output[c, j] == BlockOut(w, k, c, j)
      {
        var ended := Frame(output, i, k, maxPos);
        flingEnded := flingEnded || ended;
      }
    }

    /** `output[ch].fill(0)` for every output channel. */
    static method FillSilence(output: array2<real>)
      modifies output
      ensures forall c, j :: 0 <= c < output.Length0 && 0 <= j < output.Length1 ==> output[c, j] == 0.0
    {
      for ch := 0 to output.Length0
        invariant forall c, j :: 0 <= c < ch && 0 <= j < output.Length1 ==> output[c, j] == 0.0
      {
        for i := 0 to output.Length1
          invariant forall c, j :: 0 <= c < ch && 0 <= j < output.Length1 ==> output[c, j] == 0.0
          invariant forall j :: 0 <= j < i ==> output[ch, j] == 0.0
        {
          output[ch, i] := 0.0;
        }
      }
    }

    /** `process`: renders one block into `output` (channels by frames) and
        returns the position in seconds to post with `flingEnd`, if a fling
        ended in this block and no end was posted since the fling started.
        The coefficients are the values the source computes with Math.exp:
        `gateK` for the 8 ms gate, `gateKFling` for the 4 ms gate used while a
        fling runs, `posSlewK` for the 4 ms slew, `flingDecay` for the fling's
        time constant. */
    method Process(output: array2<real>, gateK: real, gateKFling: real, posSlewK: real, flingDecay: real)
      returns (flingEnd: Option<real>)
      requires Valid() && (Renders(Snap()) ==> ChannelsFilled(channels))
      requires 0.0 < gateK <= 1.0 && 0.0 < gateKFling <= 1.0
      requires 0.0 < posSlewK <= 1.0 && 0.0 < flingDecay <= 1.0
      modifies this, output
      ensures Valid()
      ensures output.Length0 == 0 ==> Snap() == old(Snap()) && flingEnd == None
      ensures output.Length0 > 0 && !Renders(old(Snap())) ==>
                Snap() == old(Snap()) && flingEnd == None &&
                forall c, j :: 0 <= c < output.Length0 && 0 <= j < output.Length1 ==> output[c, j] == 0.0
      ensures output.Length0 > 0 && Renders(old(Snap())) ==>
                var w := old(Snap());
                var k := BlockCoefs(w, gateK, gateKFling, posSlewK, flingDecay);
                var n := output.Length1;
                var ended := EndedWithin(w.voice, n, k, MaxPos(w));
                Snap() == w.(voice := Run(w.voice, n, k, MaxPos(w)), flingEndedFlag := w.flingEndedFlag || ended) &&
                (forall c, j :: 0 <= c < output.Length0 && 0 <= j < n ==> output[c, j] == BlockOut(w, k, c, j)) &&
                flingEnd == (if ended && !w.flingEndedFlag then Some(Div(pos, sampleRate)) else None)
    {
      if output.Length0 == 0 {
        return None;
      }
      var frames := output.Length1;
      if !scratchActive || |channels| == 0 || bufLen == 0 {
        FillSilence(output);
        return None;
      }
      ghost var w := Snap();
      var gk := if flingActive then gateKFling else gateK;
      var decay := if flingActive && flingTau > 0.0 then flingDecay else 1.0;
      var k := Coefs(gk, posSlewK, decay);
      assert k == BlockCoefs(w, gateK, gateKFling, posSlewK, flingDecay);
      var flingEnded := RenderBlock(output, k);
      assert Sane(Run(w.voice, frames, k, MaxPos(w))) by {
        RunSane(w.voice, frames, k, MaxPos(w));
      }
      if flingEnded && !flingEndedFlag {
        flingEndedFlag := true;
        flingEnd := Some(Div(pos, sampleRate));
      } else {
        flingEnd := None;
      }
    }
  }
}
