/** The arithmetic inside a deck's user interface: the platter gesture
    (angle normalisation, hold hysteresis, rate and position per pointer
    move, the fling decision on release), the waveform colour codec and the
    BPM slider's playback-rate rule. */
module DeckUI {
  import opened Num

  // ------------------------------------------------------ angle normalisation

  /** The first loop of the normalisation: subtract turns while above 180°. */
  function WrapDown(d: real): real
    decreases if d > 180.0 then d.Floor else 0
  {
    if d > 180.0 then WrapDown(d - 360.0) else d
  }

  /** The second loop: add turns while below -180°. */
  function WrapUp(d: real): real
    decreases if d < -180.0 then (-d).Floor else 0
  {
    if d < -180.0 then WrapUp(d + 360.0) else d
  }

  /** A frame-to-frame angle delta brought into [-180, 180]. */
  function Wrapped(d: real): real {
    WrapUp(WrapDown(d))
  }

  /** The number of whole turns the normalisation adds. */
  function Turns(d: real): int {
    WrapUpTurns(WrapDown(d)) - WrapDownTurns(d)
  }

  function WrapDownTurns(d: real): nat
    decreases if d > 180.0 then d.Floor else 0
  {
    if d > 180.0 then 1 + WrapDownTurns(d - 360.0) else 0
  }

  function WrapUpTurns(d: real): nat
    decreases if d < -180.0 then (-d).Floor else 0
  {
    if d < -180.0 then 1 + WrapUpTurns(d + 360.0) else 0
  }

  lemma {:induction false} WrapDownFacts(d: real)
    ensures WrapDown(d) <= 180.0
    ensures WrapDown(d) == d - 360.0 * WrapDownTurns(d) as real
    ensures d > 180.0 ==> WrapDown(d) > -180.0
    ensures d <= 180.0 ==> WrapDown(d) == d
    decreases if d > 180.0 then d.Floor else 0
  {
    if d > 180.0 {
      WrapDownFacts(d - 360.0);
    }
  }

  lemma {:induction false} WrapUpFacts(d: real)
    requires d <= 180.0
    ensures -180.0 <= WrapUp(d) <= 180.0
    ensures WrapUp(d) == d + 360.0 * WrapUpTurns(d) as real
    ensures d < -180.0 ==> WrapUp(d) < 180.0
    ensures d >= -180.0 ==> WrapUp(d) == d
    decreases if d < -180.0 then (-d).Floor else 0
  {
    if d < -180.0 {
      WrapUpFacts(d + 360.0);
    }
  }

  /** The normalised delta lies in [-180, 180], differs from the raw delta
      by whole turns, leaves a delta already in range alone, and reaches
      180 only from above and -180 only from below. */
  lemma WrappedFacts(d: real)
    ensures -180.0 <= Wrapped(d) <= 180.0
    ensures Wrapped(d) == d + 360.0 * Turns(d) as real
    ensures -180.0 <= d <= 180.0 ==> Wrapped(d) == d
    ensures d > 180.0 ==> Wrapped(d) > -180.0
    ensures d < -180.0 ==> Wrapped(d) < 180.0
  {
    WrapDownFacts(d);
    WrapUpFacts(WrapDown(d));
  }

  /** The two `while` loops of `onPointerMove` and `onPointerUp`. */
  method NormalizeAngle(d0: real) returns (d: real)
    ensures d == Wrapped(d0)
    ensures -180.0 <= d <= 180.0
  {
    d := d0;
    while d > 180.0
      invariant WrapDown(d) == WrapDown(d0)
      decreases if d > 180.0 then d.Floor else 0
    {
      d := d - 360.0;
    }
    ghost var down := d;
    while d < -180.0
      invariant down <= 180.0 && WrapUp(d) == WrapUp(down)
      decreases if d < -180.0 then (-d).Floor else 0
    {
      d := d + 360.0;
    }
    WrappedFacts(d0);
  }

  // ------------------------------------------------------------ hold and rate

  const HoldEnterDeg: real := 0.25
  const HoldExitDeg: real := 0.5

  /** The hold state after a frame with delta `dAng`: a hold is left only
      above 0.5°, entered only below 0.25°, and kept in between. */
  function HoldStep(inHold: bool, dAng: real): (h: bool)
    ensures inHold ==> (h <==> Abs(dAng) <= HoldExitDeg)
    ensures !inHold ==> (h <==> Abs(dAng) < HoldEnterDeg)
  {
    if inHold then !(Abs(dAng) > HoldExitDeg) else Abs(dAng) < HoldEnterDeg
  }

  /** Between the two thresholds the hold state never changes. */
  lemma HoldHysteresis(inHold: bool, dAng: real)
    requires HoldEnterDeg <= Abs(dAng) <= HoldExitDeg
    ensures HoldStep(inHold, dAng) == inHold
  {
  }

  /** The scratch configuration: track seconds per rotation and the base rate clamp. */
  datatype ScratchConfig = ScratchConfig(sensitivity: real, maxRateBase: real)

  /** `ScratchCfg.sensitivity || 1.0`. */
  function Sens(cfg: ScratchConfig): real {
    if cfg.sensitivity != 0.0 then cfg.sensitivity else 1.0
  }

  /** `Math.max(1, (maxRateBase || 4) * sens)`. */
  function MaxRate(cfg: ScratchConfig): (m: real)
    ensures m >= 1.0
  {
    MaxR(1.0, Mul(if cfg.maxRateBase != 0.0 then cfg.maxRateBase else 4.0, Sens(cfg)))
  }

  /** The rate a platter velocity (°/s) asks for, clamped to ±maxRate. */
  function RawRate(vel: real, cfg: ScratchConfig): (r: real)
    ensures -MaxRate(cfg) <= r <= MaxRate(cfg)
  {
    Clamp(Mul(Div(vel, 360.0), Sens(cfg)), -MaxRate(cfg), MaxRate(cfg))
  }

  /** The UI's light smoothing: 30% of the last rate, 70% of the new one. */
  function SmoothRate(last: real, raw: real): real {
    last * 0.3 + raw * 0.7
  }

  /** A smoothed rate stays inside any symmetric bound its inputs respect. */
  lemma SmoothRateBounded(last: real, raw: real, m: real)
    requires -m <= last <= m && -m <= raw <= m
    ensures -m <= SmoothRate(last, raw) <= m
  {
  }

  /** Near the spindle the delta is scaled by max(0.15, dist/minRadius). */
  function Scaled(dAng: real, dist: real, minRadius: real): real
    requires dist >= 0.0
  {
    if dist < minRadius then Mul(dAng, MaxR(0.15, Div(dist, minRadius))) else dAng
  }

  /** The scratch position after a frame: unchanged on a hold frame, else
      moved by the scaled delta and clamped into the track. */
  function NextPos(hold: bool, base: real, scaled: real, sens: real, duration: real): (p: real)
    ensures hold ==> p == base
    ensures !hold && duration >= 0.0 ==> 0.0 <= p <= duration
  {
    if hold then base else Clamp(base + Mul(Div(scaled, 360.0), sens), 0.0, duration)
  }

  // ------------------------------------------------------------ the gesture

  /** What the gesture asks of the deck. */
  datatype DeckCall =
    | StopImmediate
    | ScratchStart(position: real, rate: real)
    | ScratchSetHold(holding: bool)
    | ScratchSetRate(rate: real)
    | ScratchFling(rate: real, tau: real, resume: bool, accel: real, position: real)
    | ResumeAtPosition(position: real)
    | ScratchStop

  /** The closure state of the platter's pointer handlers. Times are
      `performance.now()` milliseconds. */
  datatype Gesture = Gesture(
    scratching: bool,
    inHold: bool,
    lastAngle: real,
    lastTs: real,
    lastScratchPos: Option<real>,
    lastVel: real,
    lastSmoothedRate: real,
    lastNonZeroRate: real,
    lastNonZeroTime: real,
    uiLastRate: real,
    lastSentMs: real,
    lastMoveTs: real,
    wasPlaying: bool,
    calls: seq<DeckCall>
  )

  /** One pointer sample: its angle (°) and distance from the centre, the
      time, the inner dead-zone radius, and the deck's position and duration
      (0 without a buffer) at that moment. */
  datatype PointerSample = PointerSample(ang: real, dist: real, now: real, minRadius: real,
                                         deckPos: real, duration: real)

  /** `onPointerDown`. */
  function DownStep(g: Gesture, ang: real, now: real, deckPos: real, wasPlaying: bool): Gesture {
    var c0 := if wasPlaying then g.calls + [StopImmediate] else g.calls;
    g.(scratching := true, lastTs := now, lastAngle := ang, lastScratchPos := Some(deckPos),
       inHold := true, uiLastRate := 1.0, lastMoveTs := now, wasPlaying := wasPlaying,
       calls := c0 + [ScratchStart(deckPos, 0.0), ScratchSetHold(true), ScratchSetRate(0.0)])
  }

  /** The values one `onPointerMove` frame computes. */
  datatype Frame = Frame(hold: bool, dAng: real, scaled: real, vel: real, rate: real, pos: real)

  function FrameOf(g: Gesture, p: PointerSample, cfg: ScratchConfig): (f: Frame)
    requires p.dist >= 0.0
  {
    var dt := Div(MaxR(1.0, p.now - g.lastTs), 1000.0);
    var d0 := Wrapped(p.ang - g.lastAngle);
    var hold := HoldStep(g.inHold, d0);
    var dAng := if hold then 0.0 else d0;
    var scaled := Scaled(dAng, p.dist, p.minRadius);
    var vel := Div(scaled, dt);
    var rate := if hold then 0.0 else SmoothRate(g.uiLastRate, RawRate(vel, cfg));
    var base := if g.lastScratchPos.Some? then g.lastScratchPos.value else p.deckPos;
    Frame(hold, dAng, scaled, vel, rate, NextPos(hold, base, scaled, Sens(cfg), p.duration))
  }

  /** `onPointerMove`: the frame's values become the new closure state; the
      hold flag and rate are sent at most every 15 ms, and a rate is zeroed
      when nothing moved for 30 ms. */
  function MoveStep(g: Gesture, p: PointerSample, cfg: ScratchConfig): Gesture
    requires p.dist >= 0.0
  {
    if !g.scratching then g else Advance(g, FrameOf(g, p, cfg), p.now, p.ang)
  }

  /** The closure state after a frame with values `f` at time `now`. */
  function Advance(g: Gesture, f: Frame, now: real, ang: real): Gesture {
      var nonZero := !f.hold && Abs(f.rate) > 0.02;
      var moveTs := if Abs(f.dAng) >= 0.1 then now else g.lastMoveTs;
      var send := now - g.lastSentMs >= 15.0;
      var c1 := if send then g.calls + [ScratchSetHold(f.hold), ScratchSetRate(if f.hold then 0.0 else f.rate)] else g.calls;
      var stop := now - moveTs > 30.0 && Abs(f.rate) > 0.0005;
      g.(inHold := f.hold, lastVel := f.vel, lastSmoothedRate := f.rate,
         uiLastRate := if stop then 0.0 else f.rate,
         lastNonZeroRate := if nonZero then f.rate else g.lastNonZeroRate,
         lastNonZeroTime := if nonZero then now else g.lastNonZeroTime,
         lastScratchPos := Some(f.pos), lastMoveTs := moveTs,
         lastSentMs := if send then now else g.lastSentMs,
         calls := if stop then c1 + [ScratchSetRate(0.0)] else c1,
         lastAngle := ang, lastTs := now)
  }

  /** On a hold frame the delta, the rate sent and the smoothed rate are all
      0 and the scratch position stays where it was. */
  lemma HoldFrameFreezes(g: Gesture, p: PointerSample, cfg: ScratchConfig)
    requires p.dist >= 0.0 && g.scratching && g.lastScratchPos.Some?
    requires HoldStep(g.inHold, Wrapped(p.ang - g.lastAngle))
    ensures var r := MoveStep(g, p, cfg);
      r.inHold && r.lastSmoothedRate == 0.0 && r.uiLastRate == 0.0 &&
      r.lastScratchPos == g.lastScratchPos &&
      r.lastNonZeroRate == g.lastNonZeroRate && r.lastMoveTs == g.lastMoveTs
  {
    var f := FrameOf(g, p, cfg);
    assert f.hold && f.rate == 0.0 && f.pos == g.lastScratchPos.value;
  }

  /** Off a hold frame the new scratch position lies in [0, duration]. */
  lemma MovePositionClamped(g: Gesture, p: PointerSample, cfg: ScratchConfig)
    requires p.dist >= 0.0 && p.duration >= 0.0 && g.scratching
    ensures MoveStep(g, p, cfg).lastScratchPos.Some?
    ensures var q := MoveStep(g, p, cfg).lastScratchPos.value;
      MoveStep(g, p, cfg).inHold || 0.0 <= q <= p.duration
  {
  }

  /** The UI's rate never leaves [-maxRate, maxRate] once inside it: the
      reset value 1.0 is inside because maxRate is at least 1. */
  lemma MoveRateBounded(g: Gesture, p: PointerSample, cfg: ScratchConfig)
    requires p.dist >= 0.0
    requires -MaxRate(cfg) <= g.uiLastRate <= MaxRate(cfg)
    ensures -MaxRate(cfg) <= MoveStep(g, p, cfg).uiLastRate <= MaxRate(cfg)
    ensures g.scratching ==> -MaxRate(cfg) <= MoveStep(g, p, cfg).lastSmoothedRate <= MaxRate(cfg)
  {
    if g.scratching {
      var f := FrameOf(g, p, cfg);
      var dt := Div(MaxR(1.0, p.now - g.lastTs), 1000.0);
      var d0 := Wrapped(p.ang - g.lastAngle);
      var hold := HoldStep(g.inHold, d0);
      if !hold {
        var raw := RawRate(f.vel, cfg);
        SmoothRateBounded(g.uiLastRate, raw, MaxRate(cfg));
      }
    }
  }

  /** The pointer listeners as registered: `onPointerMove` listens on the
      platter and on the window, so a move over the platter reaches it twice,
      the second time bubbled up with the same coordinates at `bubbledAt`. */
  function MoveEventAsWritten(g: Gesture, p: PointerSample, bubbledAt: real, overPlatter: bool, cfg: ScratchConfig): Gesture
    requires p.dist >= 0.0
  {
    var g1 := MoveStep(g, p, cfg);
    if overPlatter then MoveStep(g1, p.(now := bubbledAt), cfg) else g1
  }

  /** As registered, the bubbled run sees a delta of 0, so every move over
      the platter ends in hold with both UI rates 0 and the scratch position
      where the first run left it. */
  lemma DoubleMoveHolds(g: Gesture, p: PointerSample, bubbledAt: real, cfg: ScratchConfig)
    requires p.dist >= 0.0 && g.scratching
    ensures var g1 := MoveStep(g, p, cfg);
            var r := MoveEventAsWritten(g, p, bubbledAt, true, cfg);
            r.inHold && r.lastSmoothedRate == 0.0 && r.uiLastRate == 0.0 &&
            r.lastScratchPos == g1.lastScratchPos && r.lastAngle == p.ang
  {
    var g1 := MoveStep(g, p, cfg);
    assert g1.scratching && g1.lastAngle == p.ang && g1.lastScratchPos.Some?;
    WrappedFacts(0.0);
    HoldFrameFreezes(g1, p.(now := bubbledAt), cfg);
  }

  /** So, as registered, a drag turning the platter between 0.25° and 0.5°
      per event never moves the record: each event starts in the hold the
      previous one's bubbled run left, and that delta does not leave it. */
  lemma BandDragFrozenAsWritten(g: Gesture, p: PointerSample, bubbledAt: real, cfg: ScratchConfig)
    requires p.dist >= 0.0 && g.scratching && g.inHold && g.lastScratchPos.Some?
    requires HoldEnterDeg <= Abs(Wrapped(p.ang - g.lastAngle)) <= HoldExitDeg
    ensures var r := MoveEventAsWritten(g, p, bubbledAt, true, cfg);
            r.inHold && r.lastSmoothedRate == 0.0 && r.lastScratchPos == g.lastScratchPos
  {
    HoldFrameFreezes(g, p, cfg);
    DoubleMoveHolds(g, p, bubbledAt, cfg);
  }

  /** With one handler run per event, the hold hysteresis works as designed:
      a platter that is moving keeps moving on a delta between 0.25° and
      0.5°, and the scratch position follows the scaled delta. */
  lemma BandDragMoves(g: Gesture, p: PointerSample, cfg: ScratchConfig)
    requires p.dist >= 0.0 && g.scratching && !g.inHold
    requires HoldEnterDeg <= Abs(Wrapped(p.ang - g.lastAngle)) <= HoldExitDeg
    ensures var d := Wrapped(p.ang - g.lastAngle);
            var base := if g.lastScratchPos.Some? then g.lastScratchPos.value else p.deckPos;
            var r := MoveStep(g, p, cfg);
            !r.inHold && r.lastScratchPos == Some(NextPos(false, base, Scaled(d, p.dist, p.minRadius), Sens(cfg), p.duration))
  {
    HoldHysteresis(g.inHold, Wrapped(p.ang - g.lastAngle));
  }

  // ------------------------------------------------------------ the release

  /** The fling configuration: thresholds, decay time and speed multiplier. */
  datatype FlingConfig = FlingConfig(minRate: real, minDegPerSec: real, tau: real, speedMult: real)

  /** The first candidate of largest magnitude. */
  function FirstLargest(c1: real, c2: real, c3: real): (r: real)
    ensures r == c1 || r == c2 || r == c3
    ensures Abs(r) >= Abs(c1) && Abs(r) >= Abs(c2) && Abs(r) >= Abs(c3)
    ensures Abs(c1) >= Abs(c2) && Abs(c1) >= Abs(c3) ==> r == c1
    ensures Abs(c2) > Abs(c1) && Abs(c2) >= Abs(c3) ==> r == c2
    ensures Abs(c3) > Abs(c1) && Abs(c3) > Abs(c2) ==> r == c3
  {
    if Abs(c3) > Abs(if Abs(c2) > Abs(c1) then c2 else c1) then c3
    else if Abs(c2) > Abs(c1) then c2
    else c1
  }

  /** The fling-rate selection of `onPointerUp`. */
  method SelectFling(c1: real, c2: real, c3: real) returns (flingRate: real)
    ensures flingRate == FirstLargest(c1, c2, c3)
  {
    flingRate := c1;
    if Abs(c2) > Abs(flingRate) {
      flingRate := c2;
    }
    if Abs(c3) > Abs(flingRate) {
      flingRate := c3;
    }
  }

  /** The three fling candidates: the last smoothed rate unless negligible,
      the release velocity as a rate, and the last clearly non-zero rate
      decayed by `decay` (`Math.exp(-since/120)`) if seen within 400 ms. */
  function Candidates(g: Gesture, relVel: real, since: real, decay: real, cfg: ScratchConfig): (real, real, real) {
    (if Abs(g.lastSmoothedRate) > 0.001 then g.lastSmoothedRate else 0.0,
     Mul(Div(relVel, 360.0), Sens(cfg)),
     if g.lastNonZeroRate != 0.0 && since < 400.0 then Mul(g.lastNonZeroRate, decay) else 0.0)
  }

  /** The release inputs: pointer angle and time, the deck's position, the
      resume-ramp duration and `decay` = `Math.exp(-since/120)`. */
  datatype Release = Release(ang: real, now: real, deckPos: real, accel: real, decay: real)

  /** How long ago the last clearly non-zero rate was seen (0 if never). */
  function SinceNonZero(g: Gesture, now: real): real {
    now - (if g.lastNonZeroTime != 0.0 then g.lastNonZeroTime else now)
  }

  function ReleaseVel(g: Gesture, ang: real, now: real): real {
    Div(Wrapped(ang - g.lastAngle), MaxR(0.001, Div(now - g.lastTs, 1000.0)))
  }

  function FlingRateOf(g: Gesture, u: Release, cfg: ScratchConfig): real {
    var c := Candidates(g, ReleaseVel(g, u.ang, u.now), SinceNonZero(g, u.now), u.decay, cfg);
    FirstLargest(c.0, c.1, c.2)
  }

  /** A fling happens iff the chosen rate or the release velocity reaches its threshold. */
  predicate DoFling(g: Gesture, u: Release, cfg: ScratchConfig, fc: FlingConfig) {
    Abs(FlingRateOf(g, u, cfg)) >= fc.minRate || Abs(ReleaseVel(g, u.ang, u.now)) >= fc.minDegPerSec
  }

  /** What the release asks of the deck after ending the hold. */
  function ReleaseCalls(g: Gesture, u: Release, cfg: ScratchConfig, fc: FlingConfig): seq<DeckCall> {
    var finalPos := if g.lastScratchPos.Some? then g.lastScratchPos.value else u.deckPos;
    var boosted := Mul(FlingRateOf(g, u, cfg), if fc.speedMult != 0.0 then fc.speedMult else 1.0);
    if DoFling(g, u, cfg, fc) then
      [ScratchFling(boosted, fc.tau, g.wasPlaying, if g.wasPlaying then u.accel else 0.0, finalPos)]
    else if g.wasPlaying then [ScratchSetRate(0.0), ResumeAtPosition(finalPos)]
    else [ScratchSetRate(0.0), ScratchStop]
  }

  /** `onPointerUp`. */
  function UpStep(g: Gesture, u: Release, cfg: ScratchConfig, fc: FlingConfig): Gesture {
    if !g.scratching then g
    else
      g.(scratching := false, lastVel := ReleaseVel(g, u.ang, u.now),
         calls := g.calls + [ScratchSetHold(false)] + ReleaseCalls(g, u, cfg, fc),
         wasPlaying := false, lastScratchPos := None, inHold := false)
  }

  /** The candidates' guards: a negligible last rate and a stale non-zero
      rate contribute 0, and decay never grows the remembered rate. */
  lemma CandidateGuards(g: Gesture, relVel: real, since: real, decay: real, cfg: ScratchConfig)
    requires 0.0 < decay <= 1.0
    ensures var c := Candidates(g, relVel, since, decay, cfg);
      (Abs(g.lastSmoothedRate) <= 0.001 ==> c.0 == 0.0) &&
      (since >= 400.0 ==> c.2 == 0.0) &&
      Abs(c.2) <= Abs(g.lastNonZeroRate)
  {
    AbsScale(g.lastNonZeroRate, decay);
  }

  /** A release either flings at the boosted chosen rate, or stops the
      scratch (resuming normal playback if the deck was playing before). */
  lemma ReleaseOutcome(g: Gesture, u: Release, cfg: ScratchConfig, fc: FlingConfig)
    requires g.scratching
    ensures var r := UpStep(g, u, cfg, fc);
      !r.scratching && !r.inHold && r.lastScratchPos.None? &&
      r.calls[|g.calls|] == ScratchSetHold(false) &&
      (DoFling(g, u, cfg, fc) <==> |r.calls| == |g.calls| + 2 && r.calls[|g.calls| + 1].ScratchFling?) &&
      (!DoFling(g, u, cfg, fc) && g.wasPlaying ==> r.calls[|g.calls| + 2].ResumeAtPosition?) &&
      (!DoFling(g, u, cfg, fc) && !g.wasPlaying ==> r.calls[|g.calls| + 2] == ScratchStop)
  {
  }

  /** The gesture's closure state as a class, one field per variable. */
  class ScratchGesture {
    var scratching: bool
    var inHold: bool
    var lastAngle: real
    var lastTs: real
    var lastScratchPos: Option<real>
    var lastVel: real
    var lastSmoothedRate: real
    var lastNonZeroRate: real
    var lastNonZeroTime: real
    var uiLastRate: real
    var lastSentMs: real
    var lastMoveTs: real
    var wasPlaying: bool
    var calls: seq<DeckCall>

    function State(): Gesture
      reads this
    {
      Gesture(scratching, inHold, lastAngle, lastTs, lastScratchPos, lastVel, lastSmoothedRate,
              lastNonZeroRate, lastNonZeroTime, uiLastRate, lastSentMs, lastMoveTs, wasPlaying, calls)
    }

    constructor()
      ensures State() == Gesture(false, false, 0.0, 0.0, None, 0.0, 0.0, 0.0, 0.0, 1.0, 0.0, 0.0, false, [])
    {
      scratching := false;
      inHold := false;
      lastAngle := 0.0;
      lastTs := 0.0;
      lastScratchPos := None;
      lastVel := 0.0;
      lastSmoothedRate := 0.0;
      lastNonZeroRate := 0.0;
      lastNonZeroTime := 0.0;
      uiLastRate := 1.0;
      lastSentMs := 0.0;
      lastMoveTs := 0.0;
      wasPlaying := false;
      calls := [];
    }

    method PointerDown(ang: real, now: real, deckPos: real, playing: bool)
      modifies this
      ensures State() == DownStep(old(State()), ang, now, deckPos, playing)
    {
      scratching := true;
      lastTs := now;
      lastAngle := ang;
      if playing {
        calls := calls + [StopImmediate];
      }
      lastScratchPos := Some(deckPos);
      calls := calls + [ScratchStart(deckPos, 0.0)];
      inHold := true;
      calls := calls + [ScratchSetHold(true), ScratchSetRate(0.0)];
      uiLastRate := 1.0;
      lastMoveTs := now;
      wasPlaying := playing;
    }

    /** The values the current pointer sample gives, read off the fields. */
    method ComputeFrame(p: PointerSample, cfg: ScratchConfig) returns (f: Frame)
      requires p.dist >= 0.0
      ensures f == FrameOf(State(), p, cfg)
    {
      var dt := Div(MaxR(1.0, p.now - lastTs), 1000.0);
      var dAng := NormalizeAngle(p.ang - lastAngle);
      var hold := HoldStep(inHold, dAng);
      if hold {
        dAng := 0.0;
      }
      var scaled := Scaled(dAng, p.dist, p.minRadius);
      var vel := Div(scaled, dt);
      var rate := SmoothRate(uiLastRate, RawRate(vel, cfg));
      if hold {
        rate := 0.0;
      }
      var base := if lastScratchPos.Some? then lastScratchPos.value else p.deckPos;
      f := Frame(hold, dAng, scaled, vel, rate, NextPos(hold, base, scaled, Sens(cfg), p.duration));
    }

    method PointerMove(p: PointerSample, cfg: ScratchConfig)
      requires p.dist >= 0.0
      modifies this
      ensures State() == MoveStep(old(State()), p, cfg)
    {
      if !scratching {
        return;
      }
      var f := ComputeFrame(p, cfg);
      Apply(f, p.now, p.ang);
    }

    /** Stores a frame's values and queues its messages. */
    method Apply(f: Frame, now: real, ang: real)
      modifies this
      ensures State() == Advance(old(State()), f, now, ang)
    {
      var next := Advance(State(), f, now, ang);
      inHold, lastVel, lastSmoothedRate, uiLastRate := next.inHold, next.lastVel, next.lastSmoothedRate, next.uiLastRate;
      lastNonZeroRate, lastNonZeroTime := next.lastNonZeroRate, next.lastNonZeroTime;
      lastScratchPos, lastMoveTs, lastSentMs := next.lastScratchPos, next.lastMoveTs, next.lastSentMs;
      calls, lastAngle, lastTs := next.calls, next.lastAngle, next.lastTs;
    }

    method PointerUp(u: Release, cfg: ScratchConfig, fc: FlingConfig)
      modifies this
      ensures State() == UpStep(old(State()), u, cfg, fc)
    {
      if !scratching {
        return;
      }
      var g := State();
      scratching := false;
      var dRel := NormalizeAngle(u.ang - lastAngle);
      var dtRel := MaxR(0.001, Div(u.now - lastTs, 1000.0));
      var relVel := Div(dRel, dtRel);
      lastVel := relVel;
      var finalPos := if lastScratchPos.Some? then lastScratchPos.value else u.deckPos;
      var since := SinceNonZero(g, u.now);
      var c := Candidates(g, relVel, since, u.decay, cfg);
      var flingRate := SelectFling(c.0, c.1, c.2);
      var doFling := Abs(flingRate) >= fc.minRate || Abs(relVel) >= fc.minDegPerSec;
      assert relVel == ReleaseVel(g, u.ang, u.now);
      assert flingRate == FlingRateOf(g, u, cfg);
      calls := calls + [ScratchSetHold(false)];
      var boosted := Mul(flingRate, if fc.speedMult != 0.0 then fc.speedMult else 1.0);
      if wasPlaying {
        if doFling {
          calls := calls + [ScratchFling(boosted, fc.tau, true, u.accel, finalPos)];
        } else {
          calls := calls + [ScratchSetRate(0.0), ResumeAtPosition(finalPos)];
        }
      } else {
        if doFling {
          calls := calls + [ScratchFling(boosted, fc.tau, false, 0.0, finalPos)];
        } else {
          calls := calls + [ScratchSetRate(0.0), ScratchStop];
        }
      }
      wasPlaying := false;
      lastScratchPos := None;
      inHold := false;
    }
  }

  // ------------------------------------------------------------ colour codec

  datatype Rgb = Rgb(r: int, g: int, b: int)

  const White: Rgb := Rgb(255, 255, 255)

  predicate IsHexDigit(c: char) {
    '0' <= c <= '9' || 'a' <= c <= 'f' || 'A' <= c <= 'F'
  }

  function HexValue(c: char): (v: int)
    requires IsHexDigit(c)
    ensures 0 <= v < 16
  {
    if '0' <= c <= '9' then c as int - '0' as int
    else if 'a' <= c <= 'f' then c as int - 'a' as int + 10
    else c as int - 'A' as int + 10
  }

  /** The lower-case digit for a value below 16. */
  function DigitChar(v: nat): (c: char)
    requires v < 16
    ensures IsHexDigit(c) && HexValue(c) == v
  {
    if v < 10 then ('0' as int + v) as char else ('a' as int + v - 10) as char
  }

  /** Six hex digits, after an optional '#'. */
  predicate IsHexColour(s: string) {
    |Digits(s)| == 6 && forall i :: 0 <= i < 6 ==> IsHexDigit(Digits(s)[i])
  }

  /** The text after an optional leading '#'. */
  function Digits(s: string): string {
    if |s| > 0 && s[0] == '#' then s[1..] else s
  }

  function Pair(s: string, i: nat): (v: int)
    requires i + 1 < |s| && IsHexDigit(s[i]) && IsHexDigit(s[i + 1])
    ensures 0 <= v <= 255
  {
    16 * HexValue(s[i]) + HexValue(s[i + 1])
  }

  /** `hexToRgb`: the three byte pairs of a hex colour, white for anything else. */
  function HexToRgb(s: string): (c: Rgb)
    ensures 0 <= c.r <= 255 && 0 <= c.g <= 255 && 0 <= c.b <= 255
    ensures !IsHexColour(s) ==> c == White
  {
    if !IsHexColour(s) then White
    else
      var body := Digits(s);
      assert IsHexDigit(body[0]) && IsHexDigit(body[1]) && IsHexDigit(body[2]);
      assert IsHexDigit(body[3]) && IsHexDigit(body[4]) && IsHexDigit(body[5]);
      Rgb(Pair(body, 0), Pair(body, 2), Pair(body, 4))
  }

  /** `x.toString(16)` for a natural number. */
  function HexDigits(n: nat): (s: string)
    ensures |s| >= 1
    decreases n
  {
    if n < 16 then [DigitChar(n)] else HexDigits(n / 16) + [DigitChar(n % 16)]
  }

  /** `x.toString(16).padStart(2, '0')`. */
  function ToHex(x: int): (s: string) {
    var t := if x < 0 then "-" + HexDigits(-x) else HexDigits(x);
    if |t| < 2 then "0" + t else t
  }

  /** `rgbToHex`. */
  function RgbToHex(r: int, g: int, b: int): string {
    "#" + ToHex(r) + ToHex(g) + ToHex(b)
  }

  /** A byte is written as exactly its two lower-case digits. */
  lemma ToHexByte(x: int)
    requires 0 <= x <= 255
    ensures ToHex(x) == [DigitChar(x / 16), DigitChar(x % 16)]
  {
    if x >= 16 {
      assert HexDigits(x) == HexDigits(x / 16) + [DigitChar(x % 16)];
      assert HexDigits(x / 16) == [DigitChar(x / 16)];
    }
  }

  /** Decoding an encoded colour gives its components back. */
  lemma ColourRoundTrip(r: int, g: int, b: int)
    requires 0 <= r <= 255 && 0 <= g <= 255 && 0 <= b <= 255
    ensures HexToRgb(RgbToHex(r, g, b)) == Rgb(r, g, b)
  {
    ToHexByte(r);
    ToHexByte(g);
    ToHexByte(b);
    var s := RgbToHex(r, g, b);
    var body := s[1..];
    assert body == ToHex(r) + ToHex(g) + ToHex(b);
    assert IsHexColour(s);
    assert Pair(body, 0) == r;
    assert Pair(body, 2) == g;
    assert Pair(body, 4) == b;
  }

  /** The lower-case form of a hex digit. */
  function Lower(c: char): char
    requires IsHexDigit(c)
  {
    DigitChar(HexValue(c))
  }

  /** Encoding a decoded hex colour gives it back with a '#' and lower-case digits. */
  lemma ColourRoundTripText(s: string)
    requires IsHexColour(s)
    ensures var body := Digits(s);
      IsHexDigit(body[0]) && IsHexDigit(body[1]) && IsHexDigit(body[2]) &&
      IsHexDigit(body[3]) && IsHexDigit(body[4]) && IsHexDigit(body[5]) &&
      RgbToHex(HexToRgb(s).r, HexToRgb(s).g, HexToRgb(s).b) ==
        ['#', Lower(body[0]), Lower(body[1]), Lower(body[2]), Lower(body[3]), Lower(body[4]), Lower(body[5])]
  {
    var body := Digits(s);
    assert IsHexDigit(body[0]) && IsHexDigit(body[1]) && IsHexDigit(body[2]);
    assert IsHexDigit(body[3]) && IsHexDigit(body[4]) && IsHexDigit(body[5]);
    var c := HexToRgb(s);
    ToHexByte(c.r);
    ToHexByte(c.g);
    ToHexByte(c.b);
    assert c.r / 16 == HexValue(body[0]) && c.r % 16 == HexValue(body[1]);
    assert c.g / 16 == HexValue(body[2]) && c.g % 16 == HexValue(body[3]);
    assert c.b / 16 == HexValue(body[4]) && c.b % 16 == HexValue(body[5]);
  }

  /** One component of `mix`: `Math.round(a + (b - a) * t)`. */
  function MixComponent(a: int, b: int, t: real): int {
    Round(Lerp(a as real, b as real, t))
  }

  /** `mix`. */
  function Mix(hex1: string, hex2: string, t: real): string {
    var a := HexToRgb(hex1);
    var b := HexToRgb(hex2);
    RgbToHex(MixComponent(a.r, b.r, t), MixComponent(a.g, b.g, t), MixComponent(a.b, b.b, t))
  }

  lemma MixComponentBetween(a: int, b: int, t: real)
    requires 0.0 <= t <= 1.0
    ensures a <= b ==> a <= MixComponent(a, b, t) <= b
    ensures b < a ==> b <= MixComponent(a, b, t) <= a
  {
    StepToward(a as real, b as real, t);
    var x := Lerp(a as real, b as real, t);
    if a <= b {
      RoundMonotone(a as real, x);
      RoundMonotone(x, b as real);
    } else {
      RoundMonotone(b as real, x);
      RoundMonotone(x, a as real);
    }
    RoundOfInt(a);
    RoundOfInt(b);
  }

  /** With t in [0, 1], each component of a mix lies between the two
      endpoints' components (white standing in for a malformed endpoint). */
  lemma MixBetween(hex1: string, hex2: string, t: real)
    requires 0.0 <= t <= 1.0
    ensures var a := HexToRgb(hex1); var b := HexToRgb(hex2); var m := HexToRgb(Mix(hex1, hex2, t));
      MinR(a.r as real, b.r as real) <= m.r as real <= MaxR(a.r as real, b.r as real) &&
      MinR(a.g as real, b.g as real) <= m.g as real <= MaxR(a.g as real, b.g as real) &&
      MinR(a.b as real, b.b as real) <= m.b as real <= MaxR(a.b as real, b.b as real)
  {
    var a := HexToRgb(hex1);
    var b := HexToRgb(hex2);
    MixComponentBetween(a.r, b.r, t);
    MixComponentBetween(a.g, b.g, t);
    MixComponentBetween(a.b, b.b, t);
    ColourRoundTrip(MixComponent(a.r, b.r, t), MixComponent(a.g, b.g, t), MixComponent(a.b, b.b, t));
  }

  // ------------------------------------------------------------ BPM slider

  /** `parseInt(attr, 10) || fallback`: None stands for an unparsable attribute. */
  function SliderBound(parsed: Option<int>, fallback: int): int {
    if parsed.Some? && parsed.value != 0 then parsed.value else fallback
  }

  /** What `refreshBpmUI` shows and applies: the target BPM, the playback
      rate handed to the deck (None: not touched) and the slider value. */
  datatype BpmView = BpmView(target: int, rate: Option<real>, slider: real)

  /** The detected BPM, when the analysis produced a non-zero one. */
  predicate HasBpm(detected: Option<real>) {
    detected.Some? && detected.value != 0.0
  }

  function Center(minAttr: Option<int>, maxAttr: Option<int>): real {
    (SliderBound(minAttr, 60) + SliderBound(maxAttr, 180)) as real / 2.0
  }

  /** `refreshBpmUI`: an untouched slider sits at the centre; the rate is the
      slider over the centre once touched, and 1.0 for an untouched slider
      with a detected BPM; the target is the detected BPM scaled by that
      ratio, or the slider value without a detection. */
  function RefreshBpm(detected: Option<real>, minAttr: Option<int>, maxAttr: Option<int>,
                      sliderVal: real, userChanged: bool): BpmView
    requires Center(minAttr, maxAttr) != 0.0
  {
    var center := Center(minAttr, maxAttr);
    var slider := if userChanged then sliderVal else center;
    var ratio := Div(slider, center);
    var target := if HasBpm(detected) then Round(Mul(detected.value, ratio)) else Round(slider);
    var rate :=
      if HasBpm(detected) then Some(if userChanged then ratio else 1.0)
      else if userChanged then Some(ratio) else None;
    BpmView(target, rate, slider)
  }

  /** With a detected BPM, the target shown is always that BPM times the
      rate applied to the deck, rounded; an untouched slider keeps native
      speed and shows the detected BPM itself. */
  lemma BpmTargetFollowsRate(detected: Option<real>, minAttr: Option<int>, maxAttr: Option<int>,
                             sliderVal: real, userChanged: bool)
    requires Center(minAttr, maxAttr) != 0.0 && HasBpm(detected)
    ensures var v := RefreshBpm(detected, minAttr, maxAttr, sliderVal, userChanged);
      v.rate.Some? && v.target == Round(Mul(detected.value, v.rate.value)) &&
      (!userChanged ==> v.rate == Some(1.0) && v.target == Round(detected.value)) &&
      (userChanged ==> v.rate == Some(Div(sliderVal, Center(minAttr, maxAttr))))
  {
    var center := Center(minAttr, maxAttr);
    if !userChanged {
      DivSelf(center);
      assert Mul(detected.value, 1.0) == detected.value;
    }
  }

  /** Without a detected BPM the rate is left alone until the slider is
      touched, and the target shown is the rounded slider value. */
  lemma BpmWithoutDetection(minAttr: Option<int>, maxAttr: Option<int>, sliderVal: real, userChanged: bool)
    requires Center(minAttr, maxAttr) != 0.0
    ensures var v := RefreshBpm(None, minAttr, maxAttr, sliderVal, userChanged);
      (v.rate.Some? <==> userChanged) && v.target == Round(v.slider)
  {
  }
}
