/** The value logic of the mixer panel: rotary knobs (clamping, detent
    snapping, stepping, keyboard control), the channel faders and
    crossfader feeding the two deck gains, the master-gain curve, and the
    ten-segment level meters. */
module Mixer {
  import opened Num

  // ------------------------------------------------------------ knob values

  /** The knob step every knob of the panel uses: one hundredth. */
  const Step: real := 0.01

  /** `toStep`: the nearest multiple of the step. */
  function ToStep(x: real): real {
    Round(x * 100.0) as real / 100.0
  }

  /** A stepped value lies within half a step of the value it came from,
      and a value in [0, 1] stays in [0, 1]. */
  lemma ToStepFacts(x: real)
    ensures x - Step / 2.0 <= ToStep(x) <= x + Step / 2.0
    ensures 0.0 <= x <= 1.0 ==> 0.0 <= ToStep(x) <= 1.0
  {
    if 0.0 <= x <= 1.0 {
      RoundMonotone(0.0, x * 100.0);
      RoundMonotone(x * 100.0, 100.0);
      RoundOfInt(0);
      RoundOfInt(100);
    }
  }

  /** A multiple of the step is its own stepped value. */
  lemma ToStepOfGrid(k: int)
    ensures ToStep(k as real / 100.0) == k as real / 100.0
  {
    assert (k as real / 100.0) * 100.0 == k as real;
    RoundOfInt(k);
  }

  /** The drag candidate snapped to the detent when within 0.02 of it. */
  function Snap(x: real, detent: Option<real>): real {
    if detent.Some? && Abs(x - detent.value) < 0.02 then detent.value else x
  }

  /** The value a drag by (dx, dy) pixels proposes: down lowers it by 0.004
      per pixel, right raises it by 0.001, then snap, clamp and step. */
  function Dragged(v: real, dx: real, dy: real, detent: Option<real>): real {
    ToStep(Clamp01(Snap(v - dy * 0.004 + dx * 0.001, detent)))
  }

  /** A drag ends in [0, 1], and a candidate near the detent lands on the
      stepped detent. */
  lemma DraggedFacts(v: real, dx: real, dy: real, detent: Option<real>)
    ensures 0.0 <= Dragged(v, dx, dy, detent) <= 1.0
    ensures detent.Some? && Abs(v - dy * 0.004 + dx * 0.001 - detent.value) < 0.02 ==>
      Dragged(v, dx, dy, detent) == ToStep(Clamp01(detent.value))
  {
    ToStepFacts(Clamp01(Snap(v - dy * 0.004 + dx * 0.001, detent)));
  }

  /** The keys the knob listens to. */
  datatype Key = ArrowUp | ArrowRight | ArrowDown | ArrowLeft | Home | End | OtherKey

  /** The value a key press sets, if the key is one the knob handles. */
  function KeyValue(v: real, k: Key): Option<real> {
    match k
    case ArrowUp | ArrowRight => Some(MinR(1.0, ToStep(v + Step)))
    case ArrowDown | ArrowLeft => Some(MaxR(0.0, ToStep(v - Step)))
    case Home => Some(0.0)
    case End => Some(1.0)
    case OtherKey => None
  }

  /** Home gives 0 and End 1; up and right never lower the value nor pass
      1, down and left never raise it nor pass 0. */
  lemma KeyFacts(v: real, k: Key)
    requires 0.0 <= v <= 1.0
    ensures k.OtherKey? <==> KeyValue(v, k).None?
    ensures KeyValue(v, k).Some? ==> 0.0 <= KeyValue(v, k).value <= 1.0
    ensures k == Home ==> KeyValue(v, k) == Some(0.0)
    ensures k == End ==> KeyValue(v, k) == Some(1.0)
    ensures (k == ArrowUp || k == ArrowRight) ==> KeyValue(v, k).value >= v || v == 1.0
    ensures (k == ArrowDown || k == ArrowLeft) ==> KeyValue(v, k).value <= v || v == 0.0
  {
    ToStepFacts(v + Step);
    ToStepFacts(v - Step);
  }

  /** From a grid value j/100, up moves to (j+1)/100 and down to (j-1)/100. */
  lemma KeyStepsOnce(j: int)
    requires 0 <= j <= 100
    ensures j < 100 ==> KeyValue(j as real / 100.0, ArrowUp) == Some((j + 1) as real / 100.0)
    ensures 0 < j ==> KeyValue(j as real / 100.0, ArrowDown) == Some((j - 1) as real / 100.0)
    ensures j == 100 ==> KeyValue(1.0, ArrowUp) == Some(1.0)
    ensures j == 0 ==> KeyValue(0.0, ArrowDown) == Some(0.0)
  {
    ToStepOfGrid(j + 1);
    ToStepOfGrid(j - 1);
    ToStepOfGrid(101);
    ToStepOfGrid(-1);
  }

  /** A rotary knob with a value in [0, 1], the panel's step and an optional detent. */
  class Knob {
    var v: real
    var dragging: bool
    var lastX: real
    var lastY: real
    /** The values passed to the knob's change callback, oldest first. */
    var emitted: seq<real>
    const detent: Option<real>

    predicate Valid()
      reads this
    {
      0.0 <= v <= 1.0
    }

    constructor(value: real, detent: Option<real>)
      ensures Valid() && v == Clamp01(value) && !dragging && emitted == []
      ensures this.detent == detent
    {
      v := Clamp01(value);
      dragging := false;
      lastX := 0.0;
      lastY := 0.0;
      emitted := [];
      this.detent := detent;
    }

    function GetValue(): real
      reads this
    {
      v
    }

    method PointerDown(x: real, y: real)
      modifies this
      ensures dragging && lastX == x && lastY == y
      ensures v == old(v) && emitted == old(emitted)
    {
      dragging := true;
      lastY := y;
      lastX := x;
    }

    method PointerMove(x: real, y: real)
      requires Valid()
      modifies this
      ensures Valid() && dragging == old(dragging)
      ensures !old(dragging) ==> v == old(v) && emitted == old(emitted) && lastX == old(lastX) && lastY == old(lastY)
      ensures old(dragging) ==> lastX == x && lastY == y
      ensures old(dragging) ==> v == Dragged(old(v), x - old(lastX), y - old(lastY), detent)
      ensures old(dragging) ==> emitted == if v == old(v) then old(emitted) else old(emitted) + [v]
    {
      if !dragging {
        return;
      }
      var dy := y - lastY;
      var dx := x - lastX;
      lastY := y;
      lastX := x;
      var nv := v - dy * 0.004 + dx * 0.001;
      if detent.Some? && Abs(nv - detent.value) < 0.02 {
        nv := detent.value;
      }
      nv := Clamp01(nv);
      nv := ToStep(nv);
      DraggedFacts(v, dx, dy, detent);
      if nv != v {
        v := nv;
        emitted := emitted + [v];
      }
    }

    method PointerUp()
      modifies this
      ensures !dragging && v == old(v) && emitted == old(emitted)
    {
      dragging := false;
    }

    method OnKey(k: Key)
      requires Valid()
      modifies this
      ensures Valid() && dragging == old(dragging)
      ensures KeyValue(old(v), k).None? ==> v == old(v) && emitted == old(emitted)
      ensures KeyValue(old(v), k).Some? ==>
        v == KeyValue(old(v), k).value && emitted == old(emitted) + [v]
    {
      KeyFacts(v, k);
      if k == ArrowUp || k == ArrowRight {
        v := MinR(1.0, ToStep(v + Step));
        emitted := emitted + [v];
      }
      if k == ArrowDown || k == ArrowLeft {
        v := MaxR(0.0, ToStep(v - Step));
        emitted := emitted + [v];
      }
      if k == Home {
        v := 0.0;
        emitted := emitted + [v];
      }
      if k == End {
        v := 1.0;
        emitted := emitted + [v];
      }
    }

    /** `setValue`: clamps without stepping and without calling back. */
    method SetValue(nv: real)
      requires Valid()
      modifies this
      ensures Valid() && v == Clamp01(nv) && emitted == old(emitted) && dragging == old(dragging)
    {
      v := Clamp01(nv);
    }
  }

  // ------------------------------------------------------------ gains

  /** `safeRangeVal`: the slider's value clamped to [0, 1], or the clamped
      fallback when the value is not a finite number (None). */
  function SafeRangeVal(value: Option<real>, fallback: real): (r: real)
    ensures 0.0 <= r <= 1.0
    ensures value.Some? ==> r == Clamp01(value.value)
    ensures value.None? ==> r == Clamp01(fallback)
  {
    Clamp01(if value.Some? then value.value else fallback)
  }

  /** The crossfader law of `updateDeckGains`: deck A gets its fader times
      (1 - cross), deck B its fader times cross. */
  function DeckGains(aFader: real, bFader: real, cross: real): (real, real) {
    (Mul(Clamp01(aFader), 1.0 - Clamp01(cross)), Mul(Clamp01(bFader), Clamp01(cross)))
  }

  /** Both gains lie in [0, 1]; with both faders up they sum to 1 and
      equal (1 - cross, cross). */
  lemma DeckGainsFacts(aFader: real, bFader: real, cross: real)
    ensures var g := DeckGains(aFader, bFader, cross);
      0.0 <= g.0 <= 1.0 && 0.0 <= g.1 <= 1.0
    ensures aFader >= 1.0 && bFader >= 1.0 ==>
      var g := DeckGains(aFader, bFader, cross);
      g.0 + g.1 == 1.0 && g.1 == Clamp01(cross)
  {
    MulAtMost(Clamp01(aFader), 1.0 - Clamp01(cross));
    MulAtMost(Clamp01(bFader), Clamp01(cross));
  }

  /** Moving the crossfader toward B never raises A's gain nor lowers B's. */
  lemma CrossfadeMonotone(aFader: real, bFader: real, c1: real, c2: real)
    requires c1 <= c2
    ensures DeckGains(aFader, bFader, c2).0 <= DeckGains(aFader, bFader, c1).0
    ensures DeckGains(aFader, bFader, c1).1 <= DeckGains(aFader, bFader, c2).1
  {
    ClampMonotone(c1, c2, 0.0, 1.0);
    MulMonotone(1.0 - Clamp01(c2), 1.0 - Clamp01(c1), Clamp01(aFader));
    MulMonotone(Clamp01(c1), Clamp01(c2), Clamp01(bFader));
    assert Mul(Clamp01(aFader), 1.0 - Clamp01(c2)) == Mul(1.0 - Clamp01(c2), Clamp01(aFader));
    assert Mul(Clamp01(aFader), 1.0 - Clamp01(c1)) == Mul(1.0 - Clamp01(c1), Clamp01(aFader));
    assert Mul(Clamp01(bFader), Clamp01(c1)) == Mul(Clamp01(c1), Clamp01(bFader));
    assert Mul(Clamp01(bFader), Clamp01(c2)) == Mul(Clamp01(c2), Clamp01(bFader));
  }

  /** The master knob's perceptual curve: gain = v². */
  function MasterGain(v: real): real {
    Mul(v, v)
  }

  /** For a knob value in [0, 1] the master gain lies in [0, 1], stays
      below the knob value, and grows with it. */
  lemma MasterGainFacts(v: real, w: real)
    requires 0.0 <= v <= w <= 1.0
    ensures 0.0 <= MasterGain(v) <= v
    ensures MasterGain(v) <= MasterGain(w) <= 1.0
    ensures MasterGain(1.0) == 1.0 && MasterGain(0.0) == 0.0
  {
    MulAtMost(v, v);
    MulAtMost(w, w);
    MulMonotone(v, w, v);
    MulMonotone(v, w, w);
    assert Mul(w, v) == Mul(v, w);
  }

  datatype Side = A | B

  /** The mixer's shared state and the gains last handed to the decks and the engine. */
  class MixerState {
    var cross: real
    var aFader: real
    var bFader: real
    var master: real
    var gainA: real
    var gainB: real

    predicate Valid()
      reads this
    {
      0.0 <= cross <= 1.0 && 0.0 <= aFader <= 1.0 && 0.0 <= bFader <= 1.0 &&
      (gainA, gainB) == DeckGains(aFader, bFader, cross)
    }

    /** Initial state, then the initial `updateDeckGains`. */
    constructor()
      ensures Valid() && cross == 0.5 && aFader == 1.0 && bFader == 1.0 && master == 1.0
      ensures gainA == 0.5 && gainB == 0.5
    {
      cross := 0.5;
      aFader := 1.0;
      bFader := 1.0;
      master := 1.0;
      gainA := Mul(Clamp01(1.0), 1.0 - Clamp01(0.5));
      gainB := Mul(Clamp01(1.0), Clamp01(0.5));
    }

    method UpdateDeckGains()
      modifies this
      ensures (gainA, gainB) == DeckGains(aFader, bFader, cross)
      ensures cross == old(cross) && aFader == old(aFader) && bFader == old(bFader) && master == old(master)
    {
      var a := Mul(Clamp01(aFader), 1.0 - Clamp01(cross));
      var b := Mul(Clamp01(bFader), Clamp01(cross));
      gainA := a;
      gainB := b;
    }

    /** The crossfader's `input` event. */
    method OnCross(value: Option<real>)
      requires Valid()
      modifies this
      ensures Valid() && cross == SafeRangeVal(value, old(cross))
      ensures aFader == old(aFader) && bFader == old(bFader) && master == old(master)
    {
      cross := SafeRangeVal(value, cross);
      UpdateDeckGains();
    }

    /** A channel fader's `input` event. */
    method OnFader(side: Side, value: Option<real>)
      requires Valid()
      modifies this
      ensures Valid() && cross == old(cross) && master == old(master)
      ensures side == A ==> aFader == SafeRangeVal(value, old(aFader)) && bFader == old(bFader)
      ensures side == B ==> bFader == SafeRangeVal(value, old(bFader)) && aFader == old(aFader)
    {
      if side == A {
        aFader := SafeRangeVal(value, aFader);
      } else {
        bFader := SafeRangeVal(value, bFader);
      }
      UpdateDeckGains();
    }

    /** The master knob's change callback: the gain handed to the engine is v². */
    method OnMaster(v: real)
      requires Valid()
      modifies this
      ensures Valid() && master == MasterGain(v)
      ensures cross == old(cross) && aFader == old(aFader) && bFader == old(bFader)
      ensures gainA == old(gainA) && gainB == old(gainB)
    {
      master := Mul(v, v);
    }
  }

  // ------------------------------------------------------------ meters

  /** One analyser byte as a signed sample in [-1, 1). */
  function Centered(b: int): real {
    (b - 128) as real / 128.0
  }

  /** The sum of squared centred samples. */
  function SumSq(u8: seq<int>): real
    decreases |u8|
  {
    if |u8| == 0 then 0.0 else SumSq(u8[..|u8| - 1]) + Mul(Centered(u8[|u8| - 1]), Centered(u8[|u8| - 1]))
  }

  predicate Bytes(u8: seq<int>) {
    forall i :: 0 <= i < |u8| ==> 0 <= u8[i] <= 255
  }

  /** Each byte contributes a square in [0, 1], so the sum lies in [0, len]. */
  lemma {:induction false} SumSqBounds(u8: seq<int>)
    requires Bytes(u8)
    ensures 0.0 <= SumSq(u8) <= |u8| as real
    decreases |u8|
  {
    if |u8| > 0 {
      var last := u8[|u8| - 1];
      assert 0 <= last <= 255;
      var c := Centered(last);
      assert -1.0 <= c <= 1.0;
      SquareUnit(c);
      var init := u8[..|u8| - 1];
      assert Bytes(init) by {
        forall i | 0 <= i < |init| ensures 0 <= init[i] <= 255 {
          assert init[i] == u8[i];
        }
      }
      SumSqBounds(init);
    }
  }

  lemma MeanUnit(s: real, n: real)
    requires n > 0.0 && 0.0 <= s <= n
    ensures 0.0 <= s / n <= 1.0
  {
    var q := s / n;
    assert q * n == s;
  }

  /** The accumulation loop of `levelFromBuf`: the mean square of the
      centred bytes, which lies in [0, 1]. */
  method MeanSquare(u8: seq<int>) returns (ms: real)
    requires |u8| > 0 && Bytes(u8)
    ensures ms == SumSq(u8) / |u8| as real
    ensures 0.0 <= ms <= 1.0
  {
    var sum := 0.0;
    var i := 0;
    while i < |u8|
      invariant 0 <= i <= |u8|
      invariant sum == SumSq(u8[..i])
    {
      var v := Centered(u8[i]);
      assert u8[..i + 1][..i] == u8[..i];
      sum := sum + Mul(v, v);
      i := i + 1;
    }
    assert u8[..|u8|] == u8;
    ms := sum / |u8| as real;
    SumSqBounds(u8);
    MeanUnit(sum, |u8| as real);
  }

  /** The meter percentage from the soft-knee curve value
      `Math.pow(Math.sqrt(ms) * 1.8, 0.85)`, which is never negative. */
  function LevelPercent(curve: real): (pct: int)
    requires curve >= 0.0
    ensures 0 <= pct <= 100
  {
    var scaled := MinR(1.0, curve);
    RoundMonotone(0.0, scaled * 100.0);
    RoundMonotone(scaled * 100.0, 100.0);
    RoundOfInt(0);
    RoundOfInt(100);
    Round(scaled * 100.0)
  }

  /** The number of lit segments for a percentage. */
  function ActiveSegments(pct: int): (act: int)
    ensures 0 <= act <= 10
  {
    var r := Round(pct as real / 10.0);
    if r > 10 then 10 else if r < 0 then 0 else r
  }

  /** A meter segment's classes. */
  datatype Segment = Segment(on: bool, warn: bool, clip: bool)

  /** The segment loop of the meter's `tick`. */
  method LightSegments(act: int) returns (segs: seq<Segment>)
    ensures |segs| == 10
    ensures forall i :: 0 <= i < 10 ==>
      segs[i] == Segment(i < act, 7 <= i < act, 9 <= i < act)
  {
    segs := [];
    for i := 0 to 10
      invariant |segs| == i
      invariant forall j :: 0 <= j < i ==> segs[j] == Segment(j < act, 7 <= j < act, 9 <= j < act)
    {
      segs := segs + [Segment(i < act, i >= 7 && i < act, i >= 9 && i < act)];
    }
  }

  /** The number of lit segments. */
  function CountOn(segs: seq<Segment>): nat {
    if |segs| == 0 then 0 else CountOn(segs[..|segs| - 1]) + (if segs[|segs| - 1].on then 1 else 0)
  }

  lemma {:induction false} CountPrefix(segs: seq<Segment>, act: int, k: nat)
    requires 0 <= act <= 10 && k <= |segs| == 10
    requires forall i :: 0 <= i < 10 ==> segs[i].on == (i < act)
    ensures CountOn(segs[..k]) == if k < act then k else act
  {
    if k > 0 {
      CountPrefix(segs, act, k - 1);
      assert segs[..k][..k - 1] == segs[..k - 1];
    }
  }

  /** Exactly `act` segments light up, the lit ones form a prefix, and a
      clipping segment is also a warning one, which is also lit. */
  lemma MeterFacts(segs: seq<Segment>, act: int)
    requires 0 <= act <= 10 && |segs| == 10
    requires forall i :: 0 <= i < 10 ==> segs[i] == Segment(i < act, 7 <= i < act, 9 <= i < act)
    ensures CountOn(segs) == act
    ensures forall i, j :: 0 <= i < j < 10 && segs[j].on ==> segs[i].on
    ensures forall i :: 0 <= i < 10 ==> (segs[i].clip ==> segs[i].warn) && (segs[i].warn ==> segs[i].on)
  {
    CountPrefix(segs, act, 10);
    assert segs[..10] == segs;
  }
}
