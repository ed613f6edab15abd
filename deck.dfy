/** The per-deck transport controller: play, pause and seek behind a 40 ms
    debounce and an 8 ms operation lock, the play-clock reference behind
    `getPosition`, and the main, temporary and hot cues with the cue button's
    tap-versus-hold logic.

    `Date.now()` and the audio context's `currentTime` are inputs of each
    operation (`now` in milliseconds, `ctx` in seconds). The lock's release
    timer becomes a lock-expiry timestamp, the 180 ms hold timer a pending
    deadline fired by `Tick`, and the `onUpdate` callback an outbox of
    updates. An audio source is named by a number; stopping it detaches its
    `onended` handler, so only `OnEnded` of the current source has an effect. */
module DeckTransport {
  import opened Num

  /** A `play` or `pause` within this many ms of the last accepted one is ignored. */
  const DebounceMs: int := 40
  /** The operation lock is released this many ms after it is taken. */
  const LockMs: int := 8
  /** Holding the cue button this long while stopped starts playback. */
  const HoldMs: int := 180

  /** The messages the deck posts through `onUpdate`. */
  datatype Update =
    | Loaded(duration: real)
    | Ended
    | Played
    | Paused
    | Sought(position: real)
    | TempCueSet(position: real)
    | TempCueStopped(position: real)
    | CueReturned(position: real)
    | RateChanged(rate: real)

  /** A pending hold timer: its handle and the time it is due. */
  datatype HoldTimer = HoldTimer(id: nat, due: int)

  /** A snapshot of every field of the deck that the transport touches.
      `buffer` is the loaded buffer's duration in seconds. */
  datatype DeckState = DeckState(
    buffer: Option<real>,
    source: Option<nat>,
    nextSource: nat,
    playing: bool,
    startTime: real,
    pausedAt: real,
    playbackRate: real,
    playStartCtx: Option<real>,
    playStartOffset: real,
    cues: map<int, real>,
    mainCue: Option<real>,
    tempCue: Option<real>,
    tempCuePlaying: bool,
    cueHoldWaiting: bool,
    cueHoldTimer: Option<nat>,
    holdTimers: seq<HoldTimer>,
    nextTimer: nat,
    lastAction: int,
    lockExpiry: int,
    updates: seq<Update>
  )

  function Initial(): DeckState {
    DeckState(None, None, 0, false, 0.0, 0.0, 1.0, None, 0.0, map[], None, None, false,
              false, None, [], 0, 0, 0, [])
  }

  /** The invariant every operation keeps: a non-negative duration; the
      paused position and the main and temporary cues inside [0, duration]
      (at 0 with no buffer); a playing deck has a buffer, a source and a
      clock reference; source and timer handles are below the next fresh one. */
  predicate Inv(d: DeckState) {
    (d.buffer.Some? ==> d.buffer.value >= 0.0) &&
    0.0 <= d.pausedAt <= CueLimit(d) &&
    (d.mainCue.Some? ==> 0.0 <= d.mainCue.value <= CueLimit(d)) &&
    (d.tempCue.Some? ==> 0.0 <= d.tempCue.value <= CueLimit(d)) &&
    (d.playing ==> d.buffer.Some? && d.source.Some? && d.playStartCtx.Some?) &&
    (d.source.Some? ==> d.source.value < d.nextSource) &&
    (d.cueHoldTimer.Some? ==> d.cueHoldTimer.value < d.nextTimer) &&
    TimersBelow(d.holdTimers, d.nextTimer)
  }

  /** Every pending timer's handle is below `next`. */
  predicate TimersBelow(ts: seq<HoldTimer>, next: nat) {
    forall i :: 0 <= i < |ts| ==> ts[i].id < next
  }

  predicate Debounced(d: DeckState, now: int) {
    now - d.lastAction < DebounceMs
  }

  predicate Locked(d: DeckState, now: int) {
    now < d.lockExpiry
  }

  /** The duration cues are clamped to: the buffer's, or 0 with none. */
  function CueLimit(d: DeckState): real {
    if d.buffer.Some? then d.buffer.value else 0.0
  }

  /** The unclamped position the play clock points at: the track offset at
      the start plus the elapsed context time scaled by the rate. */
  function LivePosition(d: DeckState, s: real, ctx: real): real {
    d.playStartOffset + Mul(ctx - s, d.playbackRate)
  }

  /** `getPosition`. */
  function Position(d: DeckState, ctx: real): real {
    if d.buffer.None? then 0.0
    else if d.playing then
      match d.playStartCtx
      case Some(s) => Clamp(LivePosition(d, s, ctx), 0.0, d.buffer.value)
      case None => Clamp(Mul(ctx - d.startTime, d.playbackRate), 0.0, d.buffer.value)
    else d.pausedAt
  }

  /** `play`: debounce, refuse when playing or locked, take the lock, replace
      the source and, when it starts, record the clock reference. */
  function PlayStep(d: DeckState, now: int, ctx: real, started: bool): DeckState {
    if Debounced(d, now) then d
    else
      var d1 := d.(lastAction := now);
      if d1.playing || Locked(d1, now) then d1
      else LaunchStep(d1.(lockExpiry := now + LockMs, source := None), ctx, started)
  }

  /** The body of an accepted `play`, once the lock is taken and the old
      source dropped: make a source and start it at the paused position. */
  function LaunchStep(d: DeckState, ctx: real, started: bool): DeckState {
    if d.buffer.None? then d.(playStartCtx := None, playStartOffset := 0.0)
    else
      var d1 := d.(source := Some(d.nextSource), nextSource := d.nextSource + 1,
                   playStartOffset := d.pausedAt, playStartCtx := Some(ctx), startTime := ctx);
      if started then d1.(playing := true, updates := d1.updates + [Played])
      else d1.(playStartCtx := None, playStartOffset := 0.0, startTime := 0.0)
  }

  /** The position `pause` stores: the clock's position, or `pausedAt` when
      there is no clock, clamped to [0, duration] (to [0, ∞) with no buffer). */
  function PausedPosition(d: DeckState, ctx: real): real {
    var pos := if d.playStartCtx.Some? then LivePosition(d, d.playStartCtx.value, ctx) else d.pausedAt;
    if d.buffer.Some? then Clamp(pos, 0.0, d.buffer.value) else MaxR(0.0, pos)
  }

  /** `pause`. */
  function PauseStep(d: DeckState, now: int, ctx: real): DeckState {
    if Debounced(d, now) then d
    else
      var d1 := d.(lastAction := now);
      if !d1.playing || Locked(d1, now) then d1
      else HaltStep(d1.(lockExpiry := now + LockMs, source := None), ctx)
  }

  /** The body of an accepted `pause`, once the lock is taken and the source
      dropped: store the position and clear the clock reference. */
  function HaltStep(d: DeckState, ctx: real): DeckState {
    d.(pausedAt := PausedPosition(d, ctx), playStartCtx := None, playStartOffset := 0.0,
       startTime := 0.0, playing := false, updates := d.updates + [Paused])
  }

  /** `seek` raises a TypeError (reading the duration of a missing buffer)
      once it has taken the lock. */
  predicate SeekThrows(d: DeckState, now: int) {
    !Locked(d, now) && d.buffer.None?
  }

  /** `seek`: refused while locked; otherwise take the lock, stop a playing
      source, clamp the target into the buffer and call `play`, which the
      lock just taken refuses. */
  function SeekStep(d: DeckState, seconds: real, now: int, ctx: real, started: bool): DeckState {
    if Locked(d, now) then d
    else RelocateStep(d.(lockExpiry := now + LockMs), seconds, now, ctx, started)
  }

  /** The body of `seek` once it holds the lock. */
  function RelocateStep(d: DeckState, seconds: real, now: int, ctx: real, started: bool): DeckState {
    if d.buffer.None? then
      if d.playing then d.(source := None, playing := false) else d
    else
      var target := Clamp(seconds, 0.0, d.buffer.value);
      var d1 :=
        if d.playing then PlayStep(d.(source := None, playing := false, pausedAt := target), now, ctx, started)
        else d.(pausedAt := target);
      d1.(updates := d1.updates + [Sought(d1.pausedAt)])
  }

  /** The `onended` handler of source `id`: only the current source counts. */
  function OnEndedStep(d: DeckState, id: nat): DeckState {
    if d.source == Some(id) then
      d.(playing := false, source := None, playStartCtx := None, playStartOffset := 0.0,
         startTime := 0.0, updates := d.updates + [Ended])
    else d
  }

  /** `loadFile` as written, once the file is decoded into a buffer of this
      duration: the main and temporary cues of the previous track are kept. */
  function LoadStepAsWritten(d: DeckState, duration: real): DeckState {
    d.(buffer := Some(duration), pausedAt := 0.0, playing := false,
       updates := d.updates + [Loaded(duration)])
  }

  /** A kept cue clamped into [0, limit]. */
  function ClampCue(c: Option<real>, limit: real): Option<real> {
    if c.Some? then Some(Clamp(c.value, 0.0, limit)) else None
  }

  /** `loadFile` with the main and temporary cues clamped into the new
      track, as `setMainCue` and `setTempCue` clamp them. */
  function LoadStep(d: DeckState, duration: real): DeckState {
    LoadStepAsWritten(d, duration).(mainCue := ClampCue(d.mainCue, duration),
                                    tempCue := ClampCue(d.tempCue, duration))
  }

  /** Loading sets the buffer, rewinds and stops, keeps the source, clock
      reference and hot cues, and brings the main and temporary cues inside
      the new track, leaving a cue that already lies inside it alone. */
  lemma LoadClampsCues(d: DeckState, duration: real)
    ensures var r := LoadStep(d, duration);
      r.buffer == Some(duration) && r.pausedAt == 0.0 && !r.playing &&
      r.source == d.source && r.playStartCtx == d.playStartCtx && r.cues == d.cues &&
      r.mainCue.Some? == d.mainCue.Some? && r.tempCue.Some? == d.tempCue.Some? &&
      (duration >= 0.0 ==> (r.mainCue.Some? ==> 0.0 <= r.mainCue.value <= duration) &&
                           (r.tempCue.Some? ==> 0.0 <= r.tempCue.value <= duration)) &&
      (d.mainCue.Some? && 0.0 <= d.mainCue.value <= duration ==> r.mainCue == d.mainCue) &&
      (d.tempCue.Some? && 0.0 <= d.tempCue.value <= duration ==> r.tempCue == d.tempCue)
  {
  }

  /** `setPlaybackRate` as written: the rate changes under an unchanged clock reference. */
  function RateStepAsWritten(d: DeckState, v: real): DeckState {
    d.(playbackRate := v, updates := d.updates + [RateChanged(v)])
  }

  /** `setPlaybackRate` with the clock reference moved to the moment of the
      change, so that the elapsed time before it keeps the old rate. */
  function RateStep(d: DeckState, v: real, ctx: real): DeckState {
    var d1 :=
      if d.playStartCtx.Some? then
        d.(playStartOffset := LivePosition(d, d.playStartCtx.value, ctx), playStartCtx := Some(ctx))
      else d;
    d1.(playbackRate := v, updates := d1.updates + [RateChanged(v)])
  }

  function MainCueStep(d: DeckState, seconds: real): DeckState {
    d.(mainCue := Some(Clamp(seconds, 0.0, CueLimit(d))))
  }

  function TempCueStep(d: DeckState, seconds: real): DeckState {
    var c := Clamp(seconds, 0.0, CueLimit(d));
    d.(tempCue := Some(c), updates := d.updates + [TempCueSet(c)])
  }

  function HotCueStep(d: DeckState, n: int, seconds: real): DeckState {
    d.(cues := d.cues[n := seconds])
  }

  function JumpHotCueStep(d: DeckState, n: int, now: int, ctx: real, started: bool): DeckState {
    if n in d.cues then SeekStep(d, d.cues[n], now, ctx, started) else d
  }

  /** `startTempPlay`: restart from the temporary cue. */
  function StartTempPlayStep(d: DeckState, now: int, ctx: real, started: bool): DeckState {
    if d.buffer.None? || d.tempCue.None? then d
    else
      var d1 := PlayStep(d.(source := None, playing := false, pausedAt := d.tempCue.value), now, ctx, started);
      d1.(tempCuePlaying := true)
  }

  /** `stopTempPlay`: pause and return to the temporary cue. */
  function StopTempPlayStep(d: DeckState, now: int, ctx: real): DeckState {
    if !d.tempCuePlaying then d
    else
      var d1 := if d.playing then PauseStep(d, now, ctx) else d;
      var d2 := if d1.tempCue.Some? then d1.(pausedAt := d1.tempCue.value) else d1;
      d2.(tempCuePlaying := false, updates := d2.updates + [TempCueStopped(d2.pausedAt)])
  }

  /** `cueHoldStart`: while playing, drop a temporary cue at the current
      position and restart from it (the old source is stopped but stays
      current until `play` replaces it); while stopped, go to the main cue
      and arm the hold timer. */
  function CueHoldStartStep(d: DeckState, now: int, ctx: real, started: bool): DeckState {
    if d.buffer.None? then d
    else if d.playing then TempRestartStep(d, Position(d, ctx), now, ctx, started)
    else ArmHoldStep(d, now)
  }

  /** `cueHoldStart` on a playing deck: a temporary cue at `cur`, played from. */
  function TempRestartStep(d: DeckState, cur: real, now: int, ctx: real, started: bool): DeckState {
    PlayStep(d.(tempCue := Some(cur), playing := false, pausedAt := cur), now, ctx, started).(tempCuePlaying := true)
  }

  /** `cueHoldStart` on a stopped deck: go to the main cue and arm the hold timer. */
  function ArmHoldStep(d: DeckState, now: int): DeckState {
    var d1 :=
      if d.mainCue.Some? then d.(pausedAt := d.mainCue.value, updates := d.updates + [Sought(d.mainCue.value)])
      else d;
    d1.(cueHoldWaiting := true, cueHoldTimer := Some(d1.nextTimer), nextTimer := d1.nextTimer + 1,
        holdTimers := d1.holdTimers + [HoldTimer(d1.nextTimer, now + HoldMs)])
  }

  /** The pending timers without the one whose handle is `id` (`clearTimeout`). */
  function Cancel(ts: seq<HoldTimer>, id: nat): (r: seq<HoldTimer>)
    ensures forall i :: 0 <= i < |r| ==> r[i].id != id
    ensures forall i :: 0 <= i < |r| ==> r[i] in ts
    ensures forall i :: 0 <= i < |ts| && ts[i].id != id ==> ts[i] in r
  {
    if |ts| == 0 then []
    else if ts[0].id == id then Cancel(ts[1..], id)
    else [ts[0]] + Cancel(ts[1..], id)
  }

  /** `cueHoldEnd`: after a temporary play, pause and return to the temporary
      cue (else the main cue); after a tap, cancel the hold timer and go to
      the main cue. */
  function CueHoldEndStep(d: DeckState, now: int, ctx: real): DeckState {
    if d.buffer.None? then d
    else if d.tempCuePlaying then CueReturnStep(d, now, ctx)
    else if d.cueHoldWaiting then TapStep(d)
    else d
  }

  /** The end of a temporary play: pause, then back to the temporary cue,
      else the main cue. */
  function CueReturnStep(d: DeckState, now: int, ctx: real): DeckState {
    var d1 := if d.playing then PauseStep(d, now, ctx) else d;
    var d2 :=
      if d1.tempCue.Some? then d1.(pausedAt := d1.tempCue.value)
      else if d1.mainCue.Some? then d1.(pausedAt := d1.mainCue.value)
      else d1;
    d2.(tempCuePlaying := false, tempCue := None, updates := d2.updates + [CueReturned(d2.pausedAt)])
  }

  /** A release before the hold timer fired: cancel it, go to the main cue. */
  function TapStep(d: DeckState): DeckState {
    var d1 :=
      if d.cueHoldTimer.Some? then d.(holdTimers := Cancel(d.holdTimers, d.cueHoldTimer.value), cueHoldTimer := None)
      else d;
    var d2 := d1.(cueHoldWaiting := false);
    if d2.mainCue.Some? then d2.(pausedAt := d2.mainCue.value, updates := d2.updates + [Sought(d2.mainCue.value)])
    else d2
  }

  /** The earliest pending hold timer fires once it is due: it starts
      playback from the main cue (or 0) as a temporary play. */
  function TickStep(d: DeckState, now: int, ctx: real, started: bool): DeckState {
    if |d.holdTimers| > 0 && d.holdTimers[0].due <= now then FireHoldStep(d, now, ctx, started)
    else d
  }

  /** The hold timer's callback, for the earliest pending timer. */
  function FireHoldStep(d: DeckState, now: int, ctx: real, started: bool): DeckState
    requires |d.holdTimers| > 0
  {
    var start := if d.mainCue.Some? then d.mainCue.value else 0.0;
    var d1 := d.(holdTimers := d.holdTimers[1..], cueHoldTimer := None, cueHoldWaiting := false, pausedAt := start);
    PlayStep(d1, now, ctx, started).(tempCuePlaying := true)
  }

  /** Everything that can happen to a deck. */
  datatype Action =
    | Play(now: int, ctx: real, started: bool)
    | Pause(now: int, ctx: real)
    | Seek(seconds: real, now: int, ctx: real, started: bool)
    | SourceEnded(id: nat)
    | Load(duration: real)
    | SetRate(rate: real, ctx: real)
    | SetMainCue(seconds: real)
    | SetTempCue(seconds: real)
    | SetHotCue(n: int, seconds: real)
    | JumpHotCue(n: int, now: int, ctx: real, started: bool)
    | StartTempPlay(now: int, ctx: real, started: bool)
    | StopTempPlay(now: int, ctx: real)
    | CueHoldStart(now: int, ctx: real, started: bool)
    | CueHoldEnd(now: int, ctx: real)
    | Tick(now: int, ctx: real, started: bool)

  /** A decoded buffer never has a negative duration. */
  predicate ActionOk(a: Action) {
    a.Load? ==> a.duration >= 0.0
  }

  function Step(d: DeckState, a: Action): DeckState {
    match a
    case Play(now, ctx, started) => PlayStep(d, now, ctx, started)
    case Pause(now, ctx) => PauseStep(d, now, ctx)
    case Seek(seconds, now, ctx, started) => SeekStep(d, seconds, now, ctx, started)
    case SourceEnded(id) => OnEndedStep(d, id)
    case Load(duration) => LoadStep(d, duration)
    case SetRate(v, ctx) => RateStep(d, v, ctx)
    case SetMainCue(seconds) => MainCueStep(d, seconds)
    case SetTempCue(seconds) => TempCueStep(d, seconds)
    case SetHotCue(n, seconds) => HotCueStep(d, n, seconds)
    case JumpHotCue(n, now, ctx, started) => JumpHotCueStep(d, n, now, ctx, started)
    case StartTempPlay(now, ctx, started) => StartTempPlayStep(d, now, ctx, started)
    case StopTempPlay(now, ctx) => StopTempPlayStep(d, now, ctx)
    case CueHoldStart(now, ctx, started) => CueHoldStartStep(d, now, ctx, started)
    case CueHoldEnd(now, ctx) => CueHoldEndStep(d, now, ctx)
    case Tick(now, ctx, started) => TickStep(d, now, ctx, started)
  }

  function Run(d: DeckState, acts: seq<Action>): DeckState
    decreases |acts|
  {
    if |acts| == 0 then d else Run(Step(d, acts[0]), acts[1..])
  }

  // ---------------------------------------------------------------- invariant

  /** `getPosition` always lies inside the track: in [0, duration], and 0
      with no buffer. */
  lemma PositionInTrack(d: DeckState, ctx: real)
    requires Inv(d)
    ensures 0.0 <= Position(d, ctx) <= CueLimit(d)
  {
  }

  lemma LaunchKeepsInv(d: DeckState, ctx: real, started: bool)
    requires Inv(d) && !d.playing
    ensures Inv(LaunchStep(d, ctx, started))
  {
  }

  lemma PlayKeepsInv(d: DeckState, now: int, ctx: real, started: bool)
    requires Inv(d)
    ensures Inv(PlayStep(d, now, ctx, started))
  {
    if !Debounced(d, now) && !d.playing && !Locked(d, now) {
      LaunchKeepsInv(d.(lastAction := now, lockExpiry := now + LockMs, source := None), ctx, started);
    }
  }

  lemma PauseKeepsInv(d: DeckState, now: int, ctx: real)
    requires Inv(d)
    ensures Inv(PauseStep(d, now, ctx))
  {
  }

  lemma SeekKeepsInv(d: DeckState, seconds: real, now: int, ctx: real, started: bool)
    requires Inv(d)
    ensures Inv(SeekStep(d, seconds, now, ctx, started))
  {
    if !Locked(d, now) && d.buffer.Some? && d.playing {
      var target := Clamp(seconds, 0.0, d.buffer.value);
      PlayKeepsInv(d.(lockExpiry := now + LockMs, source := None, playing := false, pausedAt := target), now, ctx, started);
    }
  }

  lemma CueHoldStartKeepsInv(d: DeckState, now: int, ctx: real, started: bool)
    requires Inv(d)
    ensures Inv(CueHoldStartStep(d, now, ctx, started))
  {
    if d.buffer.Some? {
      var cur := Position(d, ctx);
      PositionInTrack(d, ctx);
      if d.playing {
        PlayKeepsInv(d.(tempCue := Some(cur), playing := false, pausedAt := cur), now, ctx, started);
      } else {
        var d1 :=
          if d.mainCue.Some? then d.(pausedAt := d.mainCue.value, updates := d.updates + [Sought(d.mainCue.value)])
          else d;
        var r := CueHoldStartStep(d, now, ctx, started);
        assert r.holdTimers == d1.holdTimers + [HoldTimer(d1.nextTimer, now + HoldMs)];
        forall i | 0 <= i < |r.holdTimers|
          ensures r.holdTimers[i].id < r.nextTimer
        {
          if i < |d1.holdTimers| {
            assert r.holdTimers[i] == d1.holdTimers[i];
          }
        }
      }
    }
  }

  lemma CueHoldEndKeepsInv(d: DeckState, now: int, ctx: real)
    requires Inv(d)
    ensures Inv(CueHoldEndStep(d, now, ctx))
  {
    if d.buffer.Some? && d.tempCuePlaying && d.playing {
      PauseKeepsInv(d, now, ctx);
    } else if d.buffer.Some? && !d.tempCuePlaying && d.cueHoldWaiting && d.cueHoldTimer.Some? {
      var r := CueHoldEndStep(d, now, ctx);
      var ts := Cancel(d.holdTimers, d.cueHoldTimer.value);
      assert r.holdTimers == ts;
      forall i | 0 <= i < |ts|
        ensures ts[i].id < r.nextTimer
      {
        var j :| 0 <= j < |d.holdTimers| && d.holdTimers[j] == ts[i];
      }
    }
  }

  /** The state the hold timer's callback hands to `play` keeps the invariant. */
  lemma FireHoldKeepsInv(d: DeckState)
    requires Inv(d) && |d.holdTimers| > 0
    ensures var start := if d.mainCue.Some? then d.mainCue.value else 0.0;
      Inv(d.(holdTimers := d.holdTimers[1..], cueHoldTimer := None, cueHoldWaiting := false, pausedAt := start))
  {
    var start := if d.mainCue.Some? then d.mainCue.value else 0.0;
    var d1 := d.(holdTimers := d.holdTimers[1..], cueHoldTimer := None, cueHoldWaiting := false, pausedAt := start);
    forall i | 0 <= i < |d1.holdTimers|
      ensures d1.holdTimers[i].id < d1.nextTimer
    {
      assert d1.holdTimers[i] == d.holdTimers[i + 1];
    }
  }

  lemma TickKeepsInv(d: DeckState, now: int, ctx: real, started: bool)
    requires Inv(d)
    ensures Inv(TickStep(d, now, ctx, started))
  {
    if |d.holdTimers| > 0 && d.holdTimers[0].due <= now {
      var start := if d.mainCue.Some? then d.mainCue.value else 0.0;
      var d1 := d.(holdTimers := d.holdTimers[1..], cueHoldTimer := None, cueHoldWaiting := false, pausedAt := start);
      FireHoldKeepsInv(d);
      PlayKeepsInv(d1, now, ctx, started);
    }
  }

  /** Every action keeps the invariant. */
  lemma EndedKeepsInv(d: DeckState, id: nat)
    requires Inv(d)
    ensures Inv(OnEndedStep(d, id))
  {
  }

  lemma LoadKeepsInv(d: DeckState, duration: real)
    requires Inv(d) && duration >= 0.0
    ensures Inv(LoadStep(d, duration))
  {
  }

  lemma RateKeepsInv(d: DeckState, v: real, ctx: real)
    requires Inv(d)
    ensures Inv(RateStep(d, v, ctx))
  {
  }

  lemma CueSettersKeepInv(d: DeckState, seconds: real, n: int)
    requires Inv(d)
    ensures Inv(MainCueStep(d, seconds)) && Inv(TempCueStep(d, seconds)) && Inv(HotCueStep(d, n, seconds))
  {
  }

  lemma JumpHotCueKeepsInv(d: DeckState, n: int, now: int, ctx: real, started: bool)
    requires Inv(d)
    ensures Inv(JumpHotCueStep(d, n, now, ctx, started))
  {
    if n in d.cues {
      SeekKeepsInv(d, d.cues[n], now, ctx, started);
    }
  }

  lemma StartTempPlayKeepsInv(d: DeckState, now: int, ctx: real, started: bool)
    requires Inv(d)
    ensures Inv(StartTempPlayStep(d, now, ctx, started))
  {
    if d.buffer.Some? && d.tempCue.Some? {
      PlayKeepsInv(d.(source := None, playing := false, pausedAt := d.tempCue.value), now, ctx, started);
    }
  }

  lemma StopTempPlayKeepsInv(d: DeckState, now: int, ctx: real)
    requires Inv(d)
    ensures Inv(StopTempPlayStep(d, now, ctx))
  {
    if d.tempCuePlaying && d.playing {
      PauseKeepsInv(d, now, ctx);
    }
  }

  lemma StepKeepsInv(d: DeckState, a: Action)
    requires Inv(d) && ActionOk(a)
    ensures Inv(Step(d, a))
  {
    match a
    case Play(now, ctx, started) => PlayKeepsInv(d, now, ctx, started);
    case Pause(now, ctx) => PauseKeepsInv(d, now, ctx);
    case Seek(seconds, now, ctx, started) => SeekKeepsInv(d, seconds, now, ctx, started);
    case SourceEnded(id) => EndedKeepsInv(d, id);
    case Load(duration) => LoadKeepsInv(d, duration);
    case SetRate(v, ctx) => RateKeepsInv(d, v, ctx);
    case SetMainCue(seconds) => CueSettersKeepInv(d, seconds, 0);
    case SetTempCue(seconds) => CueSettersKeepInv(d, seconds, 0);
    case SetHotCue(n, seconds) => CueSettersKeepInv(d, seconds, n);
    case JumpHotCue(n, now, ctx, started) => JumpHotCueKeepsInv(d, n, now, ctx, started);
    case StartTempPlay(now, ctx, started) => StartTempPlayKeepsInv(d, now, ctx, started);
    case StopTempPlay(now, ctx) => StopTempPlayKeepsInv(d, now, ctx);
    case CueHoldStart(now, ctx, started) => CueHoldStartKeepsInv(d, now, ctx, started);
    case CueHoldEnd(now, ctx) => CueHoldEndKeepsInv(d, now, ctx);
    case Tick(now, ctx, started) => TickKeepsInv(d, now, ctx, started);
  }

  /** From the initial deck, any sequence of actions keeps the invariant: in
      particular a playing deck always has a clock reference. */
  lemma {:induction false} RunKeepsInv(d: DeckState, acts: seq<Action>)
    requires Inv(d)
    requires forall i :: 0 <= i < |acts| ==> ActionOk(acts[i])
    ensures Inv(Run(d, acts))
    decreases |acts|
  {
    if |acts| > 0 {
      StepKeepsInv(d, acts[0]);
      RunKeepsInv(Step(d, acts[0]), acts[1..]);
    }
  }

  // ------------------------------------------------------------ play / pause

  /** A `play` or `pause` inside the debounce window changes nothing. */
  lemma DebouncedIgnored(d: DeckState, now: int, ctx: real, started: bool)
    requires Debounced(d, now)
    ensures PlayStep(d, now, ctx, started) == d
    ensures PauseStep(d, now, ctx) == d
  {
  }

  /** `play` on a playing or locked deck only records the action time. */
  lemma PlayRefused(d: DeckState, now: int, ctx: real, started: bool)
    requires !Debounced(d, now) && (d.playing || Locked(d, now))
    ensures PlayStep(d, now, ctx, started) == d.(lastAction := now)
  {
  }

  /** Whether `play` leaves the deck playing: it was already, or the play was
      accepted, a source could be made from a buffer, and it started. */
  lemma PlayOutcome(d: DeckState, now: int, ctx: real, started: bool)
    ensures PlayStep(d, now, ctx, started).playing <==>
              d.playing || (!Debounced(d, now) && !Locked(d, now) && d.buffer.Some? && started)
  {
  }

  /** An accepted `play` that starts takes the lock, records the paused
      position as the clock's offset at `ctx`, and so reads back the paused
      position at that instant; one that fails leaves no clock reference. */
  lemma PlayStartsClock(d: DeckState, now: int, ctx: real, started: bool)
    requires Inv(d) && !Debounced(d, now) && !d.playing && !Locked(d, now) && d.buffer.Some?
    ensures var r := PlayStep(d, now, ctx, started);
      r.lockExpiry == now + LockMs && r.lastAction == now && r.source == Some(d.nextSource) &&
      (started ==> r.playing && r.playStartCtx == Some(ctx) && r.playStartOffset == d.pausedAt &&
                   Position(r, ctx) == Clamp(d.pausedAt, 0.0, d.buffer.value)) &&
      (!started ==> !r.playing && r.playStartCtx == None && r.playStartOffset == 0.0 && r.startTime == 0.0)
  {
    var r := PlayStep(d, now, ctx, started);
    if started {
      assert Mul(ctx - ctx, d.playbackRate) == 0.0;
      assert LivePosition(r, ctx, ctx) == d.pausedAt;
    }
  }

  /** An accepted `pause` freezes the deck at the position it was playing:
      from then on `getPosition` answers that position at any time. */
  lemma PauseFreezes(d: DeckState, now: int, ctx: real, later: real)
    requires Inv(d) && !Debounced(d, now) && d.playing && !Locked(d, now)
    ensures var r := PauseStep(d, now, ctx);
      !r.playing && r.playStartCtx.None? && r.source.None? && r.lockExpiry == now + LockMs &&
      r.pausedAt == Position(d, ctx) && Position(r, later) == Position(d, ctx)
  {
  }

  /** Every way the deck stops by itself or by `pause` also drops the clock
      reference: the current source ending, and a `pause` that is accepted. */
  lemma StoppingClearsClock(d: DeckState, id: nat, now: int, ctx: real)
    ensures d.source == Some(id) ==> !OnEndedStep(d, id).playing && OnEndedStep(d, id).playStartCtx.None?
    ensures d.playing && !Debounced(d, now) && !Locked(d, now) ==>
              !PauseStep(d, now, ctx).playing && PauseStep(d, now, ctx).playStartCtx.None?
  {
  }

  /** The `onended` of a source that is no longer current changes nothing. */
  lemma StaleEndedIgnored(d: DeckState, id: nat)
    requires d.source != Some(id)
    ensures OnEndedStep(d, id) == d
  {
  }

  // -------------------------------------------------------------------- seek

  lemma SeekRefusedWhileLocked(d: DeckState, seconds: real, now: int, ctx: real, started: bool)
    requires Locked(d, now)
    ensures SeekStep(d, seconds, now, ctx, started) == d
  {
  }

  /** A `seek` that gets the lock lands at the target clamped into the
      buffer and ends stopped, even when the deck was playing: the inner
      `play` is refused by the lock `seek` itself holds. The clock reference
      of the stopped play is left in place. */
  lemma SeekEndsStopped(d: DeckState, seconds: real, now: int, ctx: real, started: bool)
    requires Inv(d) && !Locked(d, now) && d.buffer.Some?
    ensures var r := SeekStep(d, seconds, now, ctx, started);
      !r.playing && r.pausedAt == Clamp(seconds, 0.0, d.buffer.value) &&
      0.0 <= r.pausedAt <= d.buffer.value && r.lockExpiry == now + LockMs &&
      r.updates == d.updates + [Sought(r.pausedAt)] &&
      (d.playing ==> r.source.None?) && r.playStartCtx == d.playStartCtx
  {
    var d1 := d.(lockExpiry := now + LockMs);
    assert SeekStep(d, seconds, now, ctx, started) == RelocateStep(d1, seconds, now, ctx, started);
    if d.playing {
      var target := Clamp(seconds, 0.0, d.buffer.value);
      var d2 := d1.(source := None, playing := false, pausedAt := target);
      if Debounced(d2, now) {
        DebouncedIgnored(d2, now, ctx, started);
      } else {
        PlayRefused(d2, now, ctx, started);
      }
    }
  }

  // -------------------------------------------------------------- position

  /** While the rate is not negative, `getPosition` never goes backwards as
      the context clock advances. */
  lemma PositionMonotone(d: DeckState, t1: real, t2: real)
    requires d.playbackRate >= 0.0 && t1 <= t2
    ensures Position(d, t1) <= Position(d, t2)
  {
    if d.buffer.Some? && d.playing {
      if d.playStartCtx.Some? {
        var s := d.playStartCtx.value;
        MulMonotone(t1 - s, t2 - s, d.playbackRate);
        ClampMonotone(LivePosition(d, s, t1), LivePosition(d, s, t2), 0.0, d.buffer.value);
      } else {
        MulMonotone(t1 - d.startTime, t2 - d.startTime, d.playbackRate);
        ClampMonotone(Mul(t1 - d.startTime, d.playbackRate), Mul(t2 - d.startTime, d.playbackRate),
                      0.0, d.buffer.value);
      }
    }
  }

  /** As written, changing the rate of a playing deck re-scales all the time
      elapsed since `play`: the clock's position jumps at the moment of the change. */
  lemma RateChangeJumpsPosition(d: DeckState, v: real, ctx: real)
    requires d.playStartCtx.Some? && ctx != d.playStartCtx.value && v != d.playbackRate
    ensures var s := d.playStartCtx.value;
      LivePosition(RateStepAsWritten(d, v), s, ctx) != LivePosition(d, s, ctx)
  {
    MulCancel(ctx - d.playStartCtx.value, d.playbackRate, v);
  }

  /** With the clock moved to the change, the position is continuous at the
      change and advances at the new rate after it. */
  lemma RateChangeKeepsPosition(d: DeckState, v: real, ctx: real, later: real)
    requires d.playStartCtx.Some?
    ensures var r := RateStep(d, v, ctx);
      r.playStartCtx == Some(ctx) && r.playbackRate == v &&
      LivePosition(r, ctx, ctx) == LivePosition(d, d.playStartCtx.value, ctx) &&
      LivePosition(r, ctx, later) == LivePosition(d, d.playStartCtx.value, ctx) + Mul(later - ctx, v)
  {
    assert Mul(ctx - ctx, v) == 0.0;
  }

  // ------------------------------------------------------------------ loading

  /** As written, `loadFile` keeps the main cue of the previous track: with a
      main cue at 90 s on a 100 s track, loading a 10 s track and pressing cue
      while stopped puts the paused position, and so `getPosition`, at 90 s,
      past the end of the buffer. */
  lemma CuePastEnd(now: int, ctx: real)
    ensures var d := LoadStepAsWritten(MainCueStep(LoadStepAsWritten(Initial(), 100.0), 90.0), 10.0);
      var r := CueHoldStartStep(d, now, ctx, true);
      r.buffer == Some(10.0) && !r.playing && r.pausedAt == 90.0 &&
      Position(r, ctx) == 90.0 && Position(r, ctx) > CueLimit(r)
  {
  }

  /** With the cues clamped on load the same presses stop at the end of the
      new track. */
  lemma CueAtEndAfterLoad(now: int, ctx: real)
    ensures var d := LoadStep(MainCueStep(LoadStep(Initial(), 100.0), 90.0), 10.0);
      var r := CueHoldStartStep(d, now, ctx, true);
      r.buffer == Some(10.0) && !r.playing && r.pausedAt == 10.0 && Position(r, ctx) == 10.0
  {
  }

  /** From a fresh deck, whatever the sequence of actions, `getPosition` lies
      inside the loaded track: in [0, duration], and 0 before any load. */
  lemma RunPositionInTrack(acts: seq<Action>, ctx: real)
    requires forall i :: 0 <= i < |acts| ==> ActionOk(acts[i])
    ensures var r := Run(Initial(), acts);
      0.0 <= Position(r, ctx) <= CueLimit(r) &&
      (r.buffer.Some? ==> Position(r, ctx) <= r.buffer.value)
  {
    RunKeepsInv(Initial(), acts);
    PositionInTrack(Run(Initial(), acts), ctx);
  }

  // -------------------------------------------------------------------- cues

  /** Main and temporary cues are clamped into the buffer (to 0 without one);
      hot cues store the raw value. */
  lemma CuesClamped(d: DeckState, seconds: real, n: int)
    requires Inv(d)
    ensures var m := MainCueStep(d, seconds).mainCue.value;
      0.0 <= m <= CueLimit(d) && (0.0 <= seconds <= CueLimit(d) ==> m == seconds)
    ensures TempCueStep(d, seconds).tempCue == Some(Clamp(seconds, 0.0, CueLimit(d)))
    ensures HotCueStep(d, n, seconds).cues[n] == seconds
  {
  }

  /** Jumping to a hot cue seeks to it; an unset slot does nothing. */
  lemma JumpHotCueSeeks(d: DeckState, n: int, now: int, ctx: real, started: bool)
    ensures n !in d.cues ==> JumpHotCueStep(d, n, now, ctx, started) == d
    ensures n in d.cues ==> JumpHotCueStep(d, n, now, ctx, started) == SeekStep(d, d.cues[n], now, ctx, started)
  {
  }

  lemma StopTempPlayIdle(d: DeckState, now: int, ctx: real)
    requires !d.tempCuePlaying
    ensures StopTempPlayStep(d, now, ctx) == d
  {
  }

  /** Releasing the cue button after a temporary play returns to the
      temporary cue, else to the main cue, and clears both temporary fields. */
  lemma HoldReleaseReturns(d: DeckState, now: int, ctx: real)
    requires d.buffer.Some? && d.tempCuePlaying
    ensures var r := CueHoldEndStep(d, now, ctx);
      !r.tempCuePlaying && r.tempCue.None? &&
      (d.tempCue.Some? ==> r.pausedAt == d.tempCue.value) &&
      (d.tempCue.None? && d.mainCue.Some? ==> r.pausedAt == d.mainCue.value) &&
      r.updates[|r.updates| - 1] == CueReturned(r.pausedAt)
  {
  }

  /** Releasing the cue button while the hold timer is still pending (a tap)
      cancels the timer and moves to the main cue when there is one. */
  lemma TapCancelsHold(d: DeckState, now: int, ctx: real)
    requires d.buffer.Some? && !d.tempCuePlaying && d.cueHoldWaiting && d.cueHoldTimer.Some?
    ensures var r := CueHoldEndStep(d, now, ctx);
      !r.cueHoldWaiting && r.cueHoldTimer.None? && !r.tempCuePlaying && r.playing == d.playing &&
      (forall i :: 0 <= i < |r.holdTimers| ==> r.holdTimers[i].id != d.cueHoldTimer.value) &&
      (d.mainCue.Some? ==> r.pausedAt == d.mainCue.value) &&
      (d.mainCue.None? ==> r.pausedAt == d.pausedAt)
  {
  }

  /** Pressing the cue button on a stopped deck goes to the main cue and arms
      a timer due 180 ms later; pressing it while playing drops a temporary
      cue at the current position and plays from there. */
  lemma HoldStart(d: DeckState, now: int, ctx: real, started: bool)
    requires d.buffer.Some?
    ensures var r := CueHoldStartStep(d, now, ctx, started);
      (!d.playing ==>
        r.cueHoldWaiting && r.cueHoldTimer == Some(d.nextTimer) &&
        r.holdTimers == d.holdTimers + [HoldTimer(d.nextTimer, now + HoldMs)] &&
        r.pausedAt == (if d.mainCue.Some? then d.mainCue.value else d.pausedAt)) &&
      (d.playing ==>
        r.tempCuePlaying && r.tempCue == Some(Position(d, ctx)) && r.pausedAt == Position(d, ctx))
  {
    if d.playing {
      var cur := Position(d, ctx);
      var d1 := d.(tempCue := Some(cur), playing := false, pausedAt := cur);
      assert PlayStep(d1, now, ctx, started).pausedAt == cur;
    }
  }

  /** A due hold timer plays from the main cue (or 0) as a temporary play. */
  lemma HoldFires(d: DeckState, now: int, ctx: real, started: bool)
    requires |d.holdTimers| > 0 && d.holdTimers[0].due <= now
    ensures var r := TickStep(d, now, ctx, started);
      r.tempCuePlaying && !r.cueHoldWaiting && r.cueHoldTimer.None? &&
      r.holdTimers == d.holdTimers[1..] &&
      r.pausedAt == (if d.mainCue.Some? then d.mainCue.value else 0.0)
  {
  }

  // ------------------------------------------------------------------ class

  /** The deck object: its fields are those of `DeckState`, updated in place. */
  class Deck {
    var buffer: Option<real>
    var source: Option<nat>
    var nextSource: nat
    var playing: bool
    var startTime: real
    var pausedAt: real
    var playbackRate: real
    var playStartCtx: Option<real>
    var playStartOffset: real
    var cues: map<int, real>
    var mainCue: Option<real>
    var tempCue: Option<real>
    var tempCuePlaying: bool
    var cueHoldWaiting: bool
    var cueHoldTimer: Option<nat>
    var holdTimers: seq<HoldTimer>
    var nextTimer: nat
    var lastAction: int
    var lockExpiry: int
    var updates: seq<Update>

    function State(): DeckState
      reads this
    {
      DeckState(buffer, source, nextSource, playing, startTime, pausedAt, playbackRate,
                playStartCtx, playStartOffset, cues, mainCue, tempCue, tempCuePlaying,
                cueHoldWaiting, cueHoldTimer, holdTimers, nextTimer, lastAction, lockExpiry, updates)
    }

    predicate Valid()
      reads this
    {
      Inv(State())
    }

    constructor()
      ensures Valid() && State() == Initial()
    {
      buffer := None;
      source := None;
      nextSource := 0;
      playing := false;
      startTime := 0.0;
      pausedAt := 0.0;
      playbackRate := 1.0;
      playStartCtx := None;
      playStartOffset := 0.0;
      cues := map[];
      mainCue := None;
      tempCue := None;
      tempCuePlaying := false;
      cueHoldWaiting := false;
      cueHoldTimer := None;
      holdTimers := [];
      nextTimer := 0;
      lastAction := 0;
      lockExpiry := 0;
      updates := [];
    }

    /** `getPosition`. */
    function GetPosition(ctx: real): (p: real)
      requires Valid()
      reads this
      ensures p >= 0.0
      ensures playing ==> p <= buffer.value
      ensures !playing && buffer.Some? ==> p == pausedAt
    {
      PositionInTrack(State(), ctx);
      Position(State(), ctx)
    }

    /** `_makeSource`: with a buffer, a fresh source becomes the current one. */
    method MakeSource() returns (made: bool)
      modifies this
      ensures made == buffer.Some?
      ensures made ==> State() == old(State()).(source := Some(old(nextSource)), nextSource := old(nextSource) + 1)
      ensures !made ==> State() == old(State())
    {
      if buffer.None? {
        return false;
      }
      source := Some(nextSource);
      nextSource := nextSource + 1;
      return true;
    }

    method Play(now: int, ctx: real, started: bool)
      requires Valid()
      modifies this
      ensures Valid()
      ensures State() == PlayStep(old(State()), now, ctx, started)
    {
      PlayKeepsInv(State(), now, ctx, started);
      if now - lastAction < DebounceMs {
        return;
      }
      lastAction := now;
      if playing || now < lockExpiry {
        return;
      }
      lockExpiry := now + LockMs;
      source := None;
      Launch(ctx, started);
    }

    /** The guarded part of `play`. */
    method Launch(ctx: real, started: bool)
      modifies this
      ensures State() == LaunchStep(old(State()), ctx, started)
    {
      var made := MakeSource();
      if !made {
        playStartCtx := None;
        playStartOffset := 0.0;
        return;
      }
      playStartOffset := pausedAt;
      playStartCtx := Some(ctx);
      startTime := ctx;
      if started {
        playing := true;
        updates := updates + [Played];
      } else {
        playStartCtx := None;
        playStartOffset := 0.0;
        startTime := 0.0;
      }
    }

    method Pause(now: int, ctx: real)
      requires Valid()
      modifies this
      ensures Valid()
      ensures State() == PauseStep(old(State()), now, ctx)
    {
      PauseKeepsInv(State(), now, ctx);
      if now - lastAction < DebounceMs {
        return;
      }
      lastAction := now;
      if !playing || now < lockExpiry {
        return;
      }
      lockExpiry := now + LockMs;
      source := None;
      Halt(ctx);
    }

    /** The guarded part of `pause`. */
    method Halt(ctx: real)
      modifies this
      ensures State() == HaltStep(old(State()), ctx)
    {
      var p := PausedPosition(State(), ctx);
      pausedAt := p;
      playStartCtx := None;
      playStartOffset := 0.0;
      startTime := 0.0;
      playing := false;
      updates := updates + [Paused];
    }

    /** `seek`; `threw` reports the TypeError raised without a buffer. */
    method Seek(seconds: real, now: int, ctx: real, started: bool) returns (threw: bool)
      requires Valid()
      modifies this
      ensures Valid()
      ensures threw == SeekThrows(old(State()), now)
      ensures State() == SeekStep(old(State()), seconds, now, ctx, started)
    {
      SeekKeepsInv(State(), seconds, now, ctx, started);
      if now < lockExpiry {
        return false;
      }
      lockExpiry := now + LockMs;
      assert State() == old(State()).(lockExpiry := now + LockMs);
      threw := Relocate(seconds, now, ctx, started);
    }

    /** The part of `seek` run under the lock. */
    method Relocate(seconds: real, now: int, ctx: real, started: bool) returns (threw: bool)
      requires Valid()
      modifies this
      ensures threw == old(buffer).None?
      ensures State() == RelocateStep(old(State()), seconds, now, ctx, started)
    {
      if buffer.None? {
        // Valid() rules out playing without a buffer
        return true;
      }
      var target := Clamp(seconds, 0.0, buffer.value);
      if playing {
        source := None;
        playing := false;
        pausedAt := target;
        Play(now, ctx, started);
      } else {
        pausedAt := target;
      }
      updates := updates + [Sought(pausedAt)];
      return false;
    }

    /** The `onended` handler installed on source `id`. */
    method OnEnded(id: nat)
      requires Valid()
      modifies this
      ensures Valid()
      ensures State() == OnEndedStep(old(State()), id)
    {
      if source == Some(id) {
        playing := false;
        source := None;
        playStartCtx := None;
        playStartOffset := 0.0;
        startTime := 0.0;
        updates := updates + [Ended];
      }
    }

    /** `loadFile`, from the point the buffer is decoded. */
    method LoadFile(duration: real)
      requires Valid() && duration >= 0.0
      modifies this
      ensures State() == LoadStep(old(State()), duration)
      ensures Valid()
    {
      LoadKeepsInv(State(), duration);
      buffer, pausedAt, playing, updates, mainCue, tempCue :=
        Some(duration), 0.0, false, updates + [Loaded(duration)],
        ClampCue(mainCue, duration), ClampCue(tempCue, duration);
    }

    /** `setPlaybackRate`, with the clock reference moved to `ctx` (see RateStep). */
    method SetPlaybackRate(v: real, ctx: real)
      requires Valid()
      modifies this
      ensures Valid()
      ensures State() == RateStep(old(State()), v, ctx)
    {
      if playStartCtx.Some? {
        playStartOffset := LivePosition(State(), playStartCtx.value, ctx);
        playStartCtx := Some(ctx);
      }
      playbackRate := v;
      updates := updates + [RateChanged(v)];
    }

    method SetMainCue(seconds: real)
      requires Valid()
      modifies this
      ensures Valid()
      ensures State() == MainCueStep(old(State()), seconds)
    {
      mainCue := Some(Clamp(seconds, 0.0, if buffer.Some? then buffer.value else 0.0));
    }

    method SetTempCue(seconds: real)
      requires Valid()
      modifies this
      ensures Valid()
      ensures State() == TempCueStep(old(State()), seconds)
    {
      tempCue := Some(Clamp(seconds, 0.0, if buffer.Some? then buffer.value else 0.0));
      updates := updates + [TempCueSet(tempCue.value)];
    }

    method SetHotCue(n: int, seconds: real)
      requires Valid()
      modifies this
      ensures Valid()
      ensures State() == HotCueStep(old(State()), n, seconds)
    {
      cues := cues[n := seconds];
    }

    method JumpHotCue(n: int, now: int, ctx: real, started: bool) returns (threw: bool)
      requires Valid()
      modifies this
      ensures Valid()
      ensures State() == JumpHotCueStep(old(State()), n, now, ctx, started)
    {
      threw := false;
      if n in cues {
        threw := Seek(cues[n], now, ctx, started);
      }
    }

    method StartTempPlay(now: int, ctx: real, started: bool)
      requires Valid()
      modifies this
      ensures Valid()
      ensures State() == StartTempPlayStep(old(State()), now, ctx, started)
    {
      if buffer.None? || tempCue.None? {
        return;
      }
      source := None;
      playing := false;
      pausedAt := tempCue.value;
      Play(now, ctx, started);
      tempCuePlaying := true;
    }

    method StopTempPlay(now: int, ctx: real)
      requires Valid()
      modifies this
      ensures Valid()
      ensures State() == StopTempPlayStep(old(State()), now, ctx)
    {
      if !tempCuePlaying {
        return;
      }
      if playing {
        Pause(now, ctx);
      }
      if tempCue.Some? {
        pausedAt := tempCue.value;
      }
      tempCuePlaying := false;
      updates := updates + [TempCueStopped(pausedAt)];
    }

    method CueHoldStart(now: int, ctx: real, started: bool)
      requires Valid()
      modifies this
      ensures Valid()
      ensures State() == CueHoldStartStep(old(State()), now, ctx, started)
    {
      CueHoldStartKeepsInv(State(), now, ctx, started);
      if buffer.None? {
        return;
      }
      var cur := GetPosition(ctx);
      if playing {
        TempRestart(cur, now, ctx, started);
      } else {
        ArmHold(now);
      }
    }

    method TempRestart(cur: real, now: int, ctx: real, started: bool)
      requires Valid() && 0.0 <= cur <= CueLimit(State())
      modifies this
      ensures State() == TempRestartStep(old(State()), cur, now, ctx, started)
    {
      tempCue := Some(cur);
      playing := false;
      pausedAt := cur;
      assert State() == old(State()).(tempCue := Some(cur), playing := false, pausedAt := cur);
      Play(now, ctx, started);
      tempCuePlaying := true;
    }

    method ArmHold(now: int)
      modifies this
      ensures State() == ArmHoldStep(old(State()), now)
    {
      if mainCue.Some? {
        pausedAt := mainCue.value;
        updates := updates + [Sought(pausedAt)];
      }
      cueHoldWaiting := true;
      cueHoldTimer := Some(nextTimer);
      holdTimers := holdTimers + [HoldTimer(nextTimer, now + HoldMs)];
      nextTimer := nextTimer + 1;
    }

    method CueHoldEnd(now: int, ctx: real)
      requires Valid()
      modifies this
      ensures Valid()
      ensures State() == CueHoldEndStep(old(State()), now, ctx)
    {
      CueHoldEndKeepsInv(State(), now, ctx);
      if buffer.None? {
        return;
      }
      if tempCuePlaying {
        CueReturn(now, ctx);
        return;
      }
      if cueHoldWaiting {
        Tap();
      }
    }

    method CueReturn(now: int, ctx: real)
      requires Valid()
      modifies this
      ensures State() == CueReturnStep(old(State()), now, ctx)
    {
      if playing {
        Pause(now, ctx);
      }
      if tempCue.Some? {
        pausedAt := tempCue.value;
      } else if mainCue.Some? {
        pausedAt := mainCue.value;
      }
      tempCuePlaying := false;
      tempCue := None;
      updates := updates + [CueReturned(pausedAt)];
    }

    method Tap()
      modifies this
      ensures State() == TapStep(old(State()))
    {
      if cueHoldTimer.Some? {
        holdTimers := Cancel(holdTimers, cueHoldTimer.value);
        cueHoldTimer := None;
      }
      cueHoldWaiting := false;
      if mainCue.Some? {
        pausedAt := mainCue.value;
        updates := updates + [Sought(pausedAt)];
      }
    }

    /** Fires the earliest pending hold timer once it is due. */
    method Tick(now: int, ctx: real, started: bool)
      requires Valid()
      modifies this
      ensures Valid()
      ensures State() == TickStep(old(State()), now, ctx, started)
    {
      TickKeepsInv(State(), now, ctx, started);
      if |holdTimers| > 0 && holdTimers[0].due <= now {
        FireHold(now, ctx, started);
      }
    }

    method FireHold(now: int, ctx: real, started: bool)
      requires Valid() && |holdTimers| > 0
      modifies this
      ensures State() == FireHoldStep(old(State()), now, ctx, started)
    {
      ghost var d := State();
      var start := if mainCue.Some? then mainCue.value else 0.0;
      holdTimers := holdTimers[1..];
      cueHoldTimer := None;
      cueHoldWaiting := false;
      pausedAt := start;
      assert State() == d.(holdTimers := d.holdTimers[1..], cueHoldTimer := None, cueHoldWaiting := false, pausedAt := start);
      FireHoldKeepsInv(d);
      Play(now, ctx, started);
      tempCuePlaying := true;
    }
  }
}
