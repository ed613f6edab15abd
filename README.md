# Vibes DJ core, modelled in Dafny

Vibes is a two-deck browser DJ application. This project models its
playback and analysis core:

- **Scratch worklet** (`ScratchProcessor`): an AudioWorklet that renders a
  decoded buffer at a variable, smoothed rate. It has a hysteresis gate
  against clicks, a position slew towards targets sent from the UI, an
  exponentially decaying fling after the platter is released, and a one-shot
  `flingEnd` notification.
- **Deck transport** (`Deck`): play/pause/seek with a 40 ms debounce and an
  8 ms operation lock. Position is kept from the audio clock. It also covers
  main, temporary and hot cues, and the cue button's press-and-hold
  behaviour with its 180 ms timer.
- **Platter gesture arithmetic** (`DeckUI`): angle wrapping, hold hysteresis,
  the pointer-to-rate mapping, fling selection on release, the waveform
  colour codec and the BPM slider.
- **Mixer values** (`MixerUI`): stepped knobs, the fader and crossfader
  gains, the master curve and the 10-segment level meters.
- **Waveform peaks** (`makePeaks`) and the **BPM estimator** of the analysis
  worker. The estimator's steps are energy frames, onset flux,
  normalisation, smoothing, a median threshold, mean removal,
  autocorrelation, best-lag search and octave correction.

Modelling conventions:

- Numbers are `real`, so there is no float32 rounding.
- JavaScript's `Math.round` is `floor(x + 0.5)` (`Num.Round`).
- A missing or non-numeric message field is an `Option` that is `None`.
- Wall-clock and audio-clock readings (`Date.now()`, `ctx.currentTime`,
  `performance.now()`) are parameters of the operations that read them.
- Timers become deadlines in the state. A `Tick(now)` fires those that are due.
- Results of `Math.exp`, `Math.pow`, `Math.sqrt`, `Math.atan2` and
  `Math.cos` are also parameters. Each has the range the caller guarantees,
  for example a per-sample smoothing factor in `(0, 1]`.

Each stateful source object is a Dafny `class` with the source's fields.
Its methods are proved against a pure step function
(`ensures State() == PlayStep(old(State()), …)`). The lemmas beside each
step function state what the source promises of the operation.

Modules: `Num` (shared arithmetic), `ScratchFrame` (one sample frame of the
worklet), `ScratchWorklet` (messages, the processor class and `process`),
`DeckTransport`, `DeckUI`, `Mixer`, `Peaks` and `Analysis`.

Where the code's own comments suggest a different behaviour, or the behaviour is
easy to misread, the model follows the code:

- `seek` on a playing deck ends **stopped**. The comment at Deck.js:174
  stops the source "so we can restart", but the inner `play()` is refused
  by the lock that `seek` itself holds (`DeckTransport.SeekEndsStopped`).
- `seek` on a playing deck (Deck.js:173-178) and `loadFile` (Deck.js:73-74)
  set `playing` to false without clearing `_playStartContextTime`. The
  stale clock reference is never read while stopped, and the next `play`
  replaces it. The deck invariant therefore claims a clock reference only
  for a playing deck, not the converse.
- `loadFile` keeps the main and temporary cues of the previous track, so a
  cue press can park the deck past the end of a shorter track. This is the
  third row of "## Findings"; the model clamps the cues on load.
- A cue tap on a stopped deck does not set the main cue. Only the mouse
  handlers in DeckUI would do that, and they are not part of this model.
  The hold timer plays from the main cue (or 0) without recording a
  temporary cue.
- `getPosition` is monotone only while the playback rate is not negative.
- After a frame, the scratch position lies in `[0, maxPos)`, not
  `[0, maxPos - 1]`. The clamp only rewrites positions at or beyond
  `maxPos`.
- On release, a tie between fling candidates goes to the earlier candidate.
  The comparisons are strict.

## Model

| member | source | states |
|---|---|---|
| ScratchFrame.RateStage | src/audio/Worklets/ScratchProcessor.js:152-169 | a hold forces target and smoothed rate to 0; a fling drives both to the fling rate; only the two rates change |
| ScratchFrame.RateStageSmooths | src/audio/Worklets/ScratchProcessor.js:158-169 | outside hold and fling the smoothed rate becomes the one-pole step `old + (clamped target - old) * 0.0045` toward the target clamped to [-8, 8], or 0; it is that step whenever target or step is at least 0.0035, lies between the old value and the clamped target, and snaps to 0 when both are below 0.0035 |
| ScratchFrame.RateStageBounded | src/audio/Worklets/ScratchProcessor.js:152-162 | a smoothed rate within [-8, 8] stays within it |
| ScratchFrame.GateStage | src/audio/Worklets/ScratchProcessor.js:171-186 | only the mute flag and the gate gain change |
| ScratchFrame.GateHysteresis | src/audio/Worklets/ScratchProcessor.js:171-184 | hold mutes; fling unmutes; a muted gate opens only above 0.007, an open one closes only below 0.0035; between the thresholds the state is kept |
| ScratchFrame.GainStep | src/audio/Worklets/ScratchProcessor.js:185-186 | one gate step keeps the gain in [0, 1] and never moves it away from its target |
| ScratchFrame.GateGainBounded | src/audio/Worklets/ScratchProcessor.js:185-186 | the gate gain stays in [0, 1] |
| ScratchFrame.Cubic | src/audio/Worklets/ScratchProcessor.js:205-210 | the Catmull-Rom interpolant passes through p1 at t=0 and p2 at t=1, and is constant on constant input |
| ScratchFrame.ClampIndex | src/audio/Worklets/ScratchProcessor.js:198-200 | a tap index is clamped into [0, len) and left alone when already inside |
| ScratchFrame.Taps | src/audio/Worklets/ScratchProcessor.js:197-200 | all four taps are valid indices; in the interior they are idx-1..idx+2 |
| ScratchFrame.TapsAsWrittenOverrun | src/audio/Worklets/ScratchProcessor.js:197 | as written, the first tap at idx = len+1 is len, one past the buffer |
| ScratchFrame.TapsAgreeInRange | src/audio/Worklets/ScratchProcessor.js:197-200 | for every idx <= len the written taps equal the clamped ones |
| ScratchFrame.SourceChannel | src/audio/Worklets/ScratchProcessor.js:193 | an output channel reads its own buffer channel, or channel 0 when the buffer has fewer |
| ScratchFrame.Sample | src/audio/Worklets/ScratchProcessor.js:192-215 | the sample is in [-1, 1], is 0 while muted, and at an integer index equals the clamped buffer value there |
| ScratchFrame.FrameOut | src/audio/Worklets/ScratchProcessor.js:217 | the output is in [-1, 1] for a gain in [0, 1], and 0 while muted |
| ScratchFrame.GainBounds | src/audio/Worklets/ScratchProcessor.js:217 | a unit sample times a unit gain stays in [-1, 1] |
| ScratchFrame.ClampPos | src/audio/Worklets/ScratchProcessor.js:234-235 | the position ends in [0, maxPos) when maxPos >= 1, and is unchanged when already inside; for a negative maxPos it is maxPos - 1 |
| ScratchFrame.SlewStage | src/audio/Worklets/ScratchProcessor.js:226-233 | only the position and its target change |
| ScratchFrame.MoveStage | src/audio/Worklets/ScratchProcessor.js:220-235 | only the position and its target change |
| ScratchFrame.MoveStageInRange | src/audio/Worklets/ScratchProcessor.js:234-235 | after the move the position is in [0, maxPos) |
| ScratchFrame.FlingStage | src/audio/Worklets/ScratchProcessor.js:236-244 | without a fling nothing changes and no end is reported; otherwise only the fling fields and rates change |
| ScratchFrame.FlingDecays | src/audio/Worklets/ScratchProcessor.js:236-244 | the fling rate never grows and strictly shrinks when decay < 1; the fling ends exactly when the decayed rate is below 0.001, zeroing both rates |
| ScratchFrame.IntegratesOnce | src/audio/Worklets/ScratchProcessor.js:220-224 | the position advances by the smoothed rate exactly once per frame unless held or muted outside a fling |
| ScratchFrame.StillWithoutTarget | src/audio/Worklets/ScratchProcessor.js:226-235 | with no motion and no target the position stays put |
| ScratchFrame.SlewToward | src/audio/Worklets/ScratchProcessor.js:226-233 | a slew step never moves the position away from its target, and drops a target closer than 0.25 |
| ScratchFrame.SlewTargetKept | src/audio/Worklets/ScratchProcessor.js:226-233 | a target at least 0.25 away is kept |
| ScratchFrame.HoldOnlySlews | src/audio/Worklets/ScratchProcessor.js:150-235 | while holding, rates are 0, the gate is muted and the position moves only by slewing |
| ScratchFrame.StepFrameSane | src/audio/Worklets/ScratchProcessor.js:150-245 | a frame keeps the fling rate within [-8, 8] and the gate gain within [0, 1], and keeps a smoothed rate that starts within [-8, 8] there |
| ScratchFrame.RunSane | src/audio/Worklets/ScratchProcessor.js:150-245 | any number of frames keeps the fling rate within [-8, 8] and the gate gain within [0, 1], and a smoothed rate that starts the block within [-8, 8] stays there |
| ScratchFrame.RunInRange | src/audio/Worklets/ScratchProcessor.js:234-235 | after at least one frame the position is in [0, maxPos) |
| ScratchFrame.RunParksBelowEnd | src/audio/Worklets/ScratchProcessor.js:234-235 | with a negative end (a buffer sent with a negative rate) every frame leaves the position at maxPos - 1 |
| ScratchFrame.FlingFreeStays | src/audio/Worklets/ScratchProcessor.js:237-244 | a frame without a fling starts none and reports no end |
| ScratchFrame.NoFlingAfterEnd | src/audio/Worklets/ScratchProcessor.js:240-244 | once a frame ends the fling, later frames have no fling and report no further end |
| ScratchWorklet.FlingTau | src/audio/Worklets/ScratchProcessor.js:105 | the decay time constant is positive: the given one when positive, else 0.4 |
| ScratchWorklet.ApplyValid | src/audio/Worklets/ScratchProcessor.js:45-125 | every message, including a setBuffer with channels of any lengths and a rate of any sign, keeps the resample ratio non-zero, the fling time constant positive, the fling rate and gate gain in range, and bufLen equal to the first channel's length |
| ScratchWorklet.SetBufferKeepsPositionInside | src/audio/Worklets/ScratchProcessor.js:48-56 | setBuffer installs the channels and length, stores the given sample rate (else the context's), sets the resample ratio to (that rate, or the context's when it is 0) / context rate, and resets a position at or past the new end to 0; the ratio is positive exactly when the rate is missing or not negative |
| ScratchWorklet.NegativeRateParks | src/audio/Worklets/ScratchProcessor.js:48-56 | a buffer sent with a negative rate gets a negative ratio and a negative end, and every rendered block then leaves the position one sample below that end |
| ScratchWorklet.SetBufferEmptyIgnored | src/audio/Worklets/ScratchProcessor.js:49 | a setBuffer without channels changes nothing |
| ScratchWorklet.CommandsKeepBuffer | src/audio/Worklets/ScratchProcessor.js:58-123 | no message other than setBuffer touches the buffer |
| ScratchWorklet.PositionCommands | src/audio/Worklets/ScratchProcessor.js:58-80 | startScratch jumps to position x sampleRate and cancels a fling; setPosition only sets the slew target and cancels a fling |
| ScratchWorklet.SetRateSnaps | src/audio/Worklets/ScratchProcessor.js:81-92 | a commanded rate below 0.005 in magnitude zeroes both rates; otherwise only the target changes |
| ScratchWorklet.HoldStopsMotion | src/audio/Worklets/ScratchProcessor.js:97-101 | setHold(true) zeroes both rates |
| ScratchWorklet.FlingStarts | src/audio/Worklets/ScratchProcessor.js:102-123 | a fling clamps the rate to [-4, 4], is active only above 0.0005, opens the gate with gain at least 0.12 and drops the slew target |
| ScratchWorklet.BlockOutBounded | src/audio/Worklets/ScratchProcessor.js:192-218 | every rendered sample is in [-1, 1], whatever the channel lengths, when each channel holds a sample |
| ScratchWorklet.ScratchProcessor.constructor | src/audio/Worklets/ScratchProcessor.js:6-43 | the initial state: no buffer, rate 1, gate muted with gain 0, no fling |
| ScratchWorklet.ScratchProcessor.OnMessage | src/audio/Worklets/ScratchProcessor.js:45-125 | the new state is Apply(old state, message) |
| ScratchWorklet.ScratchProcessor.SetBufferCmd | src/audio/Worklets/ScratchProcessor.js:48-56 | the new state is the setBuffer effect |
| ScratchWorklet.ScratchProcessor.StartScratchCmd | src/audio/Worklets/ScratchProcessor.js:58-69 | the new state is the startScratch effect |
| ScratchWorklet.ScratchProcessor.SetPositionCmd | src/audio/Worklets/ScratchProcessor.js:70-80 | the new state is the setPosition effect |
| ScratchWorklet.ScratchProcessor.SetRateCmd | src/audio/Worklets/ScratchProcessor.js:81-92 | the new state is the setRate effect |
| ScratchWorklet.ScratchProcessor.SetHoldCmd | src/audio/Worklets/ScratchProcessor.js:97-101 | the new state is the setHold effect |
| ScratchWorklet.ScratchProcessor.FlingCmd | src/audio/Worklets/ScratchProcessor.js:102-123 | the new state is the fling effect |
| ScratchWorklet.ScratchProcessor.FlingRates | src/audio/Worklets/ScratchProcessor.js:108-114 | a fling sets hold off, activity, fling, target and smoothed rates; nothing else changes |
| ScratchWorklet.ScratchProcessor.OpenGate | src/audio/Worklets/ScratchProcessor.js:118-119 | the gate is unmuted and its gain raised to at least 0.12; nothing else changes |
| ScratchWorklet.ScratchProcessor.ResolveRateAndGate | src/audio/Worklets/ScratchProcessor.js:151-186 | the voice becomes GateStage(RateStage(voice)) |
| ScratchWorklet.ScratchProcessor.MoveFrame | src/audio/Worklets/ScratchProcessor.js:220-235 | the voice becomes MoveStage(voice) |
| ScratchWorklet.ScratchProcessor.DecayFling | src/audio/Worklets/ScratchProcessor.js:236-244 | the voice and the end flag are those of FlingStage |
| ScratchWorklet.ScratchProcessor.Frame | src/audio/Worklets/ScratchProcessor.js:150-245 | one frame writes FrameOut to column i of every channel, leaves other columns alone, and steps the voice by StepFrame |
| ScratchWorklet.ScratchProcessor.RenderBlock | src/audio/Worklets/ScratchProcessor.js:150-245 | the frame loop steps the voice by Run over the block, reports whether some frame ended the fling, and writes BlockOut at every channel and frame |
| ScratchWorklet.ScratchProcessor.FillSilence | src/audio/Worklets/ScratchProcessor.js:133-136 | every output sample is 0 |
| ScratchWorklet.ScratchProcessor.Process | src/audio/Worklets/ScratchProcessor.js:127-258 | when inactive or without a buffer, output is silence and the state is unchanged; otherwise the voice is Run over the block, every sample equals BlockOut, and flingEnd is reported once (setting its flag) when a frame ended the fling and the flag was clear (for a buffer whose every channel holds a sample) |
| DeckTransport.Cancel | src/audio/Deck.js:263 | clearing a timer removes exactly the timers with that id |
| DeckTransport.PositionInTrack | src/audio/Deck.js:270-280 | under the deck invariant getPosition lies in [0, duration], and is 0 with no buffer |
| DeckTransport.LaunchKeepsInv | src/audio/Deck.js:116-137 | starting a source keeps the deck invariant |
| DeckTransport.PlayKeepsInv | src/audio/Deck.js:105-142 | play keeps the deck invariant |
| DeckTransport.PauseKeepsInv | src/audio/Deck.js:144-166 | pause keeps the deck invariant |
| DeckTransport.SeekKeepsInv | src/audio/Deck.js:168-186 | seek keeps the deck invariant |
| DeckTransport.CueHoldStartKeepsInv | src/audio/Deck.js:213-243 | cueHoldStart keeps the deck invariant |
| DeckTransport.CueHoldEndKeepsInv | src/audio/Deck.js:246-267 | cueHoldEnd keeps the deck invariant |
| DeckTransport.FireHoldKeepsInv | src/audio/Deck.js:232-241 | the hold timer firing keeps the deck invariant |
| DeckTransport.TickKeepsInv | src/audio/Deck.js:232-241 | advancing time keeps the deck invariant |
| DeckTransport.EndedKeepsInv | src/audio/Deck.js:90-99 | the active source ending keeps the deck invariant |
| DeckTransport.LoadKeepsInv | src/audio/Deck.js:69-77 | loading a track of non-negative duration keeps the deck invariant |
| DeckTransport.RateKeepsInv | src/audio/Deck.js:282-286 | a rate change keeps the deck invariant |
| DeckTransport.CueSettersKeepInv | src/audio/Deck.js:188-292 | setting the main, temporary or a hot cue keeps the deck invariant |
| DeckTransport.JumpHotCueKeepsInv | src/audio/Deck.js:293 | jumping to a hot cue keeps the deck invariant |
| DeckTransport.StartTempPlayKeepsInv | src/audio/Deck.js:193-202 | startTempPlay keeps the deck invariant |
| DeckTransport.StopTempPlayKeepsInv | src/audio/Deck.js:204-210 | stopTempPlay keeps the deck invariant |
| DeckTransport.StepKeepsInv | src/audio/Deck.js:69-293 | every public operation keeps the deck invariant: non-negative duration; paused position, main cue and temporary cue in [0, duration] (0 with no buffer); a playing deck has a buffer, a source and a clock reference; source and timer ids below the next fresh id |
| DeckTransport.RunKeepsInv | src/audio/Deck.js:69-293 | any sequence of operations keeps the deck invariant |
| DeckTransport.RunPositionInTrack | src/audio/Deck.js:69-293 | from a fresh deck, after any sequence of operations getPosition lies in [0, duration] (0 before any load) |
| DeckTransport.DebouncedIgnored | src/audio/Deck.js:105-147 | play or pause within 40 ms of the last accepted action changes nothing |
| DeckTransport.PlayRefused | src/audio/Deck.js:108-111 | play on a playing or locked deck only records the action time |
| DeckTransport.PlayOutcome | src/audio/Deck.js:105-142 | the deck plays after play iff it already did, or the call passed debounce and lock, had a buffer, and the source started |
| DeckTransport.PlayStartsClock | src/audio/Deck.js:112-137 | an accepted play takes the lock and makes a new source; if it starts, the clock is anchored at the paused position, otherwise the clock fields are cleared |
| DeckTransport.PauseFreezes | src/audio/Deck.js:148-160 | an accepted pause stores the current position, drops source and clock, and getPosition then reads that position at any later time |
| DeckTransport.StoppingClearsClock | src/audio/Deck.js:90-159 | the active source ending, or an accepted pause, stops the deck and clears the clock reference |
| DeckTransport.StaleEndedIgnored | src/audio/Deck.js:90-91 | the onended of a superseded source changes nothing |
| DeckTransport.SeekRefusedWhileLocked | src/audio/Deck.js:170 | seek while the lock is held changes nothing |
| DeckTransport.SeekEndsStopped | src/audio/Deck.js:168-186 | a seek that gets the lock lands at the target clamped into the buffer, reports it, and leaves the deck stopped even if it was playing, with the old clock reference left in place |
| DeckTransport.PositionMonotone | src/audio/Deck.js:270-280 | with a non-negative rate, getPosition does not decrease as the context clock advances |
| DeckTransport.RateChangeJumpsPosition | src/audio/Deck.js:270-286 | as written, changing the rate mid-play changes the computed position at that instant |
| DeckTransport.RateChangeKeepsPosition | src/audio/Deck.js:270-286 | with the clock re-anchored, the position is continuous at the rate change and advances at the new rate |
| DeckTransport.LoadClampsCues | src/audio/Deck.js:69-77 | loading sets the buffer, rewinds to 0 and stops; it keeps the source, clock reference and hot cues, and clamps the main and temporary cues into the new track (left alone when already inside) |
| DeckTransport.CuePastEnd | src/audio/Deck.js:69-230 | as written, main cue 90 on a 100 s track, then a 10 s track, then cue while stopped: the position is 90, past the 10 s end |
| DeckTransport.CueAtEndAfterLoad | src/audio/Deck.js:69-230 | with the cues clamped on load, the same presses stop at 10, the end of the new track |
| DeckTransport.CuesClamped | src/audio/Deck.js:188-292 | main and temporary cues are clamped into [0, duration] (0 without a buffer); a hot cue stores the raw value |
| DeckTransport.JumpHotCueSeeks | src/audio/Deck.js:293 | jumping to a set hot cue is a seek to it; an unset slot does nothing |
| DeckTransport.StopTempPlayIdle | src/audio/Deck.js:205 | stopTempPlay without a temporary play does nothing |
| DeckTransport.HoldReleaseReturns | src/audio/Deck.js:250-258 | releasing after a temporary play returns to the temporary cue, else the main cue, clears both temporary fields and reports cueReturn |
| DeckTransport.TapCancelsHold | src/audio/Deck.js:262-266 | releasing while the hold timer is pending cancels it and moves to the main cue if set |
| DeckTransport.HoldStart | src/audio/Deck.js:213-243 | pressing cue while stopped moves to the main cue and arms a timer 180 ms ahead; while playing it drops a temporary cue at the current position and plays from it |
| DeckTransport.HoldFires | src/audio/Deck.js:232-241 | a due hold timer starts a temporary play from the main cue or 0 |
| DeckTransport.Deck.constructor | src/audio/Deck.js:5-67 | the initial deck state |
| DeckTransport.Deck.GetPosition | src/audio/Deck.js:270-280 | the position is non-negative, at most the duration while playing, and the paused position when stopped |
| DeckTransport.Deck.MakeSource | src/audio/Deck.js:79-103 | a new source is made exactly when there is a buffer, and it becomes the active one |
| DeckTransport.Deck.Play | src/audio/Deck.js:105-142 | the new state is PlayStep(old state) |
| DeckTransport.Deck.Launch | src/audio/Deck.js:114-137 | the new state is LaunchStep(old state) |
| DeckTransport.Deck.Pause | src/audio/Deck.js:144-166 | the new state is PauseStep(old state) |
| DeckTransport.Deck.Halt | src/audio/Deck.js:152-160 | the new state is HaltStep(old state) |
| DeckTransport.Deck.Seek | src/audio/Deck.js:168-186 | the new state is SeekStep(old state); it throws exactly when the lock is free and there is no buffer |
| DeckTransport.Deck.Relocate | src/audio/Deck.js:172-185 | the new state is RelocateStep(old state); it throws exactly when there is no buffer |
| DeckTransport.Deck.OnEnded | src/audio/Deck.js:90-100 | the new state is OnEndedStep(old state) |
| DeckTransport.Deck.LoadFile | src/audio/Deck.js:69-77 | the new state is LoadStep(old state), with the cues clamped into the new track, and the deck invariant is kept |
| DeckTransport.Deck.SetPlaybackRate | src/audio/Deck.js:282-286 | the new state is RateStep(old state), the corrected rate change |
| DeckTransport.Deck.SetMainCue | src/audio/Deck.js:188 | the new state is MainCueStep(old state) |
| DeckTransport.Deck.SetTempCue | src/audio/Deck.js:191 | the new state is TempCueStep(old state) |
| DeckTransport.Deck.SetHotCue | src/audio/Deck.js:292 | the new state is HotCueStep(old state) |
| DeckTransport.Deck.JumpHotCue | src/audio/Deck.js:293 | the new state is JumpHotCueStep(old state) |
| DeckTransport.Deck.StartTempPlay | src/audio/Deck.js:193-202 | the new state is StartTempPlayStep(old state) |
| DeckTransport.Deck.StopTempPlay | src/audio/Deck.js:204-210 | the new state is StopTempPlayStep(old state) |
| DeckTransport.Deck.CueHoldStart | src/audio/Deck.js:213-243 | the new state is CueHoldStartStep(old state) |
| DeckTransport.Deck.TempRestart | src/audio/Deck.js:218-226 | the new state is TempRestartStep(old state) |
| DeckTransport.Deck.ArmHold | src/audio/Deck.js:228-241 | the new state is ArmHoldStep(old state) |
| DeckTransport.Deck.CueHoldEnd | src/audio/Deck.js:246-267 | the new state is CueHoldEndStep(old state) |
| DeckTransport.Deck.CueReturn | src/audio/Deck.js:250-258 | the new state is CueReturnStep(old state) |
| DeckTransport.Deck.Tap | src/audio/Deck.js:262-266 | the new state is TapStep(old state) |
| DeckTransport.Deck.Tick | src/audio/Deck.js:232-241 | the new state is TickStep(old state) |
| DeckTransport.Deck.FireHold | src/audio/Deck.js:232-241 | the new state is FireHoldStep(old state) |
| DeckUI.WrapDownFacts | src/ui/components/DeckUI.js:189 | the downward loop ends at most 180, subtracting whole turns, and above -180 when it ran |
| DeckUI.WrapUpFacts | src/ui/components/DeckUI.js:189 | the upward loop ends in [-180, 180], adding whole turns |
| DeckUI.WrappedFacts | src/ui/components/DeckUI.js:189 | the normalised delta is in [-180, 180], differs from the input by whole turns, and is the input when already in range |
| DeckUI.NormalizeAngle | src/ui/components/DeckUI.js:189 | the two while loops compute Wrapped(d), which lies in [-180, 180] |
| DeckUI.HoldStep | src/ui/components/DeckUI.js:192-198 | in hold, the frame stays held iff the delta is at most 0.5 degrees; out of hold, it enters iff the delta is below 0.25 |
| DeckUI.HoldHysteresis | src/ui/components/DeckUI.js:192-198 | a delta between 0.25 and 0.5 degrees keeps the hold state as it was |
| DeckUI.MaxRate | src/ui/components/DeckUI.js:212 | the rate limit is at least 1 |
| DeckUI.RawRate | src/ui/components/DeckUI.js:213 | the raw rate lies in [-maxRate, maxRate] |
| DeckUI.SmoothRateBounded | src/ui/components/DeckUI.js:214 | the 0.3/0.7 blend of two rates within [-m, m] stays within it |
| DeckUI.NextPos | src/ui/components/DeckUI.js:221-223 | a hold frame keeps the position; otherwise it lies in [0, duration] |
| DeckUI.HoldFrameFreezes | src/ui/components/DeckUI.js:199-224 | on a hold frame the rates are 0 and the scratch position and last non-zero rate are unchanged |
| DeckUI.MovePositionClamped | src/ui/components/DeckUI.js:221-224 | after a move a scratch position is recorded, and off hold it is in [0, duration] |
| DeckUI.MoveRateBounded | src/ui/components/DeckUI.js:208-244 | the UI rate stays within [-maxRate, maxRate] across moves |
| DeckUI.DoubleMoveHolds | src/ui/components/DeckUI.js:320-322 | as registered, a move over the platter runs onPointerMove twice; the second run ends in hold with both UI rates 0 and the scratch position unchanged |
| DeckUI.BandDragFrozenAsWritten | src/ui/components/DeckUI.js:192-200 | as registered, a drag of 0.25 to 0.5 degrees per event stays in hold with rate 0 and never moves the scratch position |
| DeckUI.BandDragMoves | src/ui/components/DeckUI.js:189-224 | with one handler run per event, a moving platter keeps moving on a delta between 0.25 and 0.5 degrees, and the position follows the scaled delta |
| DeckUI.FirstLargest | src/ui/components/DeckUI.js:273-275 | the fling rate is one of the candidates with the largest magnitude, ties going to the earlier candidate |
| DeckUI.SelectFling | src/ui/components/DeckUI.js:273-275 | the candidate comparison computes FirstLargest |
| DeckUI.CandidateGuards | src/ui/components/DeckUI.js:268-272 | a negligible last rate and a non-zero rate older than 400 ms contribute 0, and decay never grows the remembered rate |
| DeckUI.ReleaseOutcome | src/ui/components/DeckUI.js:250-318 | release ends the gesture, sends setHold(false), then either flings or, without a fling, resumes playback or stops the scratch |
| DeckUI.ScratchGesture.constructor | src/ui/components/DeckUI.js:62-78 | the gesture's initial closure variables |
| DeckUI.ScratchGesture.PointerDown | src/ui/components/DeckUI.js:153-181 | the new state is DownStep(old state) |
| DeckUI.ScratchGesture.ComputeFrame | src/ui/components/DeckUI.js:184-224 | the frame computed is FrameOf(state, pointer) |
| DeckUI.ScratchGesture.PointerMove | src/ui/components/DeckUI.js:182-249 | the new state is MoveStep(old state) |
| DeckUI.ScratchGesture.Apply | src/ui/components/DeckUI.js:224-248 | the new state is Advance(old state, frame) |
| DeckUI.ScratchGesture.PointerUp | src/ui/components/DeckUI.js:250-318 | the new state is UpStep(old state) |
| DeckUI.HexValue | src/ui/components/DeckUI.js:673 | a hex digit's value is in [0, 16) |
| DeckUI.DigitChar | src/ui/components/DeckUI.js:674 | the lower-case digit for v is a hex digit whose value is v |
| DeckUI.Pair | src/ui/components/DeckUI.js:673 | two hex digits give a byte in [0, 255] |
| DeckUI.HexToRgb | src/ui/components/DeckUI.js:673 | components are bytes; a string that is not #rrggbb (with or without #) gives white |
| DeckUI.HexDigits | src/ui/components/DeckUI.js:674 | toString(16) yields at least one digit |
| DeckUI.ToHexByte | src/ui/components/DeckUI.js:674 | a byte becomes exactly two lower-case hex digits |
| DeckUI.ColourRoundTrip | src/ui/components/DeckUI.js:673-674 | parsing the hex of three bytes gives them back |
| DeckUI.ColourRoundTripText | src/ui/components/DeckUI.js:673-674 | re-encoding a parsed colour gives '#' and its digits in lower case |
| DeckUI.MixComponentBetween | src/ui/components/DeckUI.js:675 | a mixed component lies between its two ends for t in [0, 1] |
| DeckUI.MixBetween | src/ui/components/DeckUI.js:675 | each component of mix(hex1, hex2, t) lies between those of the two colours |
| DeckUI.BpmTargetFollowsRate | src/ui/components/DeckUI.js:475-499 | with a detected BPM the shown target is round(detected x applied rate); an untouched slider keeps rate 1 and shows the detected BPM |
| DeckUI.BpmWithoutDetection | src/ui/components/DeckUI.js:486-505 | without detection the rate is set only after the slider is touched, and the target is the rounded slider value |
| Mixer.ToStepFacts | src/ui/components/MixerUI.js:23 | snapping moves a value by at most half a step and keeps [0, 1] |
| Mixer.ToStepOfGrid | src/ui/components/MixerUI.js:23 | values already on the 0.01 grid are fixed points |
| Mixer.DraggedFacts | src/ui/components/MixerUI.js:28-31 | a drag result is in [0, 1] and snaps to the detent when within 0.02 of it |
| Mixer.KeyFacts | src/ui/components/MixerUI.js:35-40 | only the six handled keys change the value; results are in [0, 1]; Home gives 0, End gives 1; arrows move in their direction |
| Mixer.KeyStepsOnce | src/ui/components/MixerUI.js:36-37 | on the grid an arrow key moves exactly one step, stopping at the ends |
| Mixer.Knob.constructor | src/ui/components/MixerUI.js:15 | the value starts clamped into [0, 1] |
| Mixer.Knob.PointerDown | src/ui/components/MixerUI.js:24 | dragging starts at the pointer; the value is unchanged |
| Mixer.Knob.PointerMove | src/ui/components/MixerUI.js:25-33 | while dragging the value becomes Dragged(...) and onChange fires only on a change; otherwise nothing changes |
| Mixer.Knob.PointerUp | src/ui/components/MixerUI.js:34 | dragging ends; the value is unchanged |
| Mixer.Knob.OnKey | src/ui/components/MixerUI.js:35-40 | a handled key sets the value to KeyValue and fires onChange; other keys change nothing |
| Mixer.Knob.SetValue | src/ui/components/MixerUI.js:46 | the value is clamped into [0, 1] without firing onChange |
| Mixer.SafeRangeVal | src/ui/components/MixerUI.js:54-57 | the result is in [0, 1]: the clamped input when numeric, else the clamped fallback |
| Mixer.DeckGainsFacts | src/ui/components/MixerUI.js:58-63 | both deck gains are in [0, 1]; at full faders they sum to 1 |
| Mixer.CrossfadeMonotone | src/ui/components/MixerUI.js:59-60 | moving the crossfader toward B never raises A's gain nor lowers B's |
| Mixer.MasterGainFacts | src/ui/components/MixerUI.js:108-112 | the squared master curve is monotone, within [0, v], and fixes 0 and 1 |
| Mixer.MixerState.constructor | src/ui/components/MixerUI.js:52-63 | initial state: crossfader centred, faders and master at 1, both gains 0.5 |
| Mixer.MixerState.UpdateDeckGains | src/ui/components/MixerUI.js:58-63 | the deck gains become DeckGains(faders, crossfader) |
| Mixer.MixerState.OnCross | src/ui/components/MixerUI.js:140 | the crossfader takes the safe value of the input |
| Mixer.MixerState.OnFader | src/ui/components/MixerUI.js:90-97 | only the moved side's fader takes the safe value of the input |
| Mixer.MixerState.OnMaster | src/ui/components/MixerUI.js:108-112 | the master gain becomes the squared knob value; deck gains are untouched |
| Mixer.SumSqBounds | src/ui/components/MixerUI.js:185 | the sum of squared centred bytes is in [0, n] |
| Mixer.MeanUnit | src/ui/components/MixerUI.js:186 | a mean of unit squares is in [0, 1] |
| Mixer.MeanSquare | src/ui/components/MixerUI.js:185-186 | the loop computes the mean square, which lies in [0, 1] |
| Mixer.LevelPercent | src/ui/components/MixerUI.js:188-189 | the level is an integer percentage in [0, 100] |
| Mixer.ActiveSegments | src/ui/components/MixerUI.js:198-199 | the active segment count is in [0, 10] |
| Mixer.LightSegments | src/ui/components/MixerUI.js:200-207 | segment i is on iff i < act, warns iff 7 <= i < act, clips iff 9 <= i < act |
| Mixer.CountPrefix | src/ui/components/MixerUI.js:200-207 | the first k segments have min(k, act) lit |
| Mixer.MeterFacts | src/ui/components/MixerUI.js:200-207 | exactly act segments are lit, as a contiguous bottom run, and clip implies warn implies on |
| Peaks.Stride | src/analysis/peaks.js:6 | the stride is at least 1, and exactly 1 for fewer than 4000 samples |
| Peaks.MaxAbsFacts | src/analysis/peaks.js:9 | a window's peak is non-negative, bounds every sample's magnitude in it, and is 0 or attained |
| Peaks.CeilOf | src/analysis/peaks.js:8 | the loop's window count is ceil(len / stride) |
| Peaks.WindowMax | src/analysis/peaks.js:9 | the inner loop leaves the largest magnitude of the window, cut at the end of the data |
| Peaks.MakePeaks | src/analysis/peaks.js:2-13 | one peak per stride-window, each the window's largest magnitude |
| Peaks.WindowOf | src/analysis/peaks.js:8-9 | sample j lies in window j / stride |
| Peaks.PeakCounts | src/analysis/peaks.js:2-13 | no samples give no peaks; fewer than 4000 give one per sample; every peak is non-negative |
| Peaks.PeaksCover | src/analysis/peaks.js:8-10 | every sample's magnitude is at most its window's peak |
| Analysis.MeanWithin | src/analysis/AnalyzerWorker.js:48 | a mean of values in [lo, hi] is in [lo, hi] |
| Analysis.SumWithin | src/analysis/AnalyzerWorker.js:47 | a sum of values in [lo, hi] is within count x lo and count x hi |
| Analysis.Insert | src/analysis/AnalyzerWorker.js:227 | insertion keeps the list sorted and adds exactly one element |
| Analysis.Sort | src/analysis/AnalyzerWorker.js:227 | the sorted copy is sorted and a permutation of the input |
| Analysis.Median | src/analysis/AnalyzerWorker.js:225-230 | the median of an empty list is 0 |
| Analysis.SortedHead | src/analysis/AnalyzerWorker.js:227 | the head of a sorted list is at most each of its elements |
| Analysis.SortedSameHead | src/analysis/AnalyzerWorker.js:227 | two sorted permutations of each other share their head |
| Analysis.TailMultiset | src/analysis/AnalyzerWorker.js:227 | dropping the head removes exactly that element |
| Analysis.SortedUnique | src/analysis/AnalyzerWorker.js:227 | two sorted lists with the same elements are equal |
| Analysis.MedianPermutation | src/analysis/AnalyzerWorker.js:225-230 | the median does not depend on the input order |
| Analysis.MedianOfSorted | src/analysis/AnalyzerWorker.js:228-229 | on a sorted list the median is the middle element, or the mean of the two middle ones |
| Analysis.MedianBetween | src/analysis/AnalyzerWorker.js:225-230 | the median lies between the smallest and largest values |
| Analysis.WindowSize | src/analysis/AnalyzerWorker.js:219-220 | the smoothing window contains i, stays inside the array, and has 1 to 2r+1 elements |
| Analysis.SmoothArray | src/analysis/AnalyzerWorker.js:214-223 | each output is the mean of the clipped window around it |
| Analysis.Smoothed | src/analysis/AnalyzerWorker.js:214-223 | one smoothed value per input value |
| Analysis.SmoothWithin | src/analysis/AnalyzerWorker.js:214-223 | smoothing keeps values inside any bounds the input respects |
| Analysis.DecimationFactor | src/analysis/AnalyzerWorker.js:41 | the decimation factor is at least 1 |
| Analysis.BlocksFit | src/analysis/AnalyzerWorker.js:42-45 | each output block lies inside the input |
| Analysis.Decimate | src/analysis/AnalyzerWorker.js:42-49 | the output has len / factor samples, each the mean of its block |
| Analysis.PreparePcm | src/analysis/AnalyzerWorker.js:36-51 | audio above 44.1 kHz and longer than 30 s at that rate becomes its block means for the factor round(rate / 44100) and is analysed at round(rate / factor); anything else is analysed as received at its own rate |
| Analysis.BlockMeanWithin | src/analysis/AnalyzerWorker.js:46-48 | a block mean stays inside the input's bounds |
| Analysis.EnergyNonneg | src/analysis/AnalyzerWorker.js:105 | a windowed absolute sum is non-negative |
| Analysis.FrameFits | src/analysis/AnalyzerWorker.js:101-103 | every counted frame lies inside the samples |
| Analysis.FrameEnergies | src/analysis/AnalyzerWorker.js:101-107 | there are max(0, floor((len - 512) / 256) + 1) frame energies |
| Analysis.Frames | src/analysis/AnalyzerWorker.js:101-107 | the array holds FrameEnergies: one mean windowed magnitude per whole frame |
| Analysis.FrameEnergyNonneg | src/analysis/AnalyzerWorker.js:106 | each frame energy is non-negative |
| Analysis.FluxAt | src/analysis/AnalyzerWorker.js:116-120 | flux is the positive part of the frame-to-frame rise, and 0 at frame 0 |
| Analysis.Flux | src/analysis/AnalyzerWorker.js:116-120 | the loop fills every entry with FluxAt |
| Analysis.FluxOf | src/analysis/AnalyzerWorker.js:116-120 | one flux value per frame |
| Analysis.MaxFrom0 | src/analysis/AnalyzerWorker.js:122 | the running maximum from 0 bounds every entry and is non-negative |
| Analysis.FluxScale | src/analysis/AnalyzerWorker.js:122-123 | the normaliser is positive (at least 1e-9) |
| Analysis.Normalized | src/analysis/AnalyzerWorker.js:124 | normalising keeps the length |
| Analysis.NormalizeInPlace | src/analysis/AnalyzerWorker.js:122-124 | the array becomes its normalised copy |
| Analysis.NormalizedUnit | src/analysis/AnalyzerWorker.js:122-124 | normalised non-negative flux lies in [0, 1] |
| Analysis.Thresholded | src/analysis/AnalyzerWorker.js:128 | every entry is either zeroed or at least the cut, and entries at or above the cut are kept |
| Analysis.ThresholdInPlace | src/analysis/AnalyzerWorker.js:128 | the array becomes its thresholded copy |
| Analysis.CutBelowHalfMedian | src/analysis/AnalyzerWorker.js:127-128 | the cut at half the median keeps the length |
| Analysis.CutInPlace | src/analysis/AnalyzerWorker.js:127-128 | the array becomes its copy cut below half its median |
| Analysis.Shifted | src/analysis/AnalyzerWorker.js:137 | shifting keeps the length |
| Analysis.SubtractMeanInPlace | src/analysis/AnalyzerWorker.js:136-137 | the array becomes itself minus its mean |
| Analysis.ShiftedSum | src/analysis/AnalyzerWorker.js:137 | shifting n entries by c lowers their sum by n x c |
| Analysis.ShiftedSumsToZero | src/analysis/AnalyzerWorker.js:136-137 | the mean-subtracted envelope sums to 0 |
| Analysis.Centered | src/analysis/AnalyzerWorker.js:136-137 | removing the mean keeps the length and leaves a sum of 0 |
| Analysis.EnvelopeOf | src/analysis/AnalyzerWorker.js:116-137 | the onset envelope of given frame energies has one value per frame and sums to 0 |
| Analysis.Envelope | src/analysis/AnalyzerWorker.js:101-137 | the onset envelope of the samples has one value per whole frame and sums to 0 |
| Analysis.OnsetEnvelope | src/analysis/AnalyzerWorker.js:116-137 | the array passes (flux, normalise, smooth, cut, centre) produce exactly EnvelopeOf of the frame energies |
| Analysis.Autocorrelate | src/analysis/AnalyzerWorker.js:144-149 | ac has maxLag + 1 entries: the lag-product sum from minLag on, and 0 below |
| Analysis.BestLag | src/analysis/AnalyzerWorker.js:151-154 | Ok gives the first lag of maximal positive correlation in range; the error autocorr-no-peak occurs iff no lag in range is positive |
| Analysis.BestLagUnique | src/analysis/AnalyzerWorker.js:151-152 | at most one lag is the first maximal positive lag, so the tempo is determined by the envelope |
| Analysis.FinalBpm | src/analysis/AnalyzerWorker.js:161 | the returned BPM is never 0 (a 0 becomes 120) |
| Analysis.OctaveFacts | src/analysis/AnalyzerWorker.js:155-161 | below 90 the tempo doubles, above 140 it halves (rounded), in between it is kept; a raw tempo in [45, 360] ends in [70, 180] |
| Analysis.TempoRange | src/analysis/AnalyzerWorker.js:141-155 | at 3 or more frames per second every lag in [floor(fps / 3), ceil(fps)] is at least 1 and gives a raw tempo in [45, 360] |
| Analysis.TempoOf | src/analysis/AnalyzerWorker.js:141-161 | over an envelope, the result satisfies IsTempoOf: it is the octave-corrected tempo of the best lag, always in [70, 180]; autocorr-no-peak occurs exactly when no lag in range correlates positively |
| Analysis.EstimateBpm | src/analysis/AnalyzerWorker.js:91-162 | not-enough-frames occurs iff there are fewer than 4 frames; otherwise autocorr-no-peak occurs iff no lag in [floor(fps / 3), ceil(fps)] has a positive autocorrelation of the onset envelope, and an estimate is FinalBpm(60 fps / lag) for the best lag of that envelope (IsTempoOf of the pure envelope `Envelope`); every estimate is in [70, 180] |

## Left out

- AudioEngine.js, Timeworklet.js, Platter.js, db.js, main.js and sw.js are not part of this model. They hold the audio graph, visuals, storage, wiring and offline caching.
- Deck's gain, EQ and filter setters (Deck.js:288-290) are Web Audio parameter writes with no logic; they are not modelled.
- Deck.js's scratch bridge (`scratchStart`, `scratchFling`, `resumeAtPosition`, `scratchStop`, `stopImmediate`) and the crossfade scheduler have no body in Deck.js. The gesture model records them as calls (`DeckUI.DeckCall`) and does not model their effect.
- Web Audio sources are not modelled. A source is an id. Whether `start` succeeds is a parameter (`started`), and `onended` is an operation taking the source's id.
- Timers are deadlines in the deck state. The 8 ms lock is a `lockExpiry` timestamp. The 180 ms hold timer is a pending entry fired by `Tick`. Real scheduling and event interleaving are not modelled.
- DeckUI's drawing code (drawWaveform, HSL conversions, startWaveTicker, the fling and acceleration visuals) is not modelled. The cue-button mouse handlers and the analysis wiring are not modelled either. Only the gesture arithmetic, the colour codec and the BPM slider logic are.
- In the analysis worker, decoding, `hann`, `magnitudeSpectrum`, the message handler's I/O and `fallbackBpmFromEnvelope` are not modelled. The Hann window is a parameter of `Analysis.Frames` and `Analysis.EstimateBpm`.
- `Math.exp`, `Math.pow`, `Math.sqrt`, `Math.atan2` and `Math.cos` results are parameters with their ranges stated. The gate, slew and fling coefficients and the meter curve are not derived from their time constants.
- Float32 storage, NaN and Infinity are not modelled. Numbers are exact reals, and `None` stands for a missing or non-numeric field.
- ScratchWorklet.ScratchProcessor.Process: the output is an `array2` indexed by channel and frame rather than an array of Float32Arrays. The debug `postMessage` calls are dropped. It requires every channel of a buffer it renders to hold at least one sample: for an empty channel beside a non-empty first one the source reads `undefined` and writes NaN, which the model does not represent.
- ScratchWorklet.ScratchProcessor.RenderBlock: the same requirement as Process on the channels.
- ScratchWorklet.ScratchProcessor.Frame: the same requirement as Process on the channels.
- ScratchWorklet.BlockOutBounded: the same requirement as Process on the channels.
- ScratchWorklet.SetBufferKeepsPositionInside: a NaN `sampleRate` is stored as NaN in `_bufSampleRate` by the source; the model passes it as a missing rate and stores the context rate. The ratio, the only value read later, is the same.
- DeckUI.ScratchGesture.PointerMove: models one handler run per pointer event. The double run of a move over the platter is the fourth row of "## Findings" and is modelled by `DeckUI.MoveEventAsWritten`.
- DeckTransport.Deck.Seek: the TypeError thrown when seeking without a buffer is returned as a `threw` flag. The lock still expires 8 ms after the seek (`lockExpiry := now + 8`), as the source's `finally` releases it even when seek throws.
- DeckTransport.Deck.SetPlaybackRate: follows the corrected rate change (see Findings). The as-written version is `DeckTransport.RateStepAsWritten`.
- DeckTransport.Deck.LoadFile: follows the corrected load, which clamps the main and temporary cues into the new track (see Findings). The as-written version is `DeckTransport.LoadStepAsWritten`.
- RunSane: the target rate and the smoothed rate are not bounded in general. `startScratch` stores the caller's rate in both unclamped (ScratchProcessor.js:63-64), and `setRate` stores the target unclamped (ScratchProcessor.js:81-83). The bound on the smoothed rate holds only for a block that starts with it inside [-8, 8].
- StepFrameSane: the same gap as RunSane, for one frame.
- ScratchFrame.Sample: uses the clamped first tap (see Findings). The as-written taps are `ScratchFrame.TapsAsWritten`.
- Analysis.EstimateBpm: requires a sample rate of at least 768 Hz, three envelope frames per second, so that the shortest lag is at least 1. Below that the source can divide by a zero lag.
- DeckUI.BpmTargetFollowsRate: requires a non-zero slider centre. A slider with min = -max would divide by zero in the source.
- Mixer.Knob: the step is the 0.01 every knob in MixerUI.js uses; the `step` option is not a parameter.

## Findings

| source | as written | input that shows it | evidently intended | confidence | as-written member | corrected member |
|---|---|---|---|---|---|---|
| src/audio/Worklets/ScratchProcessor.js:197 | the first interpolation tap `i0 = max(0, idx - 1)` is not clamped to `src.length - 1`, unlike the other three | a buffer of `len` samples, `startScratch` at position `(len + 1) / sampleRate` with rate 1 and no resampling: the first unmuted frame has `idx = len + 1`, so `src[len]` is read past the end and the sample becomes NaN | clamp `i0` into `[0, len - 1]` like `i1..i3` | not executed | ScratchFrame.TapsAsWrittenOverrun | ScratchFrame.Taps |
| src/audio/Deck.js:282-286 | `setPlaybackRate` changes the rate without re-anchoring `_playStartContextTime` and `_playStartTrackOffset`, so `getPosition` rescales all time since `play` | play from offset 0 at context time 0 with rate 1; at context time 10 set the rate to 2; `getPosition` jumps from 10 to 20 | re-anchor the clock at the current position when the rate changes | not executed | DeckTransport.RateChangeJumpsPosition | DeckTransport.RateChangeKeepsPosition |
| src/audio/Deck.js:69-77 | `loadFile` keeps `mainCue` and `_tempCue` from the previous track, and `cueHoldStart` on a stopped deck sets `pausedAt = mainCue` (Deck.js:230) | `setMainCue(90)` on a 100 s track, then `loadFile` of a 10 s track, then `cueHoldStart` while stopped: `pausedAt` is 90 and `getPosition` returns 90 on a 10 s buffer | clamp the kept cues into the new track, as the cue setters do, so the position stays in [0, duration] | not executed | DeckTransport.CuePastEnd | DeckTransport.RunPositionInTrack |
| src/ui/components/DeckUI.js:320-322 | `onPointerMove` listens on both the platter and the window, so a move over the platter bubbles up and runs the handler a second time with the same coordinates; that run sees `dAng = 0`, enters hold and zeroes `uiLastRate` (DeckUI.js:193-216) | scratching from a moving state with a 0.4 degree turn per pointermove over the platter: the first event's bubbled run enters hold, each later event starts in that hold, and 0.4 does not exceed the 0.5 degree exit threshold, so after the first event the record never moves | one handler run per pointer event; the window listener only keeps a drag alive once the pointer leaves the platter | not executed | DeckUI.BandDragFrozenAsWritten | DeckUI.BandDragMoves |
