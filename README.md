# Perfect Tap: the gameplay state machine in Dafny

Perfect Tap is a one-button timing game. A circle slides left and right along
a line, and the player taps when it crosses the centre line. A tap close
enough to the centre is a hit: it scores a point and adds a fixed amount to
the circle's speed. Any other tap is a miss and ends the run. The best score
is kept in the preference store. A difficulty manager holds three presets
(Easy, Medium, Hard). Each preset is a ball speed, a hit-zone size and a
centre-line length, and the manager pushes the chosen one into the game
manager.

The project models the two components that hold this logic:

- `difficulty.dfy` (module `Difficulty`): the level type, the preset table
  and the preset lookup with its fallback arm.
- `motion.dfy` (module `Motion`): the per-frame motion step. The circle
  moves, then reverses once it is at least the travel distance from its start.
- `rules.dfy` (module `Rules`): the whole run state as a value, with one
  function per command of the game manager. It also defines command
  sequences and proves lemmas about them: the state invariant, a best score
  that never drops, the speed gained per point, tap gating, and scenarios
  with the default presets.
- `managers.dfy` (module `Managers`): the two components as classes whose
  methods update fields in place. Each method of `PerfectTapManager` is
  proved to move `Model()` exactly as the matching `Rules` function does, and
  to keep the invariant `Valid()` (the direction is +1 or -1, the score is
  not negative, the stored preferences mirror `bestScore` and `isMuted`).
- `wrappers.dfy`: `Option`, for the centre line's width, which may be
  unavailable, and for a difficulty manager that may be absent.

Behaviours of the code that the model reproduces as written:

- With a difficulty manager, `speedMultiplier` keeps its default 0, because
  it is assigned only in the fallback branch of `StartGame`. So a hit after a
  Medium start leaves the speed at 312, not 312.5 (`Rules.MediumFirstHit`).
- `SetDifficulty` applies the preset at once, even in the middle of a run
  (`Rules.DifficultyAppliesMidRun`).
- `CloseSettings` enables taps in every phase. From the main menu, no frame
  processes those taps (`Rules.CloseSettingsInMenu`).
- The two timers check no phase. A menu timer left over from an earlier game
  over ends a later run without the best-score update, so a new record is
  lost (`Rules.StaleMenuTimerLosesRecord`).
- When the centre line's rectangle is available, the hit test uses half of
  its width. `ConfigureForDifficulty` sets that width to the preset's line
  length, so the Medium half-width is 165, not the hit-zone size 200
  (`Rules.LiveWidthOverridesHitZone`, `Rules.MediumMissWithLiveLine`).
- A zero-length frame still reverses a circle that is already outside the
  band. A circle that overshoots the bound by more than one frame's travel
  reverses again and heads outwards (`Motion.ZeroStep`,
  `Motion.OvershootReversesAgain`). Nothing clamps the position.
- `OpenSettings` pauses time (time scale 0), and only `CloseSettings` and
  `ShowMainMenu` set it back to 1. `StartGame` closes the settings without
  touching the time scale, so a run started with the settings open stays
  paused. Its frames have a zero time step, its arming timer never fires, and
  the circle stays at its start with taps disabled (`Rules.StartInSettingsStalls`).

## Model

| member | source | states |
|---|---|---|
| `Difficulty.Select` | Assets/Scripts/DifficultyManager.cs:49-71 | the preset is always one of the three in the table; Easy and Hard select their own, and Medium and every other level value select Medium |
| `Difficulty.DefaultPresets` | Assets/Scripts/DifficultyManager.cs:8-21 | with the default field values Easy is (150, 400, 800), Medium is (312, 200, 330) and Hard is (500, 100, 100) |
| `Difficulty.UnnamedLevelIsMedium` | Assets/Scripts/DifficultyManager.cs:66-70 | a level outside {0, 1, 2} configures exactly what Medium does |
| `Motion.Advance` | Assets/Scripts/PerfctTapManager.cs:88-91 | the circle moves by direction * speed * dt; a unit direction stays a unit; it reverses exactly when the new position is at least the travel distance from the start |
| `Motion.ReversalPointsHome` | Assets/Scripts/PerfctTapManager.cs:88-91 | a step that starts inside the band and reverses ends beyond the bound, with the new direction pointing back to the start |
| `Motion.ZeroStep` | Assets/Scripts/PerfctTapManager.cs:88-91 | a zero-length step keeps the position and reverses exactly when the circle is already outside the band |
| `Motion.OvershootReversesAgain` | Assets/Scripts/PerfctTapManager.cs:88-91 | a circle heading home from beyond the bound by more than one step's travel is still beyond it after the step, so it reverses again and heads away from the start (no clamping) |
| `Rules.Initial` | Assets/Scripts/PerfctTapManager.cs:59-80 | start-up: score 0, the stored best score and mute flag loaded, main menu (no run, no settings, no taps), circle at its start heading right, time scale 1, invariant established |
| `Rules.StartGame` | Assets/Scripts/PerfctTapManager.cs:112-145 | score 0, direction +1, run active, settings closed, taps disabled, circle at its start; with a manager the whole state is Configure of the reset state with its preset (so a live centre line is resized to the line length and the fallback fields take the preset); without one, only the four runtime values take the fallback values (speedMultiplier only then); everything else, the time scale and the centre line included, is unchanged |
| `Rules.EnableTap` | Assets/Scripts/PerfctTapManager.cs:147-150 | taps enabled, nothing else changes, in any phase |
| `Rules.Threshold` | Assets/Scripts/PerfctTapManager.cs:160-167 | the half-width is half the live centre-line width when present, else the cached perfectThreshold |
| `Rules.HandleTap` | Assets/Scripts/PerfctTapManager.cs:152-181 | with taps disabled nothing changes; a tap within the threshold (boundary included) adds exactly 1 to the score and exactly speedMultiplier to the speed, and nothing else; otherwise it is GameOver |
| `Rules.GameOver` | Assets/Scripts/PerfctTapManager.cs:183-201 | run stopped and taps disabled; score unchanged; best score becomes max(best, score); the stored best changes only when score > best, and then to score; nothing else changes |
| `Rules.ShowMainMenu` | Assets/Scripts/PerfctTapManager.cs:203-217 | time scale 1, no run, no settings, no taps, circle at its start; nothing else changes |
| `Rules.OpenSettings` | Assets/Scripts/PerfctTapManager.cs:220-226 | settings open, taps disabled, time scale 0; nothing else changes |
| `Rules.CloseSettings` | Assets/Scripts/PerfctTapManager.cs:228-234 | settings closed, taps enabled whatever the phase, time scale 1; nothing else changes |
| `Rules.ToggleMute` | Assets/Scripts/PerfctTapManager.cs:237-242 | the mute flag flips and the stored flag equals the new value; nothing else changes |
| `Rules.Configure` | Assets/Scripts/PerfctTapManager.cs:265-287 | speed and start speed become the ball speed, both thresholds the hit-zone size, both travel distances half the line length, a present centre-line width becomes the line length; score, best score and flags are untouched |
| `Rules.SetDifficulty` | Assets/Scripts/PerfctTapManager.cs:252-262 | without a manager nothing changes; with one, the selected preset is configured at once |
| `Rules.Move` | Assets/Scripts/PerfctTapManager.cs:88-91 | only position and direction change; position advances by direction * currentSpeed * dt; the direction stays a unit and reverses exactly when the circle is at least moveDistance from its start |
| `Rules.Frame` | Assets/Scripts/PerfctTapManager.cs:83-109 | no-op while no run is active or the settings are open; otherwise a motion step by the scaled time step dt * timeScale, followed by HandleTap when the player tapped and taps are enabled; with time scale 0 and no handled tap, position, score and tap state stay |
| `Rules.ApplyKeepsInv` | Assets/Scripts/PerfctTapManager.cs:88-91 | every command keeps the direction a unit, the score non-negative and the stored preferences equal to bestScore and isMuted |
| `Rules.RunKeepsInv` | Assets/Scripts/PerfctTapManager.cs:194-198 | the invariant holds after any sequence of commands, so the preference store always holds the best score |
| `Rules.ApplyKeepsBest` | Assets/Scripts/PerfctTapManager.cs:194-198 | no command lowers the best score |
| `Rules.BestNeverDecreases` | Assets/Scripts/PerfctTapManager.cs:194-198 | after any sequence of commands the best score is at least what it was, and the stored best equals it |
| `Rules.TapKeepsSpeedBase` | Assets/Scripts/PerfctTapManager.cs:169-176 | a tap keeps speedMultiplier and keeps speed minus score * speedMultiplier |
| `Rules.ApplyKeepsSpeedBase` | Assets/Scripts/PerfctTapManager.cs:169-176 | every command other than starting a run or choosing a difficulty keeps speedMultiplier and speed minus score * speedMultiplier |
| `Rules.RunKeepsSpeedBase` | Assets/Scripts/PerfctTapManager.cs:169-176 | the same holds over any sequence of such commands |
| `Rules.SpeedTracksScore` | Assets/Scripts/PerfctTapManager.cs:169-176 | between configurations the speed equals the starting speed plus speedMultiplier for each point scored, whatever frames, timers and settings come between |
| `Rules.HitStreak` | Assets/Scripts/PerfctTapManager.cs:169-176 | n taps on target give score + n and speed s0 + n * speedMultiplier, and change nothing else |
| `Rules.TapGating` | Assets/Scripts/PerfctTapManager.cs:154 | a tap while taps are disabled changes nothing; a frame changes nothing while the settings are open or no run is active |
| `Rules.ArmedIgnoresTaps` | Assets/Scripts/PerfctTapManager.cs:130-144 | right after StartGame a frame with a tap changes neither score nor phase |
| `Rules.SettingsFreezeTheRun` | Assets/Scripts/PerfctTapManager.cs:220-234 | during a run, frames with the settings open leave the state unchanged; closing them resumes from the same position and direction with taps enabled |
| `Rules.StartInSettingsStalls` | Assets/Scripts/PerfctTapManager.cs:112-145 | after OpenSettings then StartGame, any sequence of frames and timer callbacks leaves the run active, taps disabled, score 0, the circle at its start and time paused |
| `Rules.PausedRun` | Assets/Scripts/PerfctTapManager.cs:83-91 | while the time scale is 0 in an active run with taps disabled, frames and timers keep position, score, phase and tap state |
| `Rules.FrozenFrames` | Assets/Scripts/PerfctTapManager.cs:85 | any number of frames with the settings open change nothing |
| `Rules.CloseSettingsInMenu` | Assets/Scripts/PerfctTapManager.cs:228-234 | from the menu, CloseSettings enables taps, yet a frame still changes nothing |
| `Rules.DifficultyAppliesMidRun` | Assets/Scripts/PerfctTapManager.cs:252-262 | during a run SetDifficulty changes speed and threshold at once and the run and score go on |
| `Rules.LiveWidthOverridesHitZone` | Assets/Scripts/PerfctTapManager.cs:276-286 | once a live centre line is resized, the hit half-width is half the line length regardless of the hit-zone size |
| `Rules.StaleMenuTimerLosesRecord` | Assets/Scripts/PerfctTapManager.cs:200-209 | a menu timer firing during a later run ends it with the record score not written to the best score or the store |
| `Rules.MediumFirstHit` | Assets/Scripts/PerfctTapManager.cs:117-128 | Medium through a manager, tap at the centre after arming: score 1, speed still 312, run still active |
| `Rules.MediumMiss` | Assets/Scripts/PerfctTapManager.cs:169-198 | Medium without a live width, tap 201 from the centre: miss, run over, taps disabled, best score 0 |
| `Rules.MediumMissWithLiveLine` | Assets/Scripts/PerfctTapManager.cs:162-169 | Medium with a live centre line, tap 166 from the centre: miss |
| `Rules.FallbackHitSpeedsUp` | Assets/Scripts/PerfctTapManager.cs:121-128 | without a manager a hit at the centre takes the speed from 312 to 312.5 |
| `Rules.MuteTwiceRestores` | Assets/Scripts/PerfctTapManager.cs:237-242 | toggling mute twice restores the flag, and in a valid state the whole state |
| `Managers.DifficultyManager.constructor` | Assets/Scripts/DifficultyManager.cs:6-21 | a new manager is at Medium with the default preset table |
| `Managers.DifficultyManager.SetLevel` | Assets/Scripts/DifficultyManager.cs:39-42 | the level becomes the argument; only the level field may change, so the presets stay |
| `Managers.DifficultyManager.ApplySettings` | Assets/Scripts/DifficultyManager.cs:44-75 | with no game manager nothing happens; otherwise the game manager is configured with the preset selected for the current level; the difficulty manager itself is unchanged |
| `Managers.PerfectTapManager.constructor` | Assets/Scripts/PerfctTapManager.cs:59-80 | the state is Rules.Initial and the difficulty manager is the singleton instance |
| `Managers.PerfectTapManager.StartGame` | Assets/Scripts/PerfctTapManager.cs:112-145 | the new state is Rules.StartGame of the old one, with the preset of the held difficulty manager or the fallback; the invariant is kept |
| `Managers.PerfectTapManager.BeginRun` | Assets/Scripts/PerfctTapManager.cs:130-141 | direction +1, run active, settings closed, taps disabled, circle at its start; nothing else changes |
| `Managers.PerfectTapManager.EnableTap` | Assets/Scripts/PerfctTapManager.cs:147-150 | the new state is Rules.EnableTap of the old one |
| `Managers.PerfectTapManager.HandleTap` | Assets/Scripts/PerfctTapManager.cs:152-181 | the new state is Rules.HandleTap of the old one; the invariant is kept |
| `Managers.PerfectTapManager.GameOver` | Assets/Scripts/PerfctTapManager.cs:183-201 | the new state is Rules.GameOver of the old one; the stored best follows the guarded write |
| `Managers.PerfectTapManager.ShowMainMenu` | Assets/Scripts/PerfctTapManager.cs:203-217 | the new state is Rules.ShowMainMenu of the old one |
| `Managers.PerfectTapManager.OpenSettings` | Assets/Scripts/PerfctTapManager.cs:220-226 | the new state is Rules.OpenSettings of the old one |
| `Managers.PerfectTapManager.CloseSettings` | Assets/Scripts/PerfctTapManager.cs:228-234 | the new state is Rules.CloseSettings of the old one |
| `Managers.PerfectTapManager.ToggleMute` | Assets/Scripts/PerfctTapManager.cs:237-242 | the new state is Rules.ToggleMute of the old one, the stored flag included |
| `Managers.PerfectTapManager.SetDifficulty` | Assets/Scripts/PerfctTapManager.cs:252-262 | a missing manager is fetched from the singleton; with a manager its level becomes the argument (cast, so any int), its presets stay, and the game state is configured with the selected preset at once; with none nothing changes; a singleton instance that is not used stays unchanged |
| `Managers.PerfectTapManager.ConfigureForDifficulty` | Assets/Scripts/PerfctTapManager.cs:265-287 | the new state is Rules.Configure of the old one with the pushed triple |
| `Managers.PerfectTapManager.Update` | Assets/Scripts/PerfctTapManager.cs:83-109 | the new state is Rules.Frame of the old one for this frame's dt and tap |

## Left out

- Presentation: panel toggles (`SetActive`), the score and best-score labels (`UpdateUI`), audio (`PlaySound`, `AudioListener`), the colour flash coroutine, `SetCircleColorByIndex` and `SetBackgroundColor`. None of them writes state the run logic reads.
- Input polling (`Input.GetMouseButtonDown`, `Input.GetTouch`, `EventSystem.IsPointerOverGameObject`) is host input. A tap is the `tapped` argument of `Update`; command sequences reach `HandleTap` only through a frame. `Managers.PerfectTapManager.HandleTap` is callable on its own, although the source's method is private and called only from `Update` behind its guard, so calling it directly over-approximates what the source allows.
- `Time.deltaTime` is modelled as the frame's real step `dt` (never negative) times the time scale, which the manager writes (0 in `OpenSettings`, 1 in `CloseSettings` and `ShowMainMenu`; 1 at start-up).
- The `Invoke` timers are the methods `EnableTap` and `ShowMainMenu`. In command sequences they may fire at any time while the time scale is not 0, and never while it is 0. Their delays (0.25 s and 2.5 s) are not modelled, so when they fire relative to frames is over-approximated.
- `PlayerPrefs` is modelled only as the two ghost fields `savedBest` and `savedMuted`, which mirror the writes.
- Engine lifecycle (`Awake`, the singleton `Instance`, `DontDestroyOnLoad`, `Destroy`): the singleton instance is a parameter of the constructor and of `SetDifficulty`.
- Missing UI handles: every serialized UI reference (`movingCircle`, `centerLine`, the start, gameplay and settings panels, the score, best-score and game-over texts, `audioSource`) is assumed present; the source dereferences them without a check, and a missing one would throw part-way through (for instance in `GameOver` before the best-score write, or in `StartGame` before the circle reset and the arming timer). Only the centre line's rectangle, and so its width, may be missing.
- Positions: only the x coordinate is modelled, because motion is along `Vector3.right` and the hit test compares x coordinates only.
- Numbers: `float` is modelled as `real`, with no rounding. `int` scores are unbounded, so a 32-bit overflow of the score is not modelled.
- `Assets/Scripts/BackgroundColorManager.cs` (a background colour mapping) and `Assets/Scripts/PerfectTapSettingsSimple.cs` (sound toggle and background tint) are not part of this model. Their only effects are on the display.
