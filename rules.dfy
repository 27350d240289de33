/**
 * The run state of the tap game as a value, with one function per command of
 * the game manager. The class in module Managers keeps the same state in
 * fields and each of its methods is proved to take Model() to the value the
 * matching function here gives; the lemmas below are about these functions.
 */
module Rules {

  import opened Wrappers
  import opened Difficulty
  import opened Motion

  /** Everything the game manager keeps: the tunable fallback settings, the
      runtime values, the flags, the x coordinates of the moving circle, of its
      start and of the centre line, the centre line's width when its rectangle
      is available, the engine's time scale (which the manager sets), and the
      two values held in the preference store. */
  datatype Game = Game(
    startSpeed: real,
    moveDistanceChallenge: real,
    perfectThresholdChallenge: real,
    speedMultiplierChallenge: real,
    currentSpeed: real,
    moveDistance: real,
    perfectThreshold: real,
    speedMultiplier: real,
    score: int,
    bestScore: int,
    direction: int,
    isGameActive: bool,
    isInSettings: bool,
    isMuted: bool,
    canTap: bool,
    circleX: real,
    circleStartX: real,
    centerX: real,
    lineWidth: Option<real>,
    timeScale: TimeScale,
    savedBest: int,
    savedMuted: bool)

  /** What every reachable state satisfies: the direction is a unit, the score
      is a count, and the preference store mirrors bestScore and isMuted. */
  ghost predicate Inv(g: Game)
  {
    IsUnit(g.direction) && g.score >= 0 &&
    g.savedBest == g.bestScore && g.savedMuted == g.isMuted
  }

  function Max(a: int, b: int): int
  {
    if a >= b then a else b
  }

  // ---------------------------------------------------------------- start-up

  /** The field initialisers followed by Start: the circle's current position
      becomes its start position, bestScore and isMuted are loaded from the
      preference store, and the main menu is shown. */
  function Initial(circleX: real, centerX: real, lineWidth: Option<real>,
                   storedBest: int, storedMuted: bool): (g: Game)
    ensures Inv(g)
    ensures g.score == 0 && g.bestScore == storedBest && g.isMuted == storedMuted
    ensures !g.isGameActive && !g.isInSettings && !g.canTap
    ensures g.circleX == g.circleStartX == circleX && g.direction == 1
    ensures g.speedMultiplier == 0.0 && g.startSpeed == 312.0 && g.timeScale == 1.0
  {
    ShowMainMenu(Loaded(circleX, centerX, lineWidth, storedBest, storedMuted))
  }

  /** The state Start hands to ShowMainMenu: the field initialisers, the start
      position and the two loaded preferences. */
  function Loaded(circleX: real, centerX: real, lineWidth: Option<real>,
                  storedBest: int, storedMuted: bool): Game
  {
    Game(
      312.0, 500.0, 200.0, 0.5,
      0.0, 0.0, 0.0, 0.0,
      0, storedBest, 1,
      false, false, storedMuted, false,
      circleX, circleX, centerX, lineWidth, 1.0,
      storedBest, storedMuted)
  }

  // --------------------------------------------------------------- game flow

  /** StartGame. With a difficulty manager, `supplied` is the preset it pushes
      through ConfigureForDifficulty; without one the fallback fields are copied
      into the runtime values. speedMultiplier is assigned only in the fallback. */
  function StartGame(g: Game, supplied: Option<Preset>): (r: Game)
    ensures r.score == 0 && r.direction == 1
    ensures r.isGameActive && !r.isInSettings && !r.canTap
    ensures r.circleX == r.circleStartX == g.circleStartX
    ensures r.bestScore == g.bestScore && r.savedBest == g.savedBest
    ensures r.isMuted == g.isMuted && r.savedMuted == g.savedMuted
    ensures supplied.Some? ==>
      r.currentSpeed == supplied.value.speed &&
      r.perfectThreshold == supplied.value.hitZone &&
      r.moveDistance == supplied.value.lineLength / 2.0 &&
      r.speedMultiplier == g.speedMultiplier
    ensures supplied.None? ==>
      r.currentSpeed == g.startSpeed &&
      r.moveDistance == g.moveDistanceChallenge &&
      r.perfectThreshold == g.perfectThresholdChallenge &&
      r.speedMultiplier == g.speedMultiplierChallenge
    ensures supplied.Some? ==>
      r == Configure(g.(score := 0), supplied.value).(
             direction := 1, isGameActive := true, isInSettings := false,
             canTap := false, circleX := g.circleStartX)
    ensures supplied.None? ==>
      r == g.(score := 0, currentSpeed := g.startSpeed, moveDistance := g.moveDistanceChallenge,
              perfectThreshold := g.perfectThresholdChallenge,
              speedMultiplier := g.speedMultiplierChallenge,
              direction := 1, isGameActive := true, isInSettings := false,
              canTap := false, circleX := g.circleStartX)
  {
    var reset := g.(score := 0);
    var configured :=
      match supplied
      case Some(p) => Configure(reset, p)
      case None => reset.(currentSpeed := reset.startSpeed,
                          moveDistance := reset.moveDistanceChallenge,
                          perfectThreshold := reset.perfectThresholdChallenge,
                          speedMultiplier := reset.speedMultiplierChallenge);
    configured.(direction := 1, isGameActive := true, isInSettings := false,
                canTap := false, circleX := configured.circleStartX)
  }

  /** The arming timer's callback: taps are accepted from now on. It checks no phase. */
  function EnableTap(g: Game): (r: Game)
    ensures r.canTap
    ensures r == g.(canTap := r.canTap)
  {
    g.(canTap := true)
  }

  /** The hit zone's half-width: half the centre line's live width when its
      rectangle is available, the cached perfectThreshold otherwise. */
  function Threshold(lineWidth: Option<real>, perfectThreshold: real): (t: real)
    ensures lineWidth.Some? ==> t == lineWidth.value / 2.0
    ensures lineWidth.None? ==> t == perfectThreshold
  {
    match lineWidth
    case Some(w) => w * 0.5
    case None => perfectThreshold
  }

  /** A tap is a hit when the circle is within the threshold of the centre
      line, the boundary included. */
  predicate OnTarget(g: Game)
  {
    Abs(g.circleX - g.centerX) <= Threshold(g.lineWidth, g.perfectThreshold)
  }

  /** HandleTap: ignored while taps are disabled; a hit scores one point and
      speeds the circle up by speedMultiplier; a miss ends the run. */
  function HandleTap(g: Game): (r: Game)
    ensures !g.canTap ==> r == g
    ensures g.canTap && OnTarget(g) ==>
      r == g.(score := g.score + 1, currentSpeed := g.currentSpeed + g.speedMultiplier)
    ensures g.canTap && !OnTarget(g) ==> r == GameOver(g)
  {
    if !g.canTap then g
    else if OnTarget(g) then
      g.(score := g.score + 1, currentSpeed := g.currentSpeed + g.speedMultiplier)
    else GameOver(g)
  }

  /** GameOver: the run stops, taps are disabled, and a score above the best
      becomes the new best and is written to the preference store. */
  function GameOver(g: Game): (r: Game)
    ensures !r.isGameActive && !r.canTap
    ensures r.score == g.score
    ensures r.bestScore == Max(g.bestScore, g.score)
    ensures r.savedBest != g.savedBest ==> g.score > g.bestScore
    ensures g.score > g.bestScore ==> r.savedBest == g.score
    ensures r == g.(isGameActive := false, canTap := false,
                    bestScore := r.bestScore, savedBest := r.savedBest)
  {
    var over := g.(isGameActive := false, canTap := false);
    if g.score > g.bestScore then over.(bestScore := g.score, savedBest := g.score)
    else over
  }

  /** The menu timer's callback: time runs again, all three flags are cleared
      and the circle is back at its start. It checks no phase, so it also ends
      a run started since. */
  function ShowMainMenu(g: Game): (r: Game)
    ensures !r.isGameActive && !r.isInSettings && !r.canTap
    ensures r.circleX == g.circleStartX && r.timeScale == 1.0
    ensures r == g.(timeScale := r.timeScale, isGameActive := false, isInSettings := false,
                    canTap := false, circleX := r.circleX)
  {
    g.(timeScale := 1.0, isGameActive := false, isInSettings := false, canTap := false,
       circleX := g.circleStartX)
  }

  // ---------------------------------------------------------------- settings

  /** OpenSettings disables taps and pauses time (time scale 0). */
  function OpenSettings(g: Game): (r: Game)
    ensures r.isInSettings && !r.canTap && r.timeScale == 0.0
    ensures r == g.(isInSettings := r.isInSettings, canTap := r.canTap, timeScale := r.timeScale)
  {
    g.(isInSettings := true, canTap := false, timeScale := 0.0)
  }

  /** CloseSettings enables taps whatever the phase, and lets time run again. */
  function CloseSettings(g: Game): (r: Game)
    ensures !r.isInSettings && r.canTap && r.timeScale == 1.0
    ensures r == g.(isInSettings := r.isInSettings, canTap := r.canTap, timeScale := r.timeScale)
  {
    g.(isInSettings := false, canTap := true, timeScale := 1.0)
  }

  /** ToggleMute flips the flag and writes it to the preference store. */
  function ToggleMute(g: Game): (r: Game)
    ensures r.isMuted != g.isMuted && r.savedMuted == r.isMuted
    ensures r == g.(isMuted := r.isMuted, savedMuted := r.savedMuted)
  {
    g.(isMuted := !g.isMuted, savedMuted := !g.isMuted)
  }

  /** ConfigureForDifficulty(speed, hitZone, lineLength): the fallback fields and
      the runtime values take the preset at once (the travel distance is half
      the line length) and the centre line, when its rectangle is available, is
      resized to the line length. Score, best score and flags are untouched. */
  function Configure(g: Game, p: Preset): (r: Game)
    ensures r.startSpeed == r.currentSpeed == p.speed
    ensures r.perfectThresholdChallenge == r.perfectThreshold == p.hitZone
    ensures r.moveDistanceChallenge == r.moveDistance == p.lineLength / 2.0
    ensures r.lineWidth == if g.lineWidth.Some? then Some(p.lineLength) else None
    ensures r == g.(startSpeed := r.startSpeed, currentSpeed := r.currentSpeed,
                    perfectThresholdChallenge := r.perfectThresholdChallenge,
                    perfectThreshold := r.perfectThreshold,
                    moveDistanceChallenge := r.moveDistanceChallenge,
                    moveDistance := r.moveDistance, lineWidth := r.lineWidth)
  {
    g.(startSpeed := p.speed, currentSpeed := p.speed,
       perfectThresholdChallenge := p.hitZone,
       moveDistanceChallenge := p.lineLength * 0.5,
       perfectThreshold := p.hitZone,
       moveDistance := p.lineLength * 0.5,
       lineWidth := Resized(g.lineWidth, p.lineLength))
  }

  /** The centre line's width after it is set to `length`, when it exists. */
  function Resized(lineWidth: Option<real>, length: real): Option<real>
  {
    if lineWidth.Some? then Some(length) else None
  }

  /** SetDifficulty after the level is stored in the manager: `supplied` is the
      preset the manager then pushes, or None when there is no manager. */
  function SetDifficulty(g: Game, supplied: Option<Preset>): (r: Game)
    ensures supplied.None? ==> r == g
    ensures supplied.Some? ==> r == Configure(g, supplied.value)
  {
    match supplied
    case Some(p) => Configure(g, p)
    case None => g
  }

  // ------------------------------------------------------------------ frames

  /** The motion part of Update: only the circle's position and direction change. */
  function Move(g: Game, dt: Duration): (r: Game)
    ensures r == g.(circleX := r.circleX, direction := r.direction)
    ensures r.circleX == g.circleX + (g.direction as real) * g.currentSpeed * dt
    ensures IsUnit(g.direction) ==> IsUnit(r.direction)
    ensures IsUnit(g.direction) ==>
      (r.direction != g.direction <==> Abs(r.circleX - g.circleStartX) >= g.moveDistance)
  {
    var m := Advance(Marker(g.circleX, g.direction), g.currentSpeed,
                     g.circleStartX, g.moveDistance, dt);
    g.(circleX := m.x, direction := m.direction)
  }

  /** The frame's scaled time step: the real step `dt` times the time scale. */
  function DeltaTime(g: Game, dt: Duration): Duration
  {
    Scaled(dt, g.timeScale)
  }

  /** Update: nothing while no run is active or the settings are open;
      otherwise the circle moves by the scaled time step and, when the player
      tapped this frame and taps are enabled, the tap is handled. */
  function Frame(g: Game, dt: Duration, tapped: bool): (r: Game)
    ensures !g.isGameActive || g.isInSettings ==> r == g
    ensures g.isGameActive && !g.isInSettings && !(tapped && g.canTap) ==>
      r == Move(g, DeltaTime(g, dt))
    ensures g.isGameActive && !g.isInSettings && tapped && g.canTap ==>
      r == HandleTap(Move(g, DeltaTime(g, dt)))
    ensures g.timeScale == 0.0 && !(tapped && g.canTap) ==>
      r.circleX == g.circleX && r.score == g.score && r.canTap == g.canTap
  {
    if !g.isGameActive || g.isInSettings then g
    else
      var moved := Move(g, DeltaTime(g, dt));
      if tapped && moved.canTap then HandleTap(moved) else moved
  }

  // ---------------------------------------------------- sequences of commands

  /** What the outside world can do to the manager: press a button, let a
      timer fire, or run a frame (taps reach the manager only through a
      frame). `supplied` is what the difficulty manager pushes, None when there
      is none. */
  datatype Command =
    | PressStart(supplied: Option<Preset>)
    | ArmingTimer
    | Tick(dt: Duration, tapped: bool)
    | MenuTimer
    | PressSettings
    | PressClose
    | PressMute
    | PressDifficulty(supplied: Option<Preset>)

  /** The two timers count scaled time, so neither fires while time is paused. */
  predicate TimersRun(g: Game)
  {
    g.timeScale > 0.0
  }

  function Apply(g: Game, c: Command): Game
  {
    match c
    case PressStart(s) => StartGame(g, s)
    case ArmingTimer => if TimersRun(g) then EnableTap(g) else g
    case Tick(dt, tapped) => Frame(g, dt, tapped)
    case MenuTimer => if TimersRun(g) then ShowMainMenu(g) else g
    case PressSettings => OpenSettings(g)
    case PressClose => CloseSettings(g)
    case PressMute => ToggleMute(g)
    case PressDifficulty(s) => SetDifficulty(g, s)
  }

  function Run(g: Game, cs: seq<Command>): Game
    decreases |cs|
  {
    if cs == [] then g else Run(Apply(g, cs[0]), cs[1..])
  }

  /** Every command keeps the state invariant. */
  lemma ApplyKeepsInv(g: Game, c: Command)
    requires Inv(g)
    ensures Inv(Apply(g, c))
  {
    if c.Tick? && g.isGameActive && !g.isInSettings {
      var m := Move(g, DeltaTime(g, c.dt));
      assert Inv(m);
    }
  }

  /** The invariant holds after any sequence of commands. */
  lemma {:induction false} RunKeepsInv(g: Game, cs: seq<Command>)
    requires Inv(g)
    ensures Inv(Run(g, cs))
    decreases |cs|
  {
    if cs != [] {
      ApplyKeepsInv(g, cs[0]);
      RunKeepsInv(Apply(g, cs[0]), cs[1..]);
    }
  }

  /** No command lowers the best score. */
  lemma ApplyKeepsBest(g: Game, c: Command)
    ensures Apply(g, c).bestScore >= g.bestScore
  {
  }

  /** The best score never decreases over any sequence of commands, and the
      preference store keeps holding it. */
  lemma {:induction false} BestNeverDecreases(g: Game, cs: seq<Command>)
    requires Inv(g)
    ensures Run(g, cs).bestScore >= g.bestScore
    ensures Run(g, cs).savedBest == Run(g, cs).bestScore
    decreases |cs|
  {
    RunKeepsInv(g, cs);
    if cs != [] {
      ApplyKeepsBest(g, cs[0]);
      ApplyKeepsInv(g, cs[0]);
      BestNeverDecreases(Apply(g, cs[0]), cs[1..]);
    }
  }

  /** Commands that leave the speed configuration alone: everything except
      starting a run and choosing a difficulty. */
  predicate KeepsConfiguration(c: Command)
  {
    !c.PressStart? && !c.PressDifficulty?
  }

  /** The quantity a hit leaves alone: the speed less speedMultiplier per point. */
  function SpeedBase(g: Game): real
  {
    g.currentSpeed - (g.score as real) * g.speedMultiplier
  }

  /** One tap changes the speed by speedMultiplier exactly when it scores. */
  lemma TapKeepsSpeedBase(g: Game)
    ensures HandleTap(g).speedMultiplier == g.speedMultiplier
    ensures SpeedBase(HandleTap(g)) == SpeedBase(g)
  {
    if g.canTap && OnTarget(g) {
      var m := g.speedMultiplier;
      assert ((g.score + 1) as real) * m == (g.score as real) * m + m;
    }
  }

  /** One command that keeps the configuration keeps speedMultiplier and the speed base. */
  lemma ApplyKeepsSpeedBase(g: Game, c: Command)
    requires KeepsConfiguration(c)
    ensures Apply(g, c).speedMultiplier == g.speedMultiplier
    ensures SpeedBase(Apply(g, c)) == SpeedBase(g)
  {
    if c.Tick? && g.isGameActive && !g.isInSettings {
      var moved := Move(g, DeltaTime(g, c.dt));
      assert SpeedBase(moved) == SpeedBase(g);
      TapKeepsSpeedBase(moved);
    }
  }

  lemma {:induction false} RunKeepsSpeedBase(g: Game, cs: seq<Command>)
    requires forall i :: 0 <= i < |cs| ==> KeepsConfiguration(cs[i])
    ensures Run(g, cs).speedMultiplier == g.speedMultiplier
    ensures SpeedBase(Run(g, cs)) == SpeedBase(g)
    decreases |cs|
  {
    if cs != [] {
      ApplyKeepsSpeedBase(g, cs[0]);
      assert forall i :: 0 <= i < |cs[1..]| ==> KeepsConfiguration(cs[1..][i]);
      RunKeepsSpeedBase(Apply(g, cs[0]), cs[1..]);
    }
  }

  /** Between configurations the speed grows by exactly speedMultiplier per
      point scored, whatever frames, taps, timers and settings come between. */
  lemma SpeedTracksScore(g: Game, cs: seq<Command>)
    requires forall i :: 0 <= i < |cs| ==> KeepsConfiguration(cs[i])
    ensures var r := Run(g, cs);
      r.speedMultiplier == g.speedMultiplier &&
      r.currentSpeed == g.currentSpeed + ((r.score - g.score) as real) * g.speedMultiplier
  {
    RunKeepsSpeedBase(g, cs);
    Rebase(Run(g, cs), g);
  }

  /** Two states with the same multiplier and speed base differ in speed by
      speedMultiplier per point of score between them. */
  lemma Rebase(r: Game, g: Game)
    requires r.speedMultiplier == g.speedMultiplier && SpeedBase(r) == SpeedBase(g)
    ensures r.currentSpeed == g.currentSpeed + ((r.score - g.score) as real) * g.speedMultiplier
  {
    var m := g.speedMultiplier;
    assert ((r.score - g.score) as real) * m == (r.score as real) * m - (g.score as real) * m;
  }

  /** n taps in a row. */
  function Taps(g: Game, n: nat): Game
  {
    if n == 0 then g else HandleTap(Taps(g, n - 1))
  }

  /** With taps enabled and the circle on target, n taps are n hits: the score
      rises by n, the speed by n * speedMultiplier, and nothing else changes. */
  lemma {:induction false} HitStreak(g: Game, n: nat)
    requires g.canTap && OnTarget(g)
    ensures Taps(g, n) == g.(score := g.score + n,
                              currentSpeed := g.currentSpeed + (n as real) * g.speedMultiplier)
  {
    if n > 0 {
      HitStreak(g, n - 1);
      var h := Taps(g, n - 1);
      assert h.canTap && OnTarget(h);
    }
  }

  // --------------------------------------------------- behaviours of the code

  /** A tap is never processed while taps are disabled, and a frame does
      nothing while the settings are open or no run is active. */
  lemma TapGating(g: Game, dt: Duration, tapped: bool)
    ensures !g.canTap ==> HandleTap(g) == g
    ensures g.isInSettings || !g.isGameActive ==> Frame(g, dt, tapped) == g
  {
  }

  /** Right after StartGame the run is armed but not yet tappable: a frame
      with a tap moves the circle and changes neither score nor phase. */
  lemma ArmedIgnoresTaps(g: Game, supplied: Option<Preset>, dt: Duration)
    ensures var s := StartGame(g, supplied);
      var r := Frame(s, dt, true);
      r.score == 0 && r.isGameActive && !r.canTap
  {
  }

  /** Opening the settings during a run freezes the circle; closing them
      resumes from the same position and direction, with taps enabled. */
  lemma SettingsFreezeTheRun(g: Game, dts: seq<Duration>)
    requires g.isGameActive
    ensures FramesWithTaps(OpenSettings(g), dts) == OpenSettings(g)
    ensures var r := CloseSettings(FramesWithTaps(OpenSettings(g), dts));
      r.circleX == g.circleX && r.direction == g.direction &&
      r.isGameActive && !r.isInSettings && r.canTap
  {
    FrozenFrames(OpenSettings(g), dts);
  }

  function FramesWithTaps(g: Game, dts: seq<Duration>): Game
    decreases |dts|
  {
    if dts == [] then g else FramesWithTaps(Frame(g, dts[0], true), dts[1..])
  }

  lemma {:induction false} FrozenFrames(g: Game, dts: seq<Duration>)
    requires g.isInSettings
    ensures FramesWithTaps(g, dts) == g
    decreases |dts|
  {
    if dts != [] {
      FrozenFrames(g, dts[1..]);
    }
  }

  /** CloseSettings enables taps even from the main menu, but no frame
      processes them there, because no run is active. */
  lemma CloseSettingsInMenu(g: Game, dt: Duration, tapped: bool)
    requires !g.isGameActive
    ensures CloseSettings(g).canTap
    ensures Frame(CloseSettings(g), dt, tapped) == CloseSettings(g)
  {
  }

  /** Commands that only let time pass: frames and the two timers. */
  predicate TimePasses(c: Command)
  {
    c.Tick? || c.ArmingTimer? || c.MenuTimer?
  }

  /** StartGame closes the settings but does not reset the time scale, so a
      run started while they are open stays paused: whatever frames and timer
      callbacks follow, the circle stays at its start, taps are never armed
      and the score stays 0. */
  lemma StartInSettingsStalls(g: Game, supplied: Option<Preset>, cs: seq<Command>)
    requires forall i :: 0 <= i < |cs| ==> TimePasses(cs[i])
    ensures var r := Run(StartGame(OpenSettings(g), supplied), cs);
      r.isGameActive && !r.isInSettings && !r.canTap && r.score == 0 &&
      r.circleX == g.circleStartX && r.timeScale == 0.0
  {
    PausedRun(StartGame(OpenSettings(g), supplied), cs);
  }

  lemma {:induction false} PausedRun(h: Game, cs: seq<Command>)
    requires h.timeScale == 0.0 && h.isGameActive && !h.isInSettings && !h.canTap
    requires forall i :: 0 <= i < |cs| ==> TimePasses(cs[i])
    ensures var r := Run(h, cs);
      r.timeScale == 0.0 && r.isGameActive && !r.isInSettings && !r.canTap &&
      r.score == h.score && r.circleX == h.circleX
    decreases |cs|
  {
    if cs != [] {
      var n := Apply(h, cs[0]);
      assert n.timeScale == 0.0 && n.isGameActive && !n.isInSettings && !n.canTap &&
             n.score == h.score && n.circleX == h.circleX;
      assert forall i :: 0 <= i < |cs[1..]| ==> TimePasses(cs[1..][i]);
      PausedRun(n, cs[1..]);
    }
  }

  /** SetDifficulty takes effect at once: during a run the speed, threshold
      and travel distance change immediately and the run goes on. */
  lemma DifficultyAppliesMidRun(g: Game, p: Preset)
    requires g.isGameActive
    ensures var r := SetDifficulty(g, Some(p));
      r.isGameActive && r.score == g.score &&
      r.currentSpeed == p.speed && r.perfectThreshold == p.hitZone
  {
  }

  /** Once ConfigureForDifficulty has resized a live centre line, the hit test
      uses half the line length, whatever the hit-zone size was. */
  lemma LiveWidthOverridesHitZone(g: Game, p: Preset)
    requires g.lineWidth.Some?
    ensures var r := Configure(g, p);
      Threshold(r.lineWidth, r.perfectThreshold) == p.lineLength / 2.0
  {
  }

  /** A menu timer left over from an earlier game over has no phase guard: when
      it fires during a new run it ends that run through neither GameOver nor
      the best-score update, so a new record is lost. */
  lemma StaleMenuTimerLosesRecord(g: Game, supplied: Option<Preset>, n: nat)
    requires Inv(g)
    requires var s := EnableTap(StartGame(g, supplied)); OnTarget(s) && n > g.bestScore
    ensures var s := EnableTap(StartGame(g, supplied));
      var r := ShowMainMenu(Taps(s, n));
      !r.isGameActive && r.score == n && r.score > r.bestScore &&
      r.bestScore == g.bestScore && r.savedBest == g.savedBest
  {
    var s := EnableTap(StartGame(g, supplied));
    HitStreak(s, n);
  }

  // --------------------------------------------------------------- scenarios

  /** Medium preset through a manager, circle resting on the centre line: the
      first tap after arming is a hit, but the speed stays 312 because with a
      manager speedMultiplier keeps its default 0. */
  lemma MediumFirstHit(x: real, best: int, muted: bool)
    ensures var g := Initial(x, x, None, best, muted);
      var r := HandleTap(EnableTap(StartGame(g, Some(Select(DefaultTable, Medium)))));
      r.score == 1 && r.currentSpeed == 312.0 && r.isGameActive
  {
  }

  /** Medium preset without a live centre-line width: a tap 201 from the centre
      misses, ends the run and records a best of 0 over a stored best of 0. */
  lemma MediumMiss(x: real, muted: bool)
    ensures var g := Initial(x, x, None, 0, muted);
      var s := EnableTap(StartGame(g, Some(Select(DefaultTable, Medium))));
      var r := HandleTap(s.(circleX := x + 201.0));
      !r.isGameActive && !r.canTap && r.bestScore == 0
  {
  }

  /** With a live centre line the Medium preset's effective half-width is 165:
      a tap 166 from the centre misses even though the hit-zone size is 200. */
  lemma MediumMissWithLiveLine(x: real, w: real, muted: bool)
    ensures var g := Initial(x, x, Some(w), 0, muted);
      var s := EnableTap(StartGame(g, Some(Select(DefaultTable, Medium))));
      var r := HandleTap(s.(circleX := x + 166.0));
      !r.isGameActive
  {
  }

  /** Without a manager the fallback applies speedMultiplier 0.5: a hit at the
      centre brings the speed from 312 to 312.5. */
  lemma FallbackHitSpeedsUp(x: real, best: int, muted: bool)
    ensures var g := Initial(x, x, None, best, muted);
      var r := HandleTap(EnableTap(StartGame(g, None)));
      r.score == 1 && r.currentSpeed == 312.5
  {
  }

  /** ToggleMute twice restores the flag and the stored preference. */
  lemma MuteTwiceRestores(g: Game)
    ensures ToggleMute(ToggleMute(g)).isMuted == g.isMuted
    ensures Inv(g) ==> ToggleMute(ToggleMute(g)) == g
  {
  }
}
