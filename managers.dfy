/**
 * The two Unity components as classes whose methods update their fields in
 * place: the difficulty manager (current level and nine preset fields) and the
 * tap game manager (the run state). Each method of the game manager is proved
 * to move Model() exactly as the matching function of module Rules does.
 * The two classes share a module because each holds a reference to the other.
 */
module Managers {

  import opened Wrappers
  import opened Difficulty
  import opened Motion
  import Rules

  class DifficultyManager {
    var currentLevel: Level

    var easyLineLength: real
    var easyBallSpeed: real
    var easyHitZoneSize: real

    var mediumLineLength: real
    var mediumBallSpeed: real
    var mediumHitZoneSize: real

    var hardLineLength: real
    var hardBallSpeed: real
    var hardHitZoneSize: real

    /** The preset fields as a table. */
    function Table(): PresetTable
      reads this
    {
      PresetTable(
        Preset(easyBallSpeed, easyHitZoneSize, easyLineLength),
        Preset(mediumBallSpeed, mediumHitZoneSize, mediumLineLength),
        Preset(hardBallSpeed, hardHitZoneSize, hardLineLength))
    }

    /** The preset ApplySettings pushes for the current level. */
    function Selected(): Preset
      reads this
    {
      Select(Table(), currentLevel)
    }

    /** The field initialisers. */
    constructor ()
      ensures currentLevel == InitialLevel
      ensures Table() == DefaultTable
    {
      currentLevel := Medium;
      easyLineLength, easyBallSpeed, easyHitZoneSize := 800.0, 150.0, 400.0;
      mediumLineLength, mediumBallSpeed, mediumHitZoneSize := 330.0, 312.0, 200.0;
      hardLineLength, hardBallSpeed, hardHitZoneSize := 100.0, 500.0, 100.0;
    }

    method SetLevel(level: Level)
      modifies this`currentLevel
      ensures currentLevel == level
      ensures Table() == old(Table())
    {
      currentLevel := level;
    }

    /** Pushes the current level's preset into the game manager; a missing game
        manager makes it a no-op. The level and the presets are only read. */
    method ApplySettings(pm: PerfectTapManager?)
      requires pm != null ==> pm.Valid()
      modifies pm
      ensures unchanged(this)
      ensures pm != null ==> pm.Valid() && pm.difficultyManager == old(pm.difficultyManager)
      ensures pm != null ==> pm.Model() == Rules.Configure(old(pm.Model()), Selected())
    {
      if pm == null {
        return;
      }
      var p := Select(Table(), currentLevel);
      pm.ConfigureForDifficulty(p.speed, p.hitZone, p.lineLength);
    }
  }

  class PerfectTapManager {
    // tunable fallback settings
    var startSpeed: real
    var moveDistanceChallenge: real
    var perfectThresholdChallenge: real
    var speedMultiplierChallenge: real

    // runtime values
    var currentSpeed: real
    var moveDistance: real
    var perfectThreshold: real
    var speedMultiplier: real

    var score: int
    var bestScore: int
    var direction: int

    var isGameActive: bool
    var isInSettings: bool
    var isMuted: bool
    var canTap: bool

    // scene: x coordinates of the moving circle, of its start position and of
    // the centre line, and the centre line's width when its rectangle exists
    var circleX: real
    var circleStartX: real
    var centerX: real
    var lineWidth: Option<real>

    // the engine's Time.timeScale, which the manager writes
    var timeScale: TimeScale

    var difficultyManager: DifficultyManager?

    // what the preference store holds under "BestScore" and "Muted"
    ghost var savedBest: int
    ghost var savedMuted: bool

    /** The run state as a value. */
    ghost function Model(): Rules.Game
      reads this
    {
      Rules.Game(
        startSpeed, moveDistanceChallenge, perfectThresholdChallenge, speedMultiplierChallenge,
        currentSpeed, moveDistance, perfectThreshold, speedMultiplier,
        score, bestScore, direction,
        isGameActive, isInSettings, isMuted, canTap,
        circleX, circleStartX, centerX, lineWidth, timeScale,
        savedBest, savedMuted)
    }

    /** The preset the difficulty manager would push, None when there is none. */
    function Supplied(): Option<Preset>
      reads this, difficultyManager
    {
      if difficultyManager != null then Some(difficultyManager.Selected()) else None
    }

    ghost predicate Valid()
      reads this
    {
      Rules.Inv(Model())
    }

    /** The field initialisers followed by Start. The circle's position, the
        centre line, the stored preferences and the difficulty manager's
        singleton instance come from the scene and are parameters. */
    constructor (circlePosition: real, centerLinePosition: real, centerLineWidth: Option<real>,
                 storedBest: int, storedMuted: bool, instance: DifficultyManager?)
      ensures Valid()
      ensures Model() == Rules.Initial(circlePosition, centerLinePosition, centerLineWidth,
                                       storedBest, storedMuted)
      ensures difficultyManager == instance
    {
      startSpeed := 312.0;
      moveDistanceChallenge := 500.0;
      perfectThresholdChallenge := 200.0;
      speedMultiplierChallenge := 0.5;
      currentSpeed, moveDistance, perfectThreshold, speedMultiplier := 0.0, 0.0, 0.0, 0.0;
      score := 0;
      direction := 1;
      isGameActive, isInSettings, canTap := false, false, false;
      circleX := circlePosition;
      centerX := centerLinePosition;
      lineWidth := centerLineWidth;
      timeScale := 1.0;
      new;
      circleStartX := circleX;
      bestScore := storedBest;
      savedBest := storedBest;
      isMuted := storedMuted;
      savedMuted := storedMuted;
      difficultyManager := instance;
      assert Model() == Rules.Loaded(circlePosition, centerLinePosition, centerLineWidth,
                                     storedBest, storedMuted);
      ShowMainMenu();
    }

    // ------------------------------------------------------------ game flow

    method StartGame()
      requires Valid()
      modifies this
      ensures Valid()
      ensures difficultyManager == old(difficultyManager)
      ensures Model() == Rules.StartGame(old(Model()), old(Supplied()))
    {
      score := 0;
      if difficultyManager != null {
        difficultyManager.ApplySettings(this);
      } else {
        currentSpeed := startSpeed;
        moveDistance := moveDistanceChallenge;
        perfectThreshold := perfectThresholdChallenge;
        speedMultiplier := speedMultiplierChallenge;
      }
      BeginRun();
    }

    /** The last step of StartGame: the circle back at its start heading right,
        the run active, the settings closed and taps disabled until armed. */
    method BeginRun()
      requires Valid()
      modifies this
      ensures Valid() && difficultyManager == old(difficultyManager)
      ensures Model() == old(Model()).(direction := 1, isGameActive := true, isInSettings := false,
                                       canTap := false, circleX := old(circleStartX))
    {
      direction := 1;
      isGameActive := true;
      isInSettings := false;
      canTap := false;
      circleX := circleStartX;
    }

    /** The arming timer's callback. */
    method EnableTap()
      requires Valid()
      modifies this
      ensures Valid() && difficultyManager == old(difficultyManager)
      ensures Model() == Rules.EnableTap(old(Model()))
    {
      canTap := true;
    }

    method HandleTap()
      requires Valid()
      modifies this
      ensures Valid() && difficultyManager == old(difficultyManager)
      ensures Model() == Rules.HandleTap(old(Model()))
    {
      if !canTap {
        return;
      }
      var distance := Abs(circleX - centerX);
      var threshold := perfectThreshold;
      if lineWidth.Some? {
        threshold := lineWidth.value * 0.5;
      }
      if distance <= threshold {
        score := score + 1;
        currentSpeed := currentSpeed + speedMultiplier;
      } else {
        GameOver();
      }
    }

    method GameOver()
      requires Valid()
      modifies this
      ensures Valid() && difficultyManager == old(difficultyManager)
      ensures Model() == Rules.GameOver(old(Model()))
    {
      isGameActive := false;
      canTap := false;
      if score > bestScore {
        bestScore := score;
        savedBest := bestScore;
      }
    }

    /** The menu timer's callback (also the end of Start). */
    method ShowMainMenu()
      requires Valid()
      modifies this
      ensures Valid() && difficultyManager == old(difficultyManager)
      ensures Model() == Rules.ShowMainMenu(old(Model()))
    {
      timeScale := 1.0;
      isGameActive := false;
      isInSettings := false;
      canTap := false;
      circleX := circleStartX;
    }

    // ------------------------------------------------------------- settings

    method OpenSettings()
      requires Valid()
      modifies this
      ensures Valid() && difficultyManager == old(difficultyManager)
      ensures Model() == Rules.OpenSettings(old(Model()))
    {
      isInSettings := true;
      canTap := false;
      timeScale := 0.0;
    }

    method CloseSettings()
      requires Valid()
      modifies this
      ensures Valid() && difficultyManager == old(difficultyManager)
      ensures Model() == Rules.CloseSettings(old(Model()))
    {
      isInSettings := false;
      canTap := true;
      timeScale := 1.0;
    }

    method ToggleMute()
      requires Valid()
      modifies this
      ensures Valid() && difficultyManager == old(difficultyManager)
      ensures Model() == Rules.ToggleMute(old(Model()))
    {
      isMuted := !isMuted;
      savedMuted := isMuted;
    }

    /** Called by the difficulty buttons: fetches the manager's singleton
        instance when no manager is held yet, stores the level in the manager
        and applies its preset at once. */
    method SetDifficulty(level: int, instance: DifficultyManager?)
      requires Valid()
      modifies this, difficultyManager, instance
      ensures Valid()
      ensures difficultyManager == if old(difficultyManager) == null then instance
                                   else old(difficultyManager)
      ensures difficultyManager == null ==> Model() == old(Model())
      ensures old(difficultyManager) != null && instance != null &&
                instance != old(difficultyManager) ==>
              unchanged(instance)
      ensures difficultyManager != null ==>
        difficultyManager.currentLevel == level as Level &&
        difficultyManager.Table() ==
          old(if difficultyManager != null then difficultyManager.Table() else instance.Table()) &&
        Model() == Rules.SetDifficulty(old(Model()),
                                       Some(Select(difficultyManager.Table(), level as Level)))
    {
      if difficultyManager == null {
        difficultyManager := instance;
      }
      if difficultyManager != null {
        difficultyManager.SetLevel(level as Level);
        difficultyManager.ApplySettings(this);
      }
    }

    /** Used by the difficulty manager to push a preset. The centre line is
        resized to the line length when its rectangle is available. */
    method ConfigureForDifficulty(ballSpeed: real, hitZoneSize: real, centerLineLength: real)
      requires Valid()
      modifies this
      ensures Valid() && difficultyManager == old(difficultyManager)
      ensures Model() == Rules.Configure(old(Model()), Preset(ballSpeed, hitZoneSize, centerLineLength))
    {
      var resized := if lineWidth.Some? then Some(centerLineLength) else None;
      startSpeed := ballSpeed;
      currentSpeed := ballSpeed;
      perfectThresholdChallenge := hitZoneSize;
      moveDistanceChallenge := centerLineLength * 0.5;
      perfectThreshold := hitZoneSize;
      moveDistance := centerLineLength * 0.5;
      lineWidth := resized;
    }

    // --------------------------------------------------------------- frames

    /** One frame: nothing while no run is active or the settings are open;
        otherwise the circle moves by the scaled time step, reverses at the travel bound, and a tap
        made this frame is handled when taps are enabled. */
    method Update(dt: Duration, tapped: bool)
      requires Valid()
      modifies this
      ensures Valid() && difficultyManager == old(difficultyManager)
      ensures Model() == Rules.Frame(old(Model()), dt, tapped)
    {
      if !isGameActive || isInSettings {
        return;
      }
      var deltaTime := Scaled(dt, timeScale);
      circleX := circleX + (direction as real) * currentSpeed * deltaTime;
      if Abs(circleX - circleStartX) >= moveDistance {
        direction := direction * -1;
      }
      if canTap && tapped {
        HandleTap();
      }
    }
  }
}
