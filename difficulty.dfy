/**
 * The preset table of the difficulty manager: three named levels, each
 * configuring a ball speed, a hit-zone size and a centre-line length.
 */
module Difficulty {

  /** A difficulty level. The source declares it as an enum over int and casts
      an arbitrary int to it, so every int is a Level; only 0, 1 and 2 are named. */
  newtype Level = int

  const Easy: Level := 0
  const Medium: Level := 1
  const Hard: Level := 2

  /** The level a freshly created manager starts at. */
  const InitialLevel: Level := Medium

  predicate IsNamed(level: Level)
  {
    level == Easy || level == Medium || level == Hard
  }

  /** What a level configures: (ball speed, hit-zone size, centre-line length). */
  datatype Preset = Preset(speed: real, hitZone: real, lineLength: real)

  /** The nine tunable preset fields of the manager, grouped by level. */
  datatype PresetTable = PresetTable(easy: Preset, medium: Preset, hard: Preset)

  /** The field initialisers of the manager. */
  const DefaultTable := PresetTable(
    Preset(150.0, 400.0, 800.0),
    Preset(312.0, 200.0, 330.0),
    Preset(500.0, 100.0, 100.0))

  /** The switch of ApplySettings: one arm per named level, and a default arm
      that falls back to the Medium preset. */
  function Select(table: PresetTable, level: Level): (p: Preset)
    ensures p == table.easy || p == table.medium || p == table.hard
    ensures level == Easy ==> p == table.easy
    ensures level == Hard ==> p == table.hard
    ensures level != Easy && level != Hard ==> p == table.medium
  {
    if level == Easy then table.easy
    else if level == Medium then table.medium
    else if level == Hard then table.hard
    else table.medium
  }

  /** With the default field values the three levels configure the documented triples. */
  lemma DefaultPresets()
    ensures Select(DefaultTable, Easy) == Preset(150.0, 400.0, 800.0)
    ensures Select(DefaultTable, Medium) == Preset(312.0, 200.0, 330.0)
    ensures Select(DefaultTable, Hard) == Preset(500.0, 100.0, 100.0)
  {
  }

  /** Any level outside {Easy, Medium, Hard} configures exactly what Medium does. */
  lemma UnnamedLevelIsMedium(table: PresetTable, level: Level)
    requires !IsNamed(level)
    ensures Select(table, level) == Select(table, Medium)
  {
  }
}
