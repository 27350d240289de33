/**
 * The per-frame motion of the moving circle: it travels along x at the
 * current speed and reverses when it is at least the travel distance away
 * from its start position. There is no clamping.
 */
module Motion {

  function Abs(x: real): (r: real)
    ensures r >= 0.0 && (r == x || r == -x)
  {
    if x < 0.0 then -x else x
  }

  /** The only values the direction of travel takes. */
  predicate IsUnit(d: int)
  {
    d == 1 || d == -1
  }

  /** A frame's time step; the host never delivers a negative one. */
  type Duration = dt: real | dt >= 0.0

  /** The engine's time scale; the game writes only 0 (paused) and 1. A
      frame's scaled time step is the real step times this factor. */
  type TimeScale = s: real | s >= 0.0

  function Scaled(dt: Duration, scale: TimeScale): (r: Duration)
    ensures scale == 0.0 ==> r == 0.0
    ensures scale == 1.0 ==> r == dt
  {
    dt * scale
  }

  /** The circle's x coordinate and its direction of travel (+1 right, -1 left). */
  datatype Marker = Marker(x: real, direction: int)

  /** One motion step: move by direction * speed * dt, then reverse the
      direction when the new position is at least `range` from `start`. */
  function Advance(m: Marker, speed: real, start: real, range: real, dt: Duration): (r: Marker)
    ensures r.x - m.x == (m.direction as real) * speed * dt
    ensures IsUnit(m.direction) ==> IsUnit(r.direction)
    ensures IsUnit(m.direction) ==> (r.direction != m.direction <==> Abs(r.x - start) >= range)
  {
    var x := m.x + (m.direction as real) * speed * dt;
    Marker(x, if Abs(x - start) >= range then -m.direction else m.direction)
  }

  /** A step that starts inside the band and ends by reversing leaves the
      circle on the far side of the bound, now heading back towards the start. */
  lemma ReversalPointsHome(m: Marker, speed: real, start: real, range: real, dt: Duration)
    requires IsUnit(m.direction) && speed >= 0.0
    requires Abs(m.x - start) < range
    requires Advance(m, speed, start, range, dt).direction != m.direction
    ensures var r := Advance(m, speed, start, range, dt);
      Abs(r.x - start) >= range && (r.direction as real) * (start - r.x) > 0.0
  {
    var r := Advance(m, speed, start, range, dt);
    assert speed * dt >= 0.0;
    if m.direction == 1 {
      assert r.x >= m.x;
      assert r.x - start >= range;
    } else {
      assert r.x <= m.x;
      assert start - r.x >= range;
    }
  }

  /** A step of zero length leaves the circle where it is, but still reverses
      the direction when the circle is already outside the band. */
  lemma ZeroStep(m: Marker, speed: real, start: real, range: real)
    requires IsUnit(m.direction)
    ensures var r := Advance(m, speed, start, range, 0.0);
      r.x == m.x && (r.direction != m.direction <==> Abs(m.x - start) >= range)
  {
  }

  /** Because nothing clamps the position, a circle that is heading home from
      beyond the bound by more than one step's travel is still beyond it after
      the step, so it reverses again and heads outwards, away from the start. */
  lemma OvershootReversesAgain(m: Marker, speed: real, start: real, range: real, dt: Duration)
    requires IsUnit(m.direction) && speed >= 0.0 && range > 0.0
    requires (m.direction as real) * (start - m.x) > 0.0
    requires Abs(m.x - start) - speed * dt >= range
    ensures var r := Advance(m, speed, start, range, dt);
      r.direction == -m.direction && Abs(r.x - start) >= range &&
      (r.direction as real) * (r.x - start) > 0.0
  {
    var r := Advance(m, speed, start, range, dt);
    if m.direction == 1 {
      assert m.x < start;
      assert r.x - m.x == speed * dt;
      assert start - r.x >= range;
    } else {
      assert m.x > start;
      assert m.x - r.x == speed * dt;
      assert r.x - start >= range;
    }
  }
}
