/** The force terms and the integration step of one simulation tick, over
    exact reals. `Math.exp` is not modelled: the air-density factor is passed
    in by the caller as the value of exp at `DensityExponent(altitude)`. */
module Physics {

  const EARTH_RADIUS: real := 6371000.0
  const AIR_DENSITY_FALLOFF_ALTITUDE: real := 8500.0
  const LIGHT_SPEED_RAMP_TIME_SCALE: real := 2.0
  const LIGHT_SPEED_RAMP_POWER: nat := 11
  /** The largest time step, in seconds, one tick integrates over. */
  const MAX_DT: real := 0.1
  const SPEED_OF_LIGHT: real := 299792458.0

  /** The live-tunable constants of the debug panel. */
  datatype Config = Config(gravitySurface: real, thrustAccelerationMax: real, dragFactor: real)

  const DefaultConfig: Config := Config(9.81, 45.0, 0.0005)

  function Max0(x: real): real { if x < 0.0 then 0.0 else x }

  function Abs(x: real): real { if x < 0.0 then -x else x }

  function Pow(x: real, n: nat): real
  {
    if n == 0 then 1.0 else x * Pow(x, n - 1)
  }

  lemma {:induction false} PowNonNegative(x: real, n: nat)
    requires x >= 0.0
    ensures Pow(x, n) >= 0.0
  {
    if n > 0 {
      PowNonNegative(x, n - 1);
    }
  }

  lemma {:induction false} PowMonotone(x: real, y: real, n: nat)
    requires 0.0 <= x <= y
    ensures Pow(x, n) <= Pow(y, n)
  {
    if n > 0 {
      PowMonotone(x, y, n - 1);
      PowNonNegative(x, n - 1);
      PowNonNegative(y, n - 1);
      calc {
        x * Pow(x, n - 1);
      <= { MulLe(x, Pow(x, n - 1), Pow(y, n - 1)); }
        x * Pow(y, n - 1);
      <= { MulLe(Pow(y, n - 1), x, y); }
        y * Pow(y, n - 1);
      }
    }
  }

  lemma MulLe(a: real, b: real, c: real)
    requires a >= 0.0 && b <= c
    ensures a * b <= a * c
  {
  }

  /** Gravity at `altitude`, falling off with the square of the distance from
      the planet's centre; negative altitudes count as the surface. */
  function Gravity(g0: real, altitude: real): (g: real)
    ensures altitude <= 0.0 ==> g == g0
    ensures g0 >= 0.0 ==> 0.0 <= g <= g0
  {
    var ratio := EARTH_RADIUS / (EARTH_RADIUS + Max0(altitude));
    assert 0.0 < ratio <= 1.0;
    assert ratio * ratio <= 1.0 by { MulLe(ratio, ratio, 1.0); }
    assert g0 >= 0.0 ==> g0 * (ratio * ratio) <= g0 by {
      if g0 >= 0.0 { MulLe(g0, ratio * ratio, 1.0); }
    }
    g0 * (ratio * ratio)
  }

  /** Gravity never grows with altitude. */
  lemma GravityDecreasesWithAltitude(g0: real, a1: real, a2: real)
    requires g0 >= 0.0 && 0.0 <= a1 <= a2
    ensures Gravity(g0, a2) <= Gravity(g0, a1)
  {
    var r1 := EARTH_RADIUS / (EARTH_RADIUS + a1);
    var r2 := EARTH_RADIUS / (EARTH_RADIUS + a2);
    assert 0.0 < r2 <= r1 by {
      assert r2 * (EARTH_RADIUS + a2) == EARTH_RADIUS;
      assert r1 * (EARTH_RADIUS + a1) == EARTH_RADIUS;
    }
    MulLe(r2, r2, r1);
    MulLe(r1, r2, r1);
    MulLe(g0, r2 * r2, r1 * r1);
  }

  /** The exponent of the exponential atmosphere at `altitude`. */
  function DensityExponent(altitude: real): (e: real)
    ensures e <= 0.0
    ensures altitude <= 0.0 ==> e == 0.0
  {
    -Max0(altitude) / AIR_DENSITY_FALLOFF_ALTITUDE
  }

  /** Quadratic drag for the air-density factor `density`. */
  function Drag(dragFactor: real, density: real, velocity: real): (d: real)
    ensures velocity == 0.0 ==> d == 0.0
    ensures dragFactor >= 0.0 && density >= 0.0 ==> d * velocity <= 0.0
  {
    if velocity != 0.0 then
      var k := dragFactor * density;
      assert k >= 0.0 ==> -k * velocity * Abs(velocity) * velocity <= 0.0 by {
        if k >= 0.0 {
          assert velocity * velocity >= 0.0;
          assert Abs(velocity) * (velocity * velocity) >= 0.0;
          MulLe(k, 0.0, Abs(velocity) * (velocity * velocity));
        }
      }
      -dragFactor * density * velocity * Abs(velocity)
    else 0.0
  }

  /** The light-speed-mode thrust multiplier, ramping up once more than one
      second has elapsed. */
  function ThrustMultiplier(lightSpeed: bool, timeElapsed: real): (m: real)
    ensures m >= 1.0
    ensures !(lightSpeed && timeElapsed > 1.0) ==> m == 1.0
    ensures lightSpeed && timeElapsed > 1.0 ==> m > 1.0
  {
    if lightSpeed && timeElapsed > 1.0 then
      var timeFactor := Max0(timeElapsed) / LIGHT_SPEED_RAMP_TIME_SCALE;
      PowPositive(timeFactor, LIGHT_SPEED_RAMP_POWER);
      1.0 + Pow(timeFactor, LIGHT_SPEED_RAMP_POWER)
    else 1.0
  }

  lemma {:induction false} PowPositive(x: real, n: nat)
    requires x > 0.0
    ensures Pow(x, n) > 0.0
  {
    if n > 0 {
      PowPositive(x, n - 1);
    }
  }

  /** Once the ramp has started, the multiplier never decreases with time. */
  lemma MultiplierNondecreasing(t1: real, t2: real)
    requires 1.0 < t1 <= t2
    ensures ThrustMultiplier(true, t1) <= ThrustMultiplier(true, t2)
  {
    PowMonotone(t1 / 2.0, t2 / 2.0, LIGHT_SPEED_RAMP_POWER);
  }

  /** Three seconds into light-speed mode the multiplier is 1 + 1.5^11. */
  lemma MultiplierAtThreeSeconds()
    ensures ThrustMultiplier(true, 3.0) == 1.0 + 177147.0 / 2048.0
  {
    assert Pow(1.5, 11) == 177147.0 / 2048.0;
  }

  /** The net vertical acceleration for the given control and state: thrust
      (scaled by the light-speed multiplier), less gravity, plus drag. With no
      thrust a rocket at rest feels only gravity. */
  function NetAcceleration(cfg: Config, thrustLevel: real, lightSpeed: bool, timeElapsed: real,
                           altitude: real, velocity: real, density: real): (r: real)
    ensures thrustLevel == 0.0 && velocity == 0.0 ==> r == -Gravity(cfg.gravitySurface, altitude)
  {
    var thrust := thrustLevel * cfg.thrustAccelerationMax * ThrustMultiplier(lightSpeed, timeElapsed);
    thrust - Gravity(cfg.gravitySurface, altitude) + Drag(cfg.dragFactor, density, velocity)
  }

  /** With the engine idle, a rocket moving upwards is slowed by gravity and
      drag and never pushed further up. */
  lemma CoastingUpwardDecelerates(cfg: Config, lightSpeed: bool, timeElapsed: real,
                                  altitude: real, velocity: real, density: real)
    requires cfg.gravitySurface >= 0.0 && cfg.dragFactor >= 0.0 && density >= 0.0
    requires velocity > 0.0
    ensures NetAcceleration(cfg, 0.0, lightSpeed, timeElapsed, altitude, velocity, density) <= 0.0
  {
  }

  /** Full thrust from rest at sea level accelerates upwards with the default
      constants: 45 exceeds 9.81. */
  lemma LaunchFromRestAccelerates(density: real)
    ensures NetAcceleration(DefaultConfig, 1.0, false, 0.0, 0.0, 0.0, density) == 45.0 - 9.81
    ensures NetAcceleration(DefaultConfig, 1.0, false, 0.0, 0.0, 0.0, density) > 0.0
  {
  }

  datatype Motion = Motion(position: real, velocity: real)

  /** Semi-implicit Euler: the velocity is updated first and the position
      moves with the new velocity. */
  function EulerStep(m: Motion, accel: real, dt: real): Motion
  {
    var v := m.velocity + accel * dt;
    Motion(m.position + v * dt, v)
  }

  /** The inelastic floor fires when the step ends at or below the ground
      while still moving down. */
  predicate GroundClampFires(m: Motion, accel: real, dt: real)
  {
    var e := EulerStep(m, accel, dt);
    e.position <= 0.0 && e.velocity < 0.0
  }

  /** One integration step followed by the ground clamp. */
  function Integrate(m: Motion, accel: real, dt: real): (r: Motion)
    requires dt >= 0.0
    ensures m.position >= 0.0 ==> r.position >= 0.0
    ensures r.velocity < 0.0 ==> r.position > 0.0
    ensures GroundClampFires(m, accel, dt) ==> r == Motion(0.0, 0.0)
    ensures !GroundClampFires(m, accel, dt) ==> r == EulerStep(m, accel, dt)
  {
    var e := EulerStep(m, accel, dt);
    assert m.position >= 0.0 && e.velocity >= 0.0 ==> e.position >= 0.0 by {
      if e.velocity >= 0.0 { MulLe(dt, 0.0, e.velocity); }
    }
    if e.position <= 0.0 && e.velocity < 0.0 then Motion(0.0, 0.0) else e
  }

  /** A rocket at rest on the ground with no thrust stays at rest there: the
      downward step is absorbed by the floor. */
  lemma RestingOnGroundStaysPut(cfg: Config, lightSpeed: bool, timeElapsed: real, density: real, dt: real)
    requires cfg.gravitySurface > 0.0 && dt > 0.0
    ensures Integrate(Motion(0.0, 0.0), NetAcceleration(cfg, 0.0, lightSpeed, timeElapsed, 0.0, 0.0, density), dt)
            == Motion(0.0, 0.0)
  {
    var a := NetAcceleration(cfg, 0.0, lightSpeed, timeElapsed, 0.0, 0.0, density);
    assert a == -cfg.gravitySurface;
    var e := EulerStep(Motion(0.0, 0.0), a, dt);
    assert e.velocity < 0.0 by { MulLe(dt, 0.0, cfg.gravitySurface); assert dt * cfg.gravitySurface > 0.0; }
    assert e.position <= 0.0 by { MulLe(dt, e.velocity, 0.0); }
  }

  /** The time step of a frame: the elapsed milliseconds in seconds, capped
      at `MAX_DT`. */
  function FrameDelta(lastTimestamp: real, timestamp: real): (dt: real)
    ensures dt <= MAX_DT && dt <= (timestamp - lastTimestamp) / 1000.0
    ensures dt == MAX_DT || dt == (timestamp - lastTimestamp) / 1000.0
  {
    var delta := (timestamp - lastTimestamp) / 1000.0;
    if delta < MAX_DT then delta else MAX_DT
  }
}
