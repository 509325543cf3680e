/** The simulator's mutable `state` object and the operations that update it:
    the countdown, thrust control, one frame of the game loop, the layer
    transition of the visual update and the win. Each method of `Simulator`
    is tied to a specification function from the old state value to the new
    one; the ensures of those functions and the lemmas after them state what
    the operations keep and what they change. */
module Simulation {
  import opened Layers
  import opened Physics
  import opened Transition

  const COUNTDOWN_SECONDS: nat := 10
  const KEYBOARD_THRUST_INCREMENT: real := 0.02
  /** A requested thrust level closer than this to the current one is ignored. */
  const THRUST_CHANGE_THRESHOLD: real := 0.001
  /** Above this thrust level the rocket counts as thrusting. */
  const THRUSTING_THRESHOLD: real := 0.01

  datatype CountdownState = Idle | Counting | Launched

  /** The sounds the core asks for; playback itself is not modelled. */
  datatype Sound = CountdownBeep | Liftoff | WinChime

  /** The keyboard input a frame reads: whether the keyboard controls are on
      ('pc' mode) and whether an up key ('w', arrow up) or a down key ('s',
      arrow down) is held. */
  datatype Controls = Controls(pcMode: bool, upHeld: bool, downHeld: bool)

  /** Every field of the simulator that the core reads or writes, as a value. */
  datatype SimState = SimState(
    positionY: real, velocityY: real, timeElapsed: real,
    thrustLevel: real, isThrusting: bool, hasLiftedOff: bool, sliderDisabled: bool,
    countdownState: CountdownState, count: int, gameRunning: bool, won: bool,
    lastTimestamp: real, currentLayerIndex: int, isTransitioningSky: bool,
    lightSpeedModeActive: bool, config: Config, currentLayer: Layer,
    sounds: seq<Sound>)

  const Initial: SimState := SimState(
    0.0, 0.0, 0.0,
    0.0, false, false, true,
    Idle, COUNTDOWN_SECONDS, false, false,
    0.0, 0, false,
    false, DefaultConfig, Table[0],
    [])

  /** How many times `x` occurs in `s`. */
  function Occurrences(s: seq<Sound>, x: Sound): nat
  {
    if |s| == 0 then 0 else Occurrences(s[..|s| - 1], x) + (if s[|s| - 1] == x then 1 else 0)
  }

  /** What holds of the state between operations, except the link between
      `isThrusting` and the thrust level that `updateThrustFromSlider`
      re-establishes. */
  predicate InvExceptThrusting(st: SimState)
  {
    && 0 <= st.currentLayerIndex < LAYER_COUNT
    && st.positionY >= 0.0 && st.timeElapsed >= 0.0
    && 0.0 <= st.thrustLevel <= 1.0
    && 0 <= st.count <= COUNTDOWN_SECONDS
    && (st.countdownState == Idle ==> st.count == COUNTDOWN_SECONDS)
    && (st.countdownState == Launched ==> st.count == 0)
    && (st.countdownState != Launched ==> !st.gameRunning && !st.hasLiftedOff && !st.won)
    && (st.won ==> !st.gameRunning)
    && Occurrences(st.sounds, CountdownBeep) == COUNTDOWN_SECONDS - st.count
    && Occurrences(st.sounds, Liftoff) == (if st.hasLiftedOff then 1 else 0)
    && Occurrences(st.sounds, WinChime) == (if st.won then 1 else 0)
  }

  /** The state invariant: the rocket is on or above the ground, the layer
      index and the thrust level stay in range, the rocket is thrusting
      exactly above 1% thrust, the run only goes while launched and not won,
      one beep has sounded per second counted down, and the liftoff and win
      sounds have sounded once each exactly when their flags are set. */
  predicate Inv(st: SimState)
  {
    InvExceptThrusting(st) && st.isThrusting == (st.thrustLevel > THRUSTING_THRESHOLD)
  }

  lemma InitialInv()
    ensures Inv(Initial)
  {
    assert Occurrences([], CountdownBeep) == 0;
  }

  /** The order of the countdown states. */
  function Stage(c: CountdownState): nat
  {
    match c
    case Idle => 0
    case Counting => 1
    case Launched => 2
  }

  /** What every operation keeps: it never returns to an earlier countdown
      state, never unsets the liftoff or win flags, only appends sounds, and
      never changes the layer the win check reads. */
  predicate Progress(st: SimState, st': SimState)
  {
    && Stage(st.countdownState) <= Stage(st'.countdownState)
    && (st.hasLiftedOff ==> st'.hasLiftedOff)
    && (st.won ==> st'.won)
    && st.sounds <= st'.sounds
    && st'.currentLayer == st.currentLayer
  }

  // ---------------------------------------------------------------- countdown

  /** `startCountdown`: only from idle, which moves to counting down from
      `COUNTDOWN_SECONDS`. */
  function AfterStartCountdown(st: SimState): (r: SimState)
    ensures Inv(st) ==> Inv(r) && Progress(st, r)
    ensures st.countdownState != Idle ==> r == st
    ensures st.countdownState == Idle ==> r.countdownState == Counting && r.count == COUNTDOWN_SECONDS
    ensures r.(countdownState := st.countdownState, count := st.count) == st
  {
    if st.countdownState != Idle then st
    else st.(countdownState := Counting, count := COUNTDOWN_SECONDS)
  }

  /** `countdownTick`: while seconds remain, one beep and one second less;
      at zero, launch: the run starts, the slider is enabled and the frame
      clock starts from `now`. */
  function AfterCountdownTick(st: SimState, now: real): (r: SimState)
    requires st.countdownState == Counting
    ensures Inv(st) ==> Inv(r) && Progress(st, r)
    ensures st.count > 0 ==>
              && r.countdownState == Counting && r.count == st.count - 1
              && r.sounds == st.sounds + [CountdownBeep] && r.gameRunning == st.gameRunning
    ensures st.count <= 0 ==>
              && r.countdownState == Launched && r.gameRunning && !r.sliderDisabled
              && r.lastTimestamp == now && r.sounds == st.sounds
    ensures st.count > 0 ==> r.(count := st.count, sounds := st.sounds) == st
    ensures st.count <= 0 ==>
              r.(countdownState := st.countdownState, sliderDisabled := st.sliderDisabled,
                 gameRunning := st.gameRunning, lastTimestamp := st.lastTimestamp) == st
  {
    if st.count > 0 then
      st.(count := st.count - 1, sounds := st.sounds + [CountdownBeep])
    else
      st.(countdownState := Launched, sliderDisabled := false, gameRunning := true, lastTimestamp := now)
  }

  /** The state after the countdown timer has fired `n` more times, or fewer
      if the rocket launches first. */
  function CountdownTicks(st: SimState, now: real, n: nat): SimState
    requires st.countdownState != Idle
    decreases n
  {
    if n == 0 || st.countdownState == Launched then st
    else CountdownTicks(AfterCountdownTick(st, now), now, n - 1)
  }

  /** From a counting state, the next `k` firings (up to the seconds left)
      each beep and count one second down; when none are left the next
      firing launches the rocket. From the start that is exactly ten beeps
      and then the launch. */
  lemma {:induction false} CountdownBeepsThenLaunches(st: SimState, now: real, k: nat)
    requires st.countdownState == Counting && 0 <= k <= st.count
    ensures CountdownTicks(st, now, k).countdownState == Counting
    ensures CountdownTicks(st, now, k).count == st.count - k
    ensures CountdownTicks(st, now, k).sounds == st.sounds + seq(k, _ => CountdownBeep)
    ensures k == st.count ==> CountdownTicks(st, now, k + 1).countdownState == Launched
    ensures k == st.count ==> CountdownTicks(st, now, k + 1).gameRunning
    decreases k
  {
    if k > 0 {
      var next := AfterCountdownTick(st, now);
      CountdownBeepsThenLaunches(next, now, k - 1);
      assert st.sounds + [CountdownBeep] + seq(k - 1, _ => CountdownBeep) == st.sounds + seq(k, _ => CountdownBeep);
    }
  }

  // ---------------------------------------------------------------- thrust

  function Clamp01(x: real): (r: real)
    ensures 0.0 <= r <= 1.0
    ensures 0.0 <= x <= 1.0 ==> r == x
    ensures x < 0.0 ==> r == 0.0
    ensures x > 1.0 ==> r == 1.0
  {
    if x < 0.0 then 0.0 else if x > 1.0 then 1.0 else x
  }

  /** Whether `updateThrustFromSlider` plays the one-shot liftoff sound. */
  predicate LiftoffFires(st: SimState)
  {
    st.countdownState == Launched && !st.hasLiftedOff && st.thrustLevel > THRUSTING_THRESHOLD
  }

  /** `updateThrustFromSlider`: derive `isThrusting` from the thrust level and
      lift off once, the first time the launched rocket thrusts. */
  function AfterUpdateThrust(st: SimState): (r: SimState)
    ensures InvExceptThrusting(st) ==> Inv(r)
    ensures Progress(st, r)
    ensures r.isThrusting <==> st.thrustLevel > THRUSTING_THRESHOLD
    ensures r.hasLiftedOff <==> st.hasLiftedOff || LiftoffFires(st)
    ensures r.sounds == st.sounds + (if LiftoffFires(st) then [Liftoff] else [])
    ensures r.(isThrusting := st.isThrusting, hasLiftedOff := st.hasLiftedOff, sounds := st.sounds) == st
  {
    var fires := LiftoffFires(st);
    st.(isThrusting := st.thrustLevel > THRUSTING_THRESHOLD,
        hasLiftedOff := st.hasLiftedOff || fires,
        sounds := if fires then st.sounds + [Liftoff] else st.sounds)
  }

  /** `setThrustLevel`: clamp the request to [0, 1] and take it only when it
      differs from the current level by more than 0.001. */
  function AfterSetThrust(st: SimState, level: real): (r: SimState)
    ensures Inv(st) ==> Inv(r) && Progress(st, r)
    ensures r.thrustLevel == st.thrustLevel || r.thrustLevel == Clamp01(level)
    ensures r == st <==> Abs(Clamp01(level) - st.thrustLevel) <= THRUST_CHANGE_THRESHOLD
    ensures r != st ==> r == AfterUpdateThrust(st.(thrustLevel := Clamp01(level)))
  {
    var newLevel := Clamp01(level);
    if Abs(newLevel - st.thrustLevel) > THRUST_CHANGE_THRESHOLD then
      var r := AfterUpdateThrust(st.(thrustLevel := newLevel));
      assert r.thrustLevel != st.thrustLevel;
      r
    else st
  }

  /** The net thrust change the held keys ask for in one frame. */
  function KeyboardThrustChange(upHeld: bool, downHeld: bool): (c: real)
    ensures c == 0.0 <==> upHeld == downHeld
    ensures upHeld && !downHeld ==> c == KEYBOARD_THRUST_INCREMENT
    ensures downHeld && !upHeld ==> c == -KEYBOARD_THRUST_INCREMENT
  {
    (if upHeld then KEYBOARD_THRUST_INCREMENT else 0.0) - (if downHeld then KEYBOARD_THRUST_INCREMENT else 0.0)
  }

  /** The keyboard thrust step of a frame: only in 'pc' mode with the slider
      enabled, and only when the keys do not cancel out. */
  function AfterKeyboard(st: SimState, c: Controls): (r: SimState)
    ensures Inv(st) ==> Inv(r) && Progress(st, r)
    ensures !c.pcMode || st.sliderDisabled || c.upHeld == c.downHeld ==> r == st
    ensures r.(thrustLevel := st.thrustLevel, isThrusting := st.isThrusting,
               hasLiftedOff := st.hasLiftedOff, sounds := st.sounds) == st
    ensures c.pcMode && !st.sliderDisabled && c.upHeld && !c.downHeld ==>
              r.thrustLevel == st.thrustLevel || r.thrustLevel == Clamp01(st.thrustLevel + KEYBOARD_THRUST_INCREMENT)
    ensures c.pcMode && !st.sliderDisabled && c.downHeld && !c.upHeld ==>
              r.thrustLevel == st.thrustLevel || r.thrustLevel == Clamp01(st.thrustLevel - KEYBOARD_THRUST_INCREMENT)
  {
    var change := KeyboardThrustChange(c.upHeld, c.downHeld);
    if c.pcMode && !st.sliderDisabled && change != 0.0 then AfterSetThrust(st, st.thrustLevel + change)
    else st
  }

  /** One frame of keys moves the thrust by at most the keyboard increment
      and keeps it within [0, 1]; the up key alone never lowers it and the
      down key alone never raises it. */
  lemma KeyboardStep(st: SimState, c: Controls)
    requires Inv(st)
    ensures Abs(AfterKeyboard(st, c).thrustLevel - st.thrustLevel) <= KEYBOARD_THRUST_INCREMENT
    ensures 0.0 <= AfterKeyboard(st, c).thrustLevel <= 1.0
    ensures c.upHeld && !c.downHeld ==> AfterKeyboard(st, c).thrustLevel >= st.thrustLevel
    ensures c.downHeld && !c.upHeld ==> AfterKeyboard(st, c).thrustLevel <= st.thrustLevel
  {
    var change := KeyboardThrustChange(c.upHeld, c.downHeld);
    if c.pcMode && !st.sliderDisabled && change != 0.0 {
      var r := AfterSetThrust(st, st.thrustLevel + change);
      assert r.thrustLevel == st.thrustLevel || r.thrustLevel == Clamp01(st.thrustLevel + change);
    }
  }

  // ---------------------------------------------------------------- layers

  /** The safety check of `getCurrentLayer`: an index outside the table is
      reset to 0. */
  function SafeLayerIndex(i: int): (r: nat)
    ensures r < LAYER_COUNT
    ensures 0 <= i < LAYER_COUNT ==> r == i
    ensures !(0 <= i < LAYER_COUNT) ==> r == 0
  {
    if 0 <= i < LAYER_COUNT then i else 0
  }

  /** The branch of `updateVisuals` once the layer index `newIndex` is
      resolved: the stored index becomes `newIndex` in both branches, an
      instant switch clears the fade flag and a smooth one sets it, and no
      crossing leaves both as they were. */
  function AfterLayerChange(st: SimState, newIndex: int): (r: SimState)
    ensures Inv(st) && 0 <= newIndex < LAYER_COUNT ==> Inv(r) && Progress(st, r)
    ensures r.currentLayerIndex == newIndex
    ensures newIndex == st.currentLayerIndex ==> r.isTransitioningSky == st.isTransitioningSky
    ensures newIndex != st.currentLayerIndex ==>
              (r.isTransitioningSky <==> !st.isTransitioningSky && Abs(st.velocityY) <= HIGH_VELOCITY_THRESHOLD)
    ensures r.(currentLayerIndex := st.currentLayerIndex, isTransitioningSky := st.isTransitioningSky) == st
  {
    var d := Decide(newIndex, st.currentLayerIndex, st.velocityY, st.isTransitioningSky);
    st.(currentLayerIndex := newIndex, isTransitioningSky := FadingAfter(d, st.isTransitioningSky))
  }

  /** The sky-transition part of `updateVisuals`: the stored index (reset to
      0 if out of range) is replaced by the index of the one layer whose band
      holds the altitude, which is never "Surface" on or above the ground,
      and the fade flag follows `AfterLayerChange`. */
  function AfterLayerUpdate(st: SimState): (r: SimState)
    ensures Inv(st) ==> Inv(r) && Progress(st, r)
    ensures r.currentLayerIndex == Resolve(Table, SafeLayerIndex(st.currentLayerIndex), st.positionY)
    ensures InBand(Table[r.currentLayerIndex], st.positionY)
    ensures st.positionY >= 0.0 ==> r.currentLayerIndex >= 1
    ensures 0 <= st.currentLayerIndex < LAYER_COUNT ==> r == AfterLayerChange(st, r.currentLayerIndex)
  {
    var oldIndex := SafeLayerIndex(st.currentLayerIndex);
    var newIndex := Resolve(Table, oldIndex, st.positionY);
    TableResolveInBand(oldIndex, st.positionY);
    AfterLayerChange(st.(currentLayerIndex := oldIndex), newIndex)
  }

  /** The completion handler of a smooth fade: it clears the flag if it is
      still set, and nothing else. */
  function AfterTransitionEnd(st: SimState): (r: SimState)
    ensures Inv(st) ==> Inv(r) && Progress(st, r)
    ensures !r.isTransitioningSky
    ensures r.(isTransitioningSky := st.isTransitioningSky) == st
  {
    if st.isTransitioningSky then st.(isTransitioningSky := false) else st
  }

  // ---------------------------------------------------------------- win

  /** `reachWinCondition`: the run is won and stops, the slider is disabled
      and the win sound plays. The thrust level itself is left as it is (only
      the slider's displayed value is zeroed), so `isThrusting` is re-derived
      from it. */
  function AfterWin(st: SimState): (r: SimState)
    ensures Inv(st) && st.gameRunning ==> Inv(r) && Progress(st, r)
    ensures r.won && !r.gameRunning && r.sliderDisabled
    ensures r.thrustLevel == st.thrustLevel
    ensures r.isThrusting <==> st.thrustLevel > THRUSTING_THRESHOLD
    ensures r.hasLiftedOff <==> st.hasLiftedOff || LiftoffFires(st)
    ensures r.sounds == st.sounds + (if LiftoffFires(st) then [Liftoff] else []) + [WinChime]
    ensures r.(won := st.won, gameRunning := st.gameRunning, sliderDisabled := st.sliderDisabled,
               isThrusting := st.isThrusting, hasLiftedOff := st.hasLiftedOff, sounds := st.sounds) == st
  {
    var st1 := st.(won := true, isThrusting := false, sliderDisabled := true);
    assert LiftoffFires(st1) == LiftoffFires(st);
    var t := AfterUpdateThrust(st1);
    var r := t.(sounds := t.sounds + [WinChime], gameRunning := false);
    assert Inv(st) && st.gameRunning ==> Inv(r) by {
      if Inv(st) && st.gameRunning {
        assert Occurrences(r.sounds, WinChime) == 1;
      }
    }
    r
  }

  /** The win check of the game loop, which reads `currentLayer`. */
  predicate WinCheckFires(st: SimState)
  {
    st.currentLayer.final && st.positionY >= OBSERVABLE_UNIVERSE_RADIUS && !st.won
  }

  // ---------------------------------------------------------------- frame

  /** The physics of one frame of length `dt`, with the air-density factor
      `density` at the current altitude. */
  function AfterPhysics(st: SimState, dt: real, density: real): (r: SimState)
    requires dt > 0.0
    ensures Inv(st) ==> Inv(r) && Progress(st, r)
    ensures st.positionY >= 0.0 ==> r.positionY >= 0.0
    ensures r.timeElapsed == st.timeElapsed + dt
    ensures r.velocityY < 0.0 ==> r.positionY > 0.0
    ensures r.(positionY := st.positionY, velocityY := st.velocityY, timeElapsed := st.timeElapsed) == st
  {
    var a := NetAcceleration(st.config, st.thrustLevel, st.lightSpeedModeActive, st.timeElapsed,
                             st.positionY, st.velocityY, density);
    var m := Integrate(Motion(st.positionY, st.velocityY), a, dt);
    st.(positionY := m.position, velocityY := m.velocity, timeElapsed := st.timeElapsed + dt)
  }

  /** The work of a frame once its time step `dt` is known to be positive:
      keyboard thrust, physics, the layer transition and the win check. */
  function AfterFrame(st: SimState, dt: real, c: Controls, exp: real -> real): (r: SimState)
    requires dt > 0.0
    ensures Inv(st) && st.gameRunning ==> Inv(r) && Progress(st, r)
    ensures r.timeElapsed == st.timeElapsed + dt
    ensures r.lastTimestamp == st.lastTimestamp && r.currentLayer == st.currentLayer
    ensures 0 <= r.currentLayerIndex < |Table| && InBand(Table[r.currentLayerIndex], r.positionY)
    ensures r.won <==> st.won || (st.currentLayer.final && r.positionY >= OBSERVABLE_UNIVERSE_RADIUS)
  {
    var st1 := AfterKeyboard(st, c);
    var st2 := AfterPhysics(st1, dt, exp(DensityExponent(st1.positionY)));
    var st3 := AfterLayerUpdate(st2);
    if WinCheckFires(st3) then AfterWin(st3) else st3
  }

  /** One call of `gameLoop` at `timestamp`, with the held keys `c` and the
      exponential function `exp` the air density is computed with. */
  function AfterTick(st: SimState, timestamp: real, c: Controls, exp: real -> real): (r: SimState)
    ensures Inv(st) ==> Inv(r) && Progress(st, r)
  {
    if !st.gameRunning || st.won then st
    else if st.lastTimestamp == 0.0 then st.(lastTimestamp := timestamp)
    else
      var dt := FrameDelta(st.lastTimestamp, timestamp);
      var st1 := st.(lastTimestamp := timestamp);
      assert Inv(st) ==> Inv(st1) && st1.gameRunning;
      if dt <= 0.0 then st1 else AfterFrame(st1, dt, c, exp)
  }

  /** A tick changes nothing when the run is not going or is won, and only
      records the timestamp on the first frame or when no time has passed.
      Otherwise the elapsed time grows by exactly the capped step, which lies
      in (0, 0.1]. */
  lemma TickTime(st: SimState, timestamp: real, c: Controls, exp: real -> real)
    ensures !st.gameRunning || st.won ==> AfterTick(st, timestamp, c, exp) == st
    ensures st.gameRunning && !st.won && st.lastTimestamp == 0.0 ==>
              AfterTick(st, timestamp, c, exp) == st.(lastTimestamp := timestamp)
    ensures st.gameRunning && !st.won && st.lastTimestamp != 0.0 && FrameDelta(st.lastTimestamp, timestamp) <= 0.0 ==>
              AfterTick(st, timestamp, c, exp) == st.(lastTimestamp := timestamp)
    ensures st.gameRunning && !st.won && st.lastTimestamp != 0.0 && FrameDelta(st.lastTimestamp, timestamp) > 0.0 ==>
              && AfterTick(st, timestamp, c, exp).timeElapsed - st.timeElapsed == FrameDelta(st.lastTimestamp, timestamp)
              && 0.0 < AfterTick(st, timestamp, c, exp).timeElapsed - st.timeElapsed <= MAX_DT
              && AfterTick(st, timestamp, c, exp).lastTimestamp == timestamp
  {
    if st.gameRunning && !st.won && st.lastTimestamp != 0.0 && FrameDelta(st.lastTimestamp, timestamp) > 0.0 {
      var st1 := st.(lastTimestamp := timestamp);
      var dt := FrameDelta(st.lastTimestamp, timestamp);
      assert AfterTick(st, timestamp, c, exp) == AfterFrame(st1, dt, c, exp);
    }
  }

  /** The win check reads `currentLayer`, which is the first layer for the
      whole run and is not final, so no tick ever wins. */
  lemma TickNeverWins(st: SimState, timestamp: real, c: Controls, exp: real -> real)
    requires Inv(st) && st.currentLayer == Table[0]
    ensures AfterTick(st, timestamp, c, exp).won == st.won
    ensures AfterTick(st, timestamp, c, exp).currentLayer == Table[0]
  {
    assert !Table[0].final;
  }

  // ---------------------------------------------------------------- the state object

  class Simulator {
    var positionY: real
    var velocityY: real
    var timeElapsed: real
    var thrustLevel: real
    var isThrusting: bool
    var hasLiftedOff: bool
    /** Whether the thrust slider, and with it the keyboard thrust, is off. */
    var sliderDisabled: bool
    var countdownState: CountdownState
    /** The seconds left on the countdown. */
    var count: int
    var gameRunning: bool
    var won: bool
    var lastTimestamp: real
    var currentLayerIndex: int
    var isTransitioningSky: bool
    var lightSpeedModeActive: bool
    /** Gravity, maximum thrust and drag, which the debug panel may change
        between frames. */
    var config: Config
    /** The layer the win check reads; it is never reassigned. */
    var currentLayer: Layer
    /** The sounds requested so far, in order. */
    var sounds: seq<Sound>

    function State(): SimState
      reads this
    {
      SimState(positionY, velocityY, timeElapsed,
               thrustLevel, isThrusting, hasLiftedOff, sliderDisabled,
               countdownState, count, gameRunning, won,
               lastTimestamp, currentLayerIndex, isTransitioningSky,
               lightSpeedModeActive, config, currentLayer, sounds)
    }

    predicate Valid()
      reads this
    {
      Inv(State())
    }

    constructor ()
      ensures Valid() && State() == Initial
    {
      positionY, velocityY, timeElapsed := 0.0, 0.0, 0.0;
      thrustLevel, isThrusting, hasLiftedOff, sliderDisabled := 0.0, false, false, true;
      countdownState, count, gameRunning, won := Idle, COUNTDOWN_SECONDS, false, false;
      lastTimestamp, currentLayerIndex, isTransitioningSky := 0.0, 0, false;
      lightSpeedModeActive, config, currentLayer, sounds := false, DefaultConfig, Table[0], [];
      new;
      InitialInv();
    }

    method StartCountdown()
      requires Valid()
      modifies this
      ensures Valid()
      ensures State() == AfterStartCountdown(old(State()))
    {
      if countdownState != Idle {
        return;
      }
      countdownState := Counting;
      count := COUNTDOWN_SECONDS;
    }

    /** One firing of the countdown timer. */
    method CountdownTick(now: real)
      requires Valid() && countdownState == Counting
      modifies this
      ensures Valid()
      ensures State() == AfterCountdownTick(old(State()), now)
    {
      if count > 0 {
        sounds := sounds + [CountdownBeep];
        count := count - 1;
      } else {
        countdownState := Launched;
        sliderDisabled := false;
        gameRunning := true;
        lastTimestamp := now;
      }
      assert State() == AfterCountdownTick(old(State()), now);
    }

    method UpdateThrustFromSlider()
      modifies this
      ensures State() == AfterUpdateThrust(old(State()))
    {
      var isNowThrusting := thrustLevel > THRUSTING_THRESHOLD;
      if countdownState == Launched && !hasLiftedOff && isNowThrusting {
        sounds := sounds + [Liftoff];
        hasLiftedOff := true;
      }
      isThrusting := isNowThrusting;
    }

    method SetThrustLevel(level: real)
      requires Valid()
      modifies this
      ensures Valid()
      ensures State() == AfterSetThrust(old(State()), level)
    {
      var newLevel := Clamp01(level);
      if Abs(newLevel - thrustLevel) > THRUST_CHANGE_THRESHOLD {
        thrustLevel := newLevel;
        UpdateThrustFromSlider();
      }
    }

    /** The keyboard part of the game loop. */
    method ApplyKeyboardThrust(c: Controls)
      requires Valid()
      modifies this
      ensures Valid()
      ensures State() == AfterKeyboard(old(State()), c)
    {
      if c.pcMode && !sliderDisabled {
        var change := KeyboardThrustChange(c.upHeld, c.downHeld);
        if change != 0.0 {
          SetThrustLevel(thrustLevel + change);
        }
      }
    }

    /** The physics part of the game loop: forces, the semi-implicit Euler
        update, the ground clamp and the elapsed time. */
    method Advance(dt: real, density: real)
      requires Valid() && dt > 0.0
      modifies this
      ensures Valid()
      ensures State() == AfterPhysics(old(State()), dt, density)
    {
      var accel := NetAcceleration(config, thrustLevel, lightSpeedModeActive, timeElapsed, positionY, velocityY, density);
      ghost var m := Integrate(Motion(positionY, velocityY), accel, dt);
      var v := velocityY + accel * dt;
      var p := positionY + v * dt;
      assert Motion(p, v) == EulerStep(Motion(positionY, velocityY), accel, dt);
      if p <= 0.0 && v < 0.0 {
        p, v := 0.0, 0.0;
      }
      assert Motion(p, v) == m;
      positionY, velocityY, timeElapsed := p, v, timeElapsed + dt;
      assert State() == AfterPhysics(old(State()), dt, density);
    }

    /** `getCurrentLayer` with its reset of an out-of-range stored index. */
    method CurrentLayerFor(altitude: real) returns (r: nat)
      modifies this
      ensures State() == old(State()).(currentLayerIndex := SafeLayerIndex(old(currentLayerIndex)))
      ensures r == Resolve(Table, currentLayerIndex, altitude)
    {
      if !(0 <= currentLayerIndex < LAYER_COUNT) {
        currentLayerIndex := 0;
      }
      r := GetCurrentLayer(Table, currentLayerIndex, altitude);
    }

    /** The branch of `updateVisuals` on the resolved layer index. */
    method ApplyLayerChange(newLayerIndex: nat)
      requires Valid() && newLayerIndex < LAYER_COUNT
      modifies this
      ensures Valid()
      ensures State() == AfterLayerChange(old(State()), newLayerIndex)
    {
      if newLayerIndex != currentLayerIndex {
        if Abs(velocityY) > HIGH_VELOCITY_THRESHOLD || isTransitioningSky {
          isTransitioningSky := false;
          currentLayerIndex := newLayerIndex;
        } else if !isTransitioningSky {
          isTransitioningSky := true;
          currentLayerIndex := newLayerIndex;
        }
      }
      assert State() == AfterLayerChange(old(State()), newLayerIndex);
    }

    /** The sky-transition part of `updateVisuals`. */
    method UpdateVisuals()
      requires Valid()
      modifies this
      ensures Valid()
      ensures State() == AfterLayerUpdate(old(State()))
    {
      var newLayerIndex := CurrentLayerFor(positionY);
      ApplyLayerChange(newLayerIndex);
    }

    /** Called by the renderer when a smooth fade has finished. */
    method CompleteTransition()
      requires Valid()
      modifies this
      ensures Valid()
      ensures State() == AfterTransitionEnd(old(State()))
    {
      if isTransitioningSky {
        isTransitioningSky := false;
      }
    }

    method ReachWinCondition()
      requires Valid() && gameRunning
      modifies this
      ensures Valid()
      ensures State() == AfterWin(old(State()))
    {
      ghost var s0 := State();
      won, isThrusting, sliderDisabled := true, false, true;
      assert State() == s0.(won := true, isThrusting := false, sliderDisabled := true);
      UpdateThrustFromSlider();
      ghost var t := State();
      sounds, gameRunning := sounds + [WinChime], false;
      assert State() == t.(sounds := t.sounds + [WinChime], gameRunning := false) == AfterWin(s0);
    }

    /** The game loop after its time-step checks. */
    method Frame(dt: real, c: Controls, exp: real -> real)
      requires Valid() && gameRunning && dt > 0.0
      modifies this
      ensures Valid()
      ensures State() == AfterFrame(old(State()), dt, c, exp)
    {
      ApplyKeyboardThrust(c);
      var density := exp(DensityExponent(positionY));
      Advance(dt, density);
      UpdateVisuals();
      if currentLayer.final && positionY >= OBSERVABLE_UNIVERSE_RADIUS && !won {
        ReachWinCondition();
      }
    }

    /** One call of the game loop. */
    method Tick(timestamp: real, c: Controls, exp: real -> real)
      requires Valid()
      modifies this
      ensures Valid()
      ensures State() == AfterTick(old(State()), timestamp, c, exp)
    {
      if !gameRunning || won {
        return;
      }
      if lastTimestamp == 0.0 {
        lastTimestamp := timestamp;
        return;
      }
      var dt := FrameDelta(lastTimestamp, timestamp);
      lastTimestamp := timestamp;
      if dt <= 0.0 {
        return;
      }
      Frame(dt, c, exp);
    }

    method SetLightSpeedMode(on: bool)
      requires Valid()
      modifies this
      ensures Valid()
      ensures State() == old(State()).(lightSpeedModeActive := on)
    {
      lightSpeedModeActive := on;
    }

    method SetConfig(cfg: Config)
      requires Valid()
      modifies this
      ensures Valid()
      ensures State() == old(State()).(config := cfg)
    {
      config := cfg;
    }

    method ResetDebugDefaults()
      requires Valid()
      modifies this
      ensures Valid()
      ensures State() == old(State()).(config := DefaultConfig, lightSpeedModeActive := false)
    {
      config := DefaultConfig;
      lightSpeedModeActive := false;
    }
  }
}
