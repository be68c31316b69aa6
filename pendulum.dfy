/**
  The pendulum simulation's state and its plot history: a 200-slot window of
  (time, angle) samples that fills up and then scrolls, with the oldest
  sample falling out at the front.
*/
module Pendulum {

  import History
  import opened Registry

  /** The capacity of both plot arrays. */
  const Capacity := 200

  /** The initial release angle, in radians, that init and reset restore. */
  const StartAngle := 0.5

  /** pendulum_params: gravity from 1 to 20 and length from 0.5 to 5. */
  const PendulumParams := [
    Parameter("Gravity", FloatParam, 1.0, 20.0, 0, 0),
    Parameter("Length", FloatParam, 0.5, 5.0, 0, 0)
  ]

  /** The pendulum's state of motion: the angle from the vertical, in radians, and the angular velocity. */
  datatype Motion = Motion(angle: real, velocity: real)

  /**
    One semi-implicit Euler step of angle'' = -(g / L) sin(angle): the
    acceleration updates the velocity, and the new velocity the angle.
    `sinAngle` is the sine of the current angle.
  */
  function Euler(m: Motion, gravity: real, length: real, dt: real, sinAngle: real): (r: Motion)
    requires length > 0.0
  {
    var velocity := m.velocity + -(gravity / length) * sinAngle * dt;
    Motion(m.angle + velocity * dt, velocity)
  }

  /**
    The step's force is restoring: with positive gravity and step, a
    pendulum displaced to the side of positive sine is slowed, one on the
    side of negative sine is sped up, and at zero sine the velocity is
    unchanged; either way the angle moves by exactly the new velocity times dt.
  */
  lemma EulerRestores(m: Motion, gravity: real, length: real, dt: real, sinAngle: real)
    requires gravity > 0.0 && length > 0.0 && dt > 0.0
    ensures sinAngle > 0.0 ==> Euler(m, gravity, length, dt, sinAngle).velocity < m.velocity
    ensures sinAngle < 0.0 ==> Euler(m, gravity, length, dt, sinAngle).velocity > m.velocity
    ensures sinAngle == 0.0 ==> Euler(m, gravity, length, dt, sinAngle).velocity == m.velocity
    ensures Euler(m, gravity, length, dt, sinAngle).angle - m.angle == Euler(m, gravity, length, dt, sinAngle).velocity * dt
  {
  }

  /** The plot history: the two arrays' contents and the number of samples held. */
  datatype Window = Window(times: seq<real>, angles: seq<real>, count: int)

  /** Two 200-slot arrays and at most 200 samples. */
  predicate WellFormed(w: Window)
  {
    |w.times| == Capacity && |w.angles| == Capacity && 0 <= w.count <= Capacity
  }

  /**
    The history after one sample with step dt and angle a. While filling,
    the sample (count * dt, a) takes slot count; once full, both arrays
    scroll left and the last slot takes a, stamped one dt after the
    previous newest time.
  */
  function Recorded(w: Window, dt: real, a: real): (r: Window)
    requires WellFormed(w)
    ensures WellFormed(r)
  {
    if w.count < Capacity then
      Window(History.Record(w.times, w.count, Stamp(w.count, dt)), History.Record(w.angles, w.count, a), w.count + 1)
    else
      Window(History.Roll(w.times, w.times[Capacity - 1] + dt), History.Roll(w.angles, a), Capacity)
  }

  /** The time of the sample taken while the window holds `count` samples. */
  function Stamp(count: int, dt: real): real
  {
    count as real * dt
  }

  /**
    While the window fills, a sample is appended after the ones held, which
    stay as they were; the count grows by one and the new angle is the
    newest.
  */
  lemma RecordedWhileFilling(w: Window, dt: real, a: real)
    requires WellFormed(w) && w.count < Capacity
    ensures Recorded(w, dt, a).count == w.count + 1
    ensures Recorded(w, dt, a).angles[w.count] == a && Recorded(w, dt, a).times[w.count] == Stamp(w.count, dt)
    ensures forall k :: 0 <= k < w.count ==> Recorded(w, dt, a).angles[k] == w.angles[k] && Recorded(w, dt, a).times[k] == w.times[k]
  {
  }

  /** Once full the window stays full, every sample moves one slot forward, and the new angle is the last. */
  lemma RecordedWhenFull(w: Window, dt: real, a: real)
    requires WellFormed(w) && w.count == Capacity
    ensures Recorded(w, dt, a).count == Capacity
    ensures forall k :: 1 <= k < Capacity ==> Recorded(w, dt, a).angles[k - 1] == w.angles[k] && Recorded(w, dt, a).times[k - 1] == w.times[k]
    ensures Recorded(w, dt, a).angles[Capacity - 1] == a && Recorded(w, dt, a).times[Capacity - 1] == w.times[Capacity - 1] + dt
  {
  }

  /**
    With a constant dt, a window whose time stamps are 0, dt, 2 dt, ... up
    to its count keeps that shape while it fills, and once full it stays
    evenly spaced by dt however often it scrolls.
  */
  lemma StampsStayRegular(w: Window, dt: real, a: real)
    requires WellFormed(w)
    requires w.count < Capacity ==> Stamped(w.times, w.count, dt)
    requires w.count == Capacity ==> Spaced(w.times, dt)
    ensures var r := Recorded(w, dt, a);
      (r.count < Capacity ==> Stamped(r.times, r.count, dt)) && (r.count == Capacity ==> Spaced(r.times, dt))
  {
    var r := Recorded(w, dt, a);
    if w.count < Capacity {
      assert Stamped(r.times, r.count, dt);
      if r.count == Capacity {
        StampedIsSpaced(r.times, dt);
      }
    } else {
      RollKeepsSpacing(w.times, dt);
    }
  }

  /**
    The stamp uses the frame's own dt, so with a frame time that varies
    the stamps need not increase: at count 100 a frame of 0.02 stamps 2.0,
    and a following frame of 0.016 stamps 101 * 0.016 = 1.616.
  */
  lemma VaryingStepStamps(w: Window, a: real, b: real)
    requires WellFormed(w) && w.count == 100
    ensures var r := Recorded(Recorded(w, 0.02, a), 0.016, b);
      r.times[100] == 2.0 && r.times[101] == 1.616 && r.times[101] < r.times[100]
  {
  }

  /** The time stamps of the first m samples are 0, dt, 2 dt, ... */
  predicate Stamped(t: seq<real>, m: int, dt: real)
    requires 0 <= m <= |t|
  {
    forall k :: 0 <= k < m ==> t[k] == k as real * dt
  }

  /** Consecutive time stamps are dt apart. */
  predicate Spaced(t: seq<real>, dt: real)
  {
    forall k :: 1 <= k < |t| ==> t[k] == t[k - 1] + dt
  }

  /** A full window stamped from zero is evenly spaced. */
  lemma StampedIsSpaced(t: seq<real>, dt: real)
    requires Stamped(t, |t|, dt)
    ensures Spaced(t, dt)
  {
  }

  /** Scrolling with a stamp one dt after the newest keeps the window evenly spaced. */
  lemma RollKeepsSpacing(t: seq<real>, dt: real)
    requires |t| > 0 && Spaced(t, dt)
    ensures Spaced(History.Roll(t, t[|t| - 1] + dt), dt)
  {
  }

  /**
    The shift loop of sim_pendulum_update: for i = 1 to 199, slot i - 1 of
    both arrays takes the value of slot i, so that every sample moves one
    place towards the front; the last slot still holds its old value.
  */
  method ShiftLeft(timeData: array<real>, angleData: array<real>)
    requires timeData.Length == Capacity && angleData.Length == Capacity && timeData != angleData
    modifies timeData, angleData
    ensures timeData[..] == old(timeData[..])[1..] + [old(timeData[Capacity - 1])]
    ensures angleData[..] == old(angleData[..])[1..] + [old(angleData[Capacity - 1])]
  {
    var i := 1;
    while i < Capacity
      invariant 1 <= i <= Capacity
      invariant forall k :: 0 <= k < i - 1 ==> timeData[k] == old(timeData[k + 1]) && angleData[k] == old(angleData[k + 1])
      invariant forall k :: i - 1 <= k < Capacity ==> timeData[k] == old(timeData[k]) && angleData[k] == old(angleData[k])
    {
      timeData[i - 1] := timeData[i];
      angleData[i - 1] := angleData[i];
      i := i + 1;
    }
  }

  /** The reset loop of sim_pendulum_params_ui: all 200 slots of both arrays become 0. */
  method ClearHistory(timeData: array<real>, angleData: array<real>)
    requires timeData.Length == Capacity && angleData.Length == Capacity
    modifies timeData, angleData
    ensures forall k :: 0 <= k < Capacity ==> timeData[k] == 0.0 && angleData[k] == 0.0
  {
    var i := 0;
    while i < Capacity
      invariant 0 <= i <= Capacity
      invariant forall k :: 0 <= k < i ==> timeData[k] == 0.0 && angleData[k] == 0.0
    {
      timeData[i] := 0.0;
      angleData[i] := 0.0;
      i := i + 1;
    }
  }

  class Swing {
    /** pendulum_gravity and pendulum_length: the two sliders' values. */
    var gravity: real
    var length: real
    /** pendulum_angle, in radians from the vertical, and pendulum_angular_vel. */
    var angle: real
    var angularVel: real
    /** pendulum_time_data and pendulum_angle_data: static float arrays. */
    const timeData: array<real>
    const angleData: array<real>
    /** pendulum_data_count: how many slots hold samples. */
    var dataCount: int

    /** Two distinct 200-slot arrays, at most 200 samples, and the parameters within their sliders' bounds. */
    predicate Valid()
      reads this
    {
      && timeData.Length == Capacity && angleData.Length == Capacity && timeData != angleData
      && 0 <= dataCount <= Capacity
      && 1.0 <= gravity <= 20.0 && 0.5 <= length <= 5.0
    }

    /** The plot history the two arrays and the count make up. */
    function Plot(): (w: Window)
      reads this, timeData, angleData
      ensures Valid() ==> WellFormed(w)
    {
      Window(timeData[..], angleData[..], dataCount)
    }

    /** The state of the statics before the first init. */
    constructor ()
      ensures Valid()
      ensures gravity == 9.81 && length == 1.0 && angle == StartAngle && angularVel == 0.0 && dataCount == 0
      ensures forall k :: 0 <= k < Capacity ==> timeData[k] == 0.0 && angleData[k] == 0.0
    {
      gravity, length := 9.81, 1.0;
      angle, angularVel := StartAngle, 0.0;
      timeData := new real[Capacity](_ => 0.0);
      angleData := new real[Capacity](_ => 0.0);
      dataCount := 0;
    }

    /**
      The state sim_pendulum_init restores once the GPU resources exist:
      the release angle and zero velocity. The history and its count are
      left as they were.
    */
    method Init()
      requires Valid()
      modifies this
      ensures Valid()
      ensures angle == StartAngle && angularVel == 0.0
      ensures gravity == old(gravity) && length == old(length) && dataCount == old(dataCount)
    {
      angle := StartAngle;
      angularVel := 0.0;
    }

    /**
      The history part of sim_pendulum_update. Below capacity the sample
      (count * dt, angle) goes into slot count and the count grows; at
      capacity both arrays scroll one place and the last slot receives the
      current angle and a time one dt after the previous newest.
    */
    method RecordSample(dt: real)
      requires Valid()
      modifies this, timeData, angleData
      ensures Valid()
      ensures gravity == old(gravity) && length == old(length)
      ensures angle == old(angle) && angularVel == old(angularVel)
      ensures Plot() == Recorded(old(Plot()), dt, angle)
    {
      if dataCount < Capacity {
        timeData[dataCount] := Stamp(dataCount, dt);
        angleData[dataCount] := angle;
        dataCount := dataCount + 1;
      } else {
        ShiftLeft(timeData, angleData);
        timeData[Capacity - 1] := timeData[Capacity - 2] + dt;
        angleData[Capacity - 1] := angle;
      }
    }

    /**
      sim_pendulum_update: one semi-implicit Euler step of the angle equation
      (the angular acceleration -(g / L) sin(angle) first updates the
      velocity, the new velocity then the angle), after which the new angle
      is recorded. `sin` stands for the C library's sinf.
    */
    method Update(dt: real, sin: real -> real)
      requires Valid()
      modifies this, timeData, angleData
      ensures Valid()
      ensures gravity == old(gravity) && length == old(length)
      ensures Motion(angle, angularVel) == Euler(Motion(old(angle), old(angularVel)), gravity, length, dt, sin(old(angle)))
      ensures Plot() == Recorded(old(Plot()), dt, angle)
    {
      Integrate(dt, sin);
      RecordSample(dt);
    }

    /** The Euler step of sim_pendulum_update: velocity first, then the angle from the new velocity. */
    method Integrate(dt: real, sin: real -> real)
      requires Valid()
      modifies this
      ensures Valid()
      ensures gravity == old(gravity) && length == old(length) && dataCount == old(dataCount)
      ensures Motion(angle, angularVel) == Euler(Motion(old(angle), old(angularVel)), gravity, length, dt, sin(old(angle)))
    {
      var angleAcc := -(gravity / length) * sin(angle);
      angularVel := angularVel + angleAcc * dt;
      angle := angle + angularVel * dt;
    }

    /**
      The reset button of sim_pendulum_params_ui: release angle, zero
      velocity, an empty history with every slot of both arrays zeroed.
    */
    method Reset()
      requires Valid()
      modifies this, timeData, angleData
      ensures Valid()
      ensures angle == StartAngle && angularVel == 0.0 && dataCount == 0
      ensures gravity == old(gravity) && length == old(length)
      ensures forall k :: 0 <= k < Capacity ==> timeData[k] == 0.0 && angleData[k] == 0.0
    {
      angle := StartAngle;
      angularVel := 0.0;
      dataCount := 0;
      ClearHistory(timeData, angleData);
    }

    /**
      sim_pendulum_params_ui: the reset button, then the gravity and length
      sliders, whose values are written back afterwards.
    */
    method ParamsUi(resetClicked: bool, gravityValue: real, lengthValue: real) returns (sliders: seq<Slider>)
      requires Valid() && FloatInBounds(PendulumParams[0], gravityValue) && FloatInBounds(PendulumParams[1], lengthValue)
      modifies this, timeData, angleData
      ensures Valid()
      ensures sliders == [FloatSlider("Gravity", 1.0, 20.0), FloatSlider("Length", 0.5, 5.0)]
      ensures gravity == gravityValue && length == lengthValue
      ensures resetClicked ==> angle == StartAngle && angularVel == 0.0 && dataCount == 0
      ensures resetClicked ==> forall k :: 0 <= k < Capacity ==> timeData[k] == 0.0 && angleData[k] == 0.0
      ensures !resetClicked ==> angle == old(angle) && angularVel == old(angularVel) && dataCount == old(dataCount)
      ensures !resetClicked ==> timeData[..] == old(timeData[..]) && angleData[..] == old(angleData[..])
    {
      if resetClicked {
        Reset();
      }
      sliders := DrawParams(PendulumParams, 2);
      gravity, length := gravityValue, lengthValue;
    }
  }
}
