/**
 * The `JoystickX360` binding table: button and axis numbers of an Xbox 360
 * pad, the reverse factors and the deadzone, and the speed the joystick
 * handlers use.
 */
module JoystickX360 {
  import opened Wrappers
  import D = Drone

  // d-pad (dummy numbers: no physical button carries them)
  const Up: int := 1000
  const Down: int := 1001
  const RotateLeft: int := 4
  const RotateRight: int := 5

  // thumbstick presses
  const Takeoff: int := 9
  const Land: int := 8

  // face buttons
  const Forward: int := 3
  const Backward: int := 0
  const Left: int := 2
  const Right: int := 1

  // axes
  const LeftX: int := 4
  const LeftY: int := 2
  const RightX: int := 0
  const RightY: int := 1
  const LeftXReverse: real := 1.0
  const LeftYReverse: real := -1.0
  const RightXReverse: real := 1.0
  const RightYReverse: real := -1.0
  const Deadzone: real := 0.27

  /** The module-level `speed` the joystick handlers read. */
  const JoystickSpeed: int := 100

  /** A raw reading that the axis handler treats as no input. */
  predicate InDeadzone(value: real) { -Deadzone <= value && value <= Deadzone }

  /**
   * What an axis drives: the control channel, the reverse factor applied to
   * the reading, and the motion whose `0` stops it when the stick is centred.
   */
  datatype AxisMap = AxisMap(stick: D.Stick, reverse: real, stop: D.Motion)

  function AxisBinding(axis: int): (m: Option<AxisMap>)
    ensures m.Some? ==> m.value.reverse == 1.0 || m.value.reverse == -1.0
  {
    if axis == LeftY then Some(AxisMap(D.Throttle, LeftYReverse, D.Up))
    else if axis == LeftX then Some(AxisMap(D.Yaw, LeftXReverse, D.Clockwise))
    else if axis == RightY then Some(AxisMap(D.Pitch, RightYReverse, D.Forward))
    else if axis == RightX then Some(AxisMap(D.Roll, RightXReverse, D.Left))
    else None
  }

  /** The movement buttons and the motion each drives. */
  const Movements: map<int, D.Motion> := map[
    Up := D.Up, Down := D.Down,
    RotateRight := D.Clockwise, RotateLeft := D.CounterClockwise,
    Forward := D.Forward, Backward := D.Backward,
    Right := D.Right, Left := D.Left]

  /** The motion a movement button drives; the takeoff and land buttons are not movement buttons. */
  function ButtonMotion(button: int): (m: Option<D.Motion>)
    ensures button == Takeoff || button == Land ==> m.None?
    ensures button == Up || button == Down || button == RotateRight || button == RotateLeft ==> m.Some?
    ensures button == Forward || button == Backward || button == Right || button == Left ==> m.Some?
  {
    if button in Movements then Some(Movements[button]) else None
  }
}
