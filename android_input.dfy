/**
 * The pieces of the Android input framework the remapper relies on: Java's
 * 32-bit `int`, the key codes, axis identifiers and action codes it compares
 * against (values as in android.view.KeyEvent and android.view.MotionEvent),
 * and the two kinds of input event. The InputDevice classification queries
 * (isGamepadKeyEvent, isGamepadMotionEvent, isGamepadDevice) are not computed
 * here: each event carries their answers as booleans.
 */
module AndroidInput {

  /** Java's `int`. */
  newtype int32 = x: int | -0x8000_0000 <= x < 0x8000_0000

  // Key codes (android.view.KeyEvent)
  const KEYCODE_UNKNOWN: int32 := 0
  const KEYCODE_DPAD_UP: int32 := 19
  const KEYCODE_DPAD_DOWN: int32 := 20
  const KEYCODE_DPAD_LEFT: int32 := 21
  const KEYCODE_DPAD_RIGHT: int32 := 22
  const KEYCODE_DPAD_CENTER: int32 := 23
  const KEYCODE_BUTTON_A: int32 := 96
  const KEYCODE_BUTTON_B: int32 := 97
  const KEYCODE_BUTTON_X: int32 := 99
  const KEYCODE_BUTTON_Y: int32 := 100
  const KEYCODE_BUTTON_L1: int32 := 102
  const KEYCODE_BUTTON_R1: int32 := 103
  const KEYCODE_BUTTON_THUMBL: int32 := 106
  const KEYCODE_BUTTON_THUMBR: int32 := 107
  const KEYCODE_BUTTON_START: int32 := 108
  const KEYCODE_BUTTON_SELECT: int32 := 109

  // Key actions (android.view.KeyEvent)
  const ACTION_DOWN: int32 := 0
  const ACTION_UP: int32 := 1
  const ACTION_MULTIPLE: int32 := 2

  // Axis identifiers (android.view.MotionEvent)
  const AXIS_X: int32 := 0
  const AXIS_Y: int32 := 1
  const AXIS_Z: int32 := 11
  const AXIS_RX: int32 := 12
  const AXIS_RY: int32 := 13
  const AXIS_RZ: int32 := 14
  const AXIS_HAT_X: int32 := 15
  const AXIS_HAT_Y: int32 := 16
  const AXIS_LTRIGGER: int32 := 17
  const AXIS_RTRIGGER: int32 := 18
  const AXIS_THROTTLE: int32 := 19
  const AXIS_GAS: int32 := 22
  const AXIS_BRAKE: int32 := 23

  /**
   * A key event: its key code, action and repeat count, plus the answers of
   * the two classification queries the remapper asks about it.
   */
  datatype KeyEvent = KeyEvent(
    keyCode: int32,
    action: int32,
    repeatCount: int32,
    isGamepadKey: bool,       // isGamepadKeyEvent(event)
    fromGamepadDevice: bool)  // isGamepadDevice(event.getDevice())

  /**
   * A generic motion event: the value reported for each axis (an axis the
   * device does not report reads as 0), plus the classification answers.
   * Axis values are Java floats in the source; they are only compared and
   * passed through, so they are modelled as reals.
   */
  datatype MotionEvent = MotionEvent(
    axisValues: map<int32, real>,
    isGamepadMotion: bool,    // isGamepadMotionEvent(event)
    fromGamepadDevice: bool)  // isGamepadDevice(event.getDevice())

  /** MotionEvent.getAxisValue */
  function AxisValue(e: MotionEvent, axis: int32): real
  {
    if axis in e.axisValues then e.axisValues[axis] else 0.0
  }

  /** A (code, value) pair passed to GamepadHandler.handleGamepadInput. */
  datatype Emission = Emission(code: int32, value: real)
}
