/**
 * The remap lookup engine (class Remapper). A Remapper holds two forward
 * tables, physical key code -> logical code (`keyMap`) and physical axis ->
 * logical axis (`motionMap`), and the reverse of each, built once by its
 * constructors. Its fields are final, so it is modelled as a value; the
 * reverse maps are computed by the constructor loop in NewRemapper.
 * Key events are resolved forward through `keyMap`; motion events emit eight
 * fixed logical axes, each read from the physical axis `reverseMotionMap`
 * names for it. Unmapped codes pass through as themselves.
 */
module Remap {
  import opened AndroidInput
  import opened ArrayMaps

  const AXIS_NONE: int32 := -1

  // Pseudo key codes the D-pad keys are normalised to before lookup.
  const DPAD_CENTER: int32 := -9
  const DPAD_UP: int32 := -10
  const DPAD_RIGHT: int32 := -11
  const DPAD_DOWN: int32 := -12
  const DPAD_LEFT: int32 := -13

  datatype Remapper = Remapper(
    keyMap: map<int32, int32>,
    motionMap: map<int32, int32>,
    reverseKeyMap: map<int32, int32>,
    reverseMotionMap: map<int32, int32>)
  {
    /** The reverse tables are those the constructors build from the forward ones. */
    ghost predicate Valid()
    {
      reverseKeyMap == ReverseOf(keyMap) && reverseMotionMap == ReverseOf(motionMap)
    }
  }

  /** The Remapper the constructor `Remapper(keyMap, motionMap)` produces. */
  ghost function RemapperOf(keyMap: map<int32, int32>, motionMap: map<int32, int32>): Remapper
  {
    Remapper(keyMap, motionMap, ReverseOf(keyMap), ReverseOf(motionMap))
  }

  /** Constructor `Remapper(keyMap, motionMap)`: keeps the tables and builds their reverses. */
  method NewRemapper(keyMap: map<int32, int32>, motionMap: map<int32, int32>) returns (r: Remapper)
    ensures r == RemapperOf(keyMap, motionMap)
    ensures r.Valid() && r.keyMap == keyMap && r.motionMap == motionMap
    ensures IsReverse(keyMap, r.reverseKeyMap) && IsReverse(motionMap, r.reverseMotionMap)
  {
    var reverseKeyMap := Invert(keyMap);
    var reverseMotionMap := Invert(motionMap);
    r := Remapper(keyMap, motionMap, reverseKeyMap, reverseMotionMap);
  }

  /** The result of a `handle*EventInput` call: its return value and what it passed to the handler, in order. */
  datatype Handled = Handled(handled: bool, emitted: seq<Emission>)

  predicate IsDpadKey(keycode: int32)
  {
    keycode == KEYCODE_DPAD_UP || keycode == KEYCODE_DPAD_RIGHT
    || keycode == KEYCODE_DPAD_DOWN || keycode == KEYCODE_DPAD_LEFT
  }

  /**
   * transformKeyEventInput: D-pad keys become the pseudo codes -10..-13
   * (up, right, down, left); every other code is left alone.
   */
  function TransformKeyEventInput(keycode: int32): (r: int32)
    ensures keycode == KEYCODE_DPAD_UP ==> r == DPAD_UP
    ensures keycode == KEYCODE_DPAD_RIGHT ==> r == DPAD_RIGHT
    ensures keycode == KEYCODE_DPAD_DOWN ==> r == DPAD_DOWN
    ensures keycode == KEYCODE_DPAD_LEFT ==> r == DPAD_LEFT
    ensures IsDpadKey(keycode) ==> DPAD_LEFT <= r <= DPAD_UP
    ensures !IsDpadKey(keycode) ==> r == keycode
    ensures !IsDpadKey(r)
  {
    if keycode == KEYCODE_DPAD_UP then DPAD_UP
    else if keycode == KEYCODE_DPAD_RIGHT then DPAD_RIGHT
    else if keycode == KEYCODE_DPAD_DOWN then DPAD_DOWN
    else if keycode == KEYCODE_DPAD_LEFT then DPAD_LEFT
    else keycode
  }

  /** Normalisation loses nothing on real (non-negative) key codes. */
  lemma TransformKeyEventInputInjective(a: int32, b: int32)
    requires 0 <= a && 0 <= b && TransformKeyEventInput(a) == TransformKeyEventInput(b)
    ensures a == b
  {
  }

  /** getRemappedSource(KeyEvent): the logical code of a key, or the key's own code when unmapped. */
  function RemappedKeySource(r: Remapper, keyCode: int32): (source: int32)
    ensures source == keyCode || source in r.keyMap.Values
  {
    var normalised := TransformKeyEventInput(keyCode);
    if normalised in r.keyMap then r.keyMap[normalised] else keyCode
  }

  /** getRemappedSource(MotionEvent, axis): the physical axis feeding a logical axis, or the axis itself. */
  function RemappedMotionSource(r: Remapper, axis: int32): (source: int32)
    ensures source == axis || source in r.reverseMotionMap.Values
  {
    if axis in r.reverseMotionMap then r.reverseMotionMap[axis] else axis
  }

  /** getRemappedValue(source, KeyEvent): 1 while pressed (down or multiple), else 0; the source is ignored. */
  function RemappedKeyValue(mappedSource: int32, e: KeyEvent): (v: real)
    ensures v == 0.0 || v == 1.0
    ensures v == 1.0 <==> e.action == ACTION_DOWN || e.action == ACTION_MULTIPLE
  {
    if e.action == ACTION_DOWN || e.action == ACTION_MULTIPLE then 1.0 else 0.0
  }

  /** isAxis: the ten axes whose values are passed through; AXIS_RX and AXIS_RY are not among them. */
  predicate IsAxis(source: int32)
    ensures IsAxis(source) ==> source != AXIS_RX && source != AXIS_RY
  {
    source == AXIS_X || source == AXIS_Y
    || source == AXIS_Z || source == AXIS_RZ
    || source == AXIS_BRAKE || source == AXIS_THROTTLE
    || source == AXIS_LTRIGGER || source == AXIS_RTRIGGER
    || source == AXIS_HAT_X || source == AXIS_HAT_Y
  }

  function Abs(x: real): real
  {
    if x < 0.0 then -x else x
  }

  /**
   * getRemappedValue(source, MotionEvent): the raw value of an axis source;
   * any other source is read as a button, 1 when deflected by at least 0.5.
   */
  function RemappedMotionValue(mappedSource: int32, e: MotionEvent): (v: real)
    ensures IsAxis(mappedSource) ==> v == AxisValue(e, mappedSource)
    ensures !IsAxis(mappedSource) ==> (v == 0.0 || v == 1.0)
    ensures !IsAxis(mappedSource) ==> (v == 1.0 <==> Abs(AxisValue(e, mappedSource)) >= 0.5)
  {
    if IsAxis(mappedSource) then AxisValue(e, mappedSource)
    else if Abs(AxisValue(e, mappedSource)) >= 0.5 then 1.0 else 0.0
  }

  /** The logical axes handleMotionEventInput reports, in the order it reports them. */
  const MotionOutputs: seq<int32> :=
    [AXIS_HAT_X, AXIS_HAT_Y, AXIS_X, AXIS_Y, AXIS_RTRIGGER, AXIS_LTRIGGER, AXIS_Z, AXIS_RZ]

  function MotionEmission(r: Remapper, e: MotionEvent, axis: int32): Emission
  {
    Emission(axis, RemappedMotionValue(RemappedMotionSource(r, axis), e))
  }

  /**
   * handleKeyEventInput: a gamepad key event with a known code that is not an
   * auto-repeat is reported once, under its remapped code; anything else is
   * refused and reports nothing.
   */
  function HandleKeyEventInput(r: Remapper, e: KeyEvent): (h: Handled)
    ensures h.handled <==> e.isGamepadKey && e.keyCode != KEYCODE_UNKNOWN && e.repeatCount <= 0
    ensures !h.handled ==> h.emitted == []
    ensures h.handled ==> |h.emitted| == 1
    ensures h.handled ==> h.emitted[0].code == RemappedKeySource(r, e.keyCode)
    ensures h.handled ==> (h.emitted[0].value == 1.0 <==> e.action == ACTION_DOWN || e.action == ACTION_MULTIPLE)
  {
    if !e.isGamepadKey then Handled(false, [])
    else if e.keyCode == KEYCODE_UNKNOWN then Handled(false, [])
    else if e.repeatCount > 0 then Handled(false, [])
    else
      var mappedSource := RemappedKeySource(r, e.keyCode);
      Handled(true, [Emission(mappedSource, RemappedKeyValue(mappedSource, e))])
  }

  /**
   * handleMotionEventInput: a gamepad motion event reports the eight logical
   * axes of MotionOutputs, in that order, each read from its physical source.
   */
  function HandleMotionEventInput(r: Remapper, e: MotionEvent): (h: Handled)
    ensures h.handled <==> e.isGamepadMotion
    ensures !h.handled ==> h.emitted == []
    ensures h.handled ==> |h.emitted| == |MotionOutputs|
    ensures h.handled ==> forall i :: 0 <= i < |MotionOutputs| ==>
      h.emitted[i].code == MotionOutputs[i]
      && h.emitted[i].value == RemappedMotionValue(RemappedMotionSource(r, MotionOutputs[i]), e)
  {
    if !e.isGamepadMotion then Handled(false, [])
    else
      Handled(true, [
        MotionEmission(r, e, AXIS_HAT_X),
        MotionEmission(r, e, AXIS_HAT_Y),
        MotionEmission(r, e, AXIS_X),
        MotionEmission(r, e, AXIS_Y),
        MotionEmission(r, e, AXIS_RTRIGGER),
        MotionEmission(r, e, AXIS_LTRIGGER),
        MotionEmission(r, e, AXIS_Z),
        MotionEmission(r, e, AXIS_RZ)])
  }

  /** Identity fallback on the key path: an unmapped key is reported under its own, un-normalised code. */
  lemma UnmappedKeyPassesThrough(r: Remapper, e: KeyEvent)
    requires TransformKeyEventInput(e.keyCode) !in r.keyMap
    requires e.isGamepadKey && e.keyCode != KEYCODE_UNKNOWN && e.repeatCount <= 0
    ensures HandleKeyEventInput(r, e).emitted == [Emission(e.keyCode, RemappedKeyValue(e.keyCode, e))]
  {
  }

  /**
   * A table whose keys are real key codes (non-negative, as capture records
   * them) never matches a D-pad key, because lookup uses the negative pseudo
   * code: such a key is reported under its raw key code.
   */
  lemma DpadKeyFallsBack(r: Remapper, e: KeyEvent)
    requires forall k :: k in r.keyMap ==> k >= 0
    requires IsDpadKey(e.keyCode)
    ensures RemappedKeySource(r, e.keyCode) == e.keyCode
  {
  }

  /**
   * A key whose normalised code is in the table (a D-pad key through its
   * pseudo code, any other key through its own code) is reported under the
   * logical code the table gives it.
   */
  lemma MappedKeyIsRemapped(r: Remapper, e: KeyEvent)
    requires TransformKeyEventInput(e.keyCode) in r.keyMap
    requires e.isGamepadKey && e.keyCode != KEYCODE_UNKNOWN && e.repeatCount <= 0
    ensures HandleKeyEventInput(r, e).emitted[0].code == r.keyMap[TransformKeyEventInput(e.keyCode)]
  {
  }

  /**
   * The physical source found for a logical axis is either the axis itself
   * (nothing is mapped onto it) or the largest physical axis the motion table
   * maps onto it.
   */
  lemma MotionSourceIsPhysical(r: Remapper, axis: int32)
    requires r.Valid()
    ensures var source := RemappedMotionSource(r, axis);
      if axis in r.motionMap.Values
      then source in r.motionMap && r.motionMap[source] == axis
           && forall p :: p in r.motionMap && r.motionMap[p] == axis ==> p <= source
      else source == axis
  {
    ReverseOfIsReverse(r.motionMap);
  }

  /**
   * With an injective motion table, every mapped physical axis drives exactly
   * the logical axis it is mapped to: the emission for that logical axis
   * carries the physical axis's value.
   */
  lemma MappedAxisDrivesTarget(r: Remapper, e: MotionEvent, p: int32, i: nat)
    requires r.Valid() && Injective(r.motionMap)
    requires i < |MotionOutputs| && p in r.motionMap && r.motionMap[p] == MotionOutputs[i]
    requires e.isGamepadMotion
    ensures HandleMotionEventInput(r, e).emitted[i] == Emission(MotionOutputs[i], RemappedMotionValue(p, e))
  {
    InjectiveReverseIsInverse(r.motionMap);
  }

  /** With no motion mapping, the eight logical axes pass their own raw values through. */
  lemma EmptyMotionMapPassesThrough(r: Remapper, e: MotionEvent)
    requires r.Valid() && r.motionMap == map[]
    requires e.isGamepadMotion
    ensures forall i :: 0 <= i < |MotionOutputs| ==>
      HandleMotionEventInput(r, e).emitted[i] == Emission(MotionOutputs[i], AxisValue(e, MotionOutputs[i]))
  {
    ReverseOfIsReverse(r.motionMap);
    assert r.reverseMotionMap == map[];
  }

  /** AXIS_RX and AXIS_RY are not among the pass-through axes, so a value read from them is always 0 or 1. */
  lemma RightStickSourcesAreDigitised(e: MotionEvent)
    ensures RemappedMotionValue(AXIS_RX, e) in {0.0, 1.0}
    ensures RemappedMotionValue(AXIS_RY, e) in {0.0, 1.0}
  {
  }
}
