/**
 * The capture session (class RemapperView and its Builder). The Builder's
 * flags choose which targets are prompted for; `build` lays out three lists
 * in lockstep (target code, icon, prompt text). The view then walks a
 * pointer `index` over them: each accepted key press or axis deflection
 * records `source -> inputList[index]` in one of two tables and advances,
 * and a debounce flag `isListening` keeps it deaf until a delayed callback
 * (posted for 800 ms) turns it back on. After the last target the view
 * hands `Remapper(inputMapKeys, inputMapMotions)` to its listener.
 */
module View {
  import opened AndroidInput
  import opened Wrappers
  import opened ArrayMaps
  import opened Remap

  /** The Builder flags, in the order `build` tests them. */
  datatype Target =
    | A | B | X | Y | Start | Select
    | LeftJoystick | LeftJoystickButton | RightJoystick | RightJoystickButton
    | LeftShoulder | RightShoulder | LeftTrigger | RightTrigger | Dpad

  /**
   * One prompt of the capture session: the target code recorded for it, the
   * drawable and string resources shown with it (by resource name), and the
   * flag that enables it.
   */
  datatype Prompt = Prompt(target: Target, input: int32, drawable: string, text: string)

  /** The prompts one enabled flag contributes, as `build` appends them. */
  function TargetPrompts(t: Target): seq<Prompt>
  {
    match t
    case A => [Prompt(A, KEYCODE_BUTTON_A, "button_a", "bind_process_press_a")]
    case B => [Prompt(B, KEYCODE_BUTTON_B, "button_b", "bind_process_press_b")]
    case X => [Prompt(X, KEYCODE_BUTTON_X, "button_x", "bind_process_press_x")]
    case Y => [Prompt(Y, KEYCODE_BUTTON_Y, "button_y", "bind_process_press_y")]
    case Start => [Prompt(Start, KEYCODE_BUTTON_START, "button_start", "bind_process_press_start")]
    case Select => [Prompt(Select, KEYCODE_BUTTON_SELECT, "button_select", "bind_process_press_select")]
    case LeftJoystick =>
      [Prompt(LeftJoystick, AXIS_X, "stick_left", "bind_process_move_stick_left_x"),
       Prompt(LeftJoystick, AXIS_Y, "stick_left", "bind_process_move_stick_left_y")]
    case LeftJoystickButton =>
      [Prompt(LeftJoystickButton, KEYCODE_BUTTON_THUMBL, "stick_left_click", "bind_process_press_stick_left")]
    case RightJoystick =>
      [Prompt(RightJoystick, AXIS_Z, "stick_right", "bind_process_move_stick_right_x"),
       Prompt(RightJoystick, AXIS_RZ, "stick_right", "bind_process_move_stick_right_y")]
    case RightJoystickButton =>
      [Prompt(RightJoystickButton, KEYCODE_BUTTON_THUMBR, "stick_right_click", "bind_process_press_stick_right")]
    case LeftShoulder => [Prompt(LeftShoulder, KEYCODE_BUTTON_L1, "shoulder_left", "bind_process_press_shoulder_left")]
    case RightShoulder => [Prompt(RightShoulder, KEYCODE_BUTTON_R1, "shoulder_right", "bind_process_press_shoulder_right")]
    case LeftTrigger => [Prompt(LeftTrigger, AXIS_LTRIGGER, "trigger_left", "bind_process_press_trigger_left")]
    case RightTrigger => [Prompt(RightTrigger, AXIS_RTRIGGER, "trigger_right", "bind_process_press_trigger_right")]
    case Dpad =>
      [Prompt(Dpad, AXIS_HAT_X, "dpad_right", "bind_process_press_dpad_right"),
       Prompt(Dpad, AXIS_HAT_Y, "dpad_down", "bind_process_press_dpad_down")]
  }

  /** All eighteen prompts, in the order `build` lays them out when every flag is set. */
  const FullPrompts: seq<Prompt> := [
    Prompt(A, KEYCODE_BUTTON_A, "button_a", "bind_process_press_a"),
    Prompt(B, KEYCODE_BUTTON_B, "button_b", "bind_process_press_b"),
    Prompt(X, KEYCODE_BUTTON_X, "button_x", "bind_process_press_x"),
    Prompt(Y, KEYCODE_BUTTON_Y, "button_y", "bind_process_press_y"),
    Prompt(Start, KEYCODE_BUTTON_START, "button_start", "bind_process_press_start"),
    Prompt(Select, KEYCODE_BUTTON_SELECT, "button_select", "bind_process_press_select"),
    Prompt(LeftJoystick, AXIS_X, "stick_left", "bind_process_move_stick_left_x"),
    Prompt(LeftJoystick, AXIS_Y, "stick_left", "bind_process_move_stick_left_y"),
    Prompt(LeftJoystickButton, KEYCODE_BUTTON_THUMBL, "stick_left_click", "bind_process_press_stick_left"),
    Prompt(RightJoystick, AXIS_Z, "stick_right", "bind_process_move_stick_right_x"),
    Prompt(RightJoystick, AXIS_RZ, "stick_right", "bind_process_move_stick_right_y"),
    Prompt(RightJoystickButton, KEYCODE_BUTTON_THUMBR, "stick_right_click", "bind_process_press_stick_right"),
    Prompt(LeftShoulder, KEYCODE_BUTTON_L1, "shoulder_left", "bind_process_press_shoulder_left"),
    Prompt(RightShoulder, KEYCODE_BUTTON_R1, "shoulder_right", "bind_process_press_shoulder_right"),
    Prompt(LeftTrigger, AXIS_LTRIGGER, "trigger_left", "bind_process_press_trigger_left"),
    Prompt(RightTrigger, AXIS_RTRIGGER, "trigger_right", "bind_process_press_trigger_right"),
    Prompt(Dpad, AXIS_HAT_X, "dpad_right", "bind_process_press_dpad_right"),
    Prompt(Dpad, AXIS_HAT_Y, "dpad_down", "bind_process_press_dpad_down")]

  /** The eighteen prompts are the flags' prompts, flag after flag in `build` order. */
  lemma FullPromptsByTarget()
    ensures FullPrompts ==
      TargetPrompts(A) + TargetPrompts(B) + TargetPrompts(X) + TargetPrompts(Y)
      + TargetPrompts(Start) + TargetPrompts(Select) + TargetPrompts(LeftJoystick)
      + TargetPrompts(LeftJoystickButton) + TargetPrompts(RightJoystick)
      + TargetPrompts(RightJoystickButton) + TargetPrompts(LeftShoulder)
      + TargetPrompts(RightShoulder) + TargetPrompts(LeftTrigger)
      + TargetPrompts(RightTrigger) + TargetPrompts(Dpad)
  {
  }

  /** The prompts of `ps` whose flag is set, in their order. */
  function Selected(flags: set<Target>, ps: seq<Prompt>): seq<Prompt>
    decreases |ps|
  {
    if ps == [] then []
    else
      var last := ps[|ps| - 1];
      Selected(flags, ps[..|ps| - 1]) + (if last.target in flags then [last] else [])
  }

  function Inputs(ps: seq<Prompt>): seq<int32>
  {
    seq(|ps|, i requires 0 <= i < |ps| => ps[i].input)
  }

  function Drawables(ps: seq<Prompt>): seq<string>
  {
    seq(|ps|, i requires 0 <= i < |ps| => ps[i].drawable)
  }

  function Texts(ps: seq<Prompt>): seq<string>
  {
    seq(|ps|, i requires 0 <= i < |ps| => ps[i].text)
  }

  ghost predicate Distinct(s: seq<int32>)
  {
    forall i, j :: 0 <= i < j < |s| ==> s[i] != s[j]
  }

  /** The number of targets a flag adds: two for each stick and the D-pad, one otherwise. */
  function Width(t: Target): nat
  {
    if t == LeftJoystick || t == RightJoystick || t == Dpad then 2 else 1
  }

  lemma SelectedAppend(flags: set<Target>, a: seq<Prompt>, b: seq<Prompt>)
    ensures Selected(flags, a + b) == Selected(flags, a) + Selected(flags, b)
    decreases |b|
  {
    if b == [] {
      assert a + b == a;
    } else {
      var pre := b[..|b| - 1];
      assert (a + b)[..|a + b| - 1] == a + pre;
      assert (a + b)[|a + b| - 1] == b[|b| - 1];
      SelectedAppend(flags, a, pre);
    }
  }

  /** Prompts that all belong to one flag are kept together or dropped together. */
  lemma {:induction false} SelectedUniform(flags: set<Target>, t: Target, ps: seq<Prompt>)
    requires forall i :: 0 <= i < |ps| ==> ps[i].target == t
    ensures Selected(flags, ps) == if t in flags then ps else []
    decreases |ps|
  {
    if ps != [] {
      var pre := ps[..|ps| - 1];
      SelectedUniform(flags, t, pre);
      assert ps == pre + [ps[|ps| - 1]];
    }
  }

  lemma SelectedTarget(flags: set<Target>, t: Target)
    ensures Selected(flags, TargetPrompts(t)) == if t in flags then TargetPrompts(t) else []
  {
    var ps := TargetPrompts(t);
    assert forall i :: 0 <= i < |ps| ==> ps[i].target == t;
    SelectedUniform(flags, t, ps);
  }

  /** A prompt is laid out exactly when it is one of the eighteen and its flag is set. */
  lemma {:induction false} SelectedMembers(flags: set<Target>, ps: seq<Prompt>)
    ensures forall p :: p in Selected(flags, ps) <==> p in ps && p.target in flags
    decreases |ps|
  {
    if ps != [] {
      var pre := ps[..|ps| - 1];
      SelectedMembers(flags, pre);
      assert ps == pre + [ps[|ps| - 1]];
    }
  }

  /** Filtering keeps distinct target codes distinct. */
  lemma {:induction false} SelectedDistinct(flags: set<Target>, ps: seq<Prompt>)
    requires Distinct(Inputs(ps))
    ensures Distinct(Inputs(Selected(flags, ps)))
    decreases |ps|
  {
    if ps != [] {
      var pre := ps[..|ps| - 1];
      var last := ps[|ps| - 1];
      assert Inputs(pre) == Inputs(ps)[..|ps| - 1];
      SelectedDistinct(flags, pre);
      SelectedMembers(flags, pre);
      var s := Selected(flags, pre);
      if last.target in flags {
        assert Inputs(ps)[|ps| - 1] == last.input;
        forall i | 0 <= i < |s| ensures s[i].input != last.input {
          assert s[i] in s;
          var j :| 0 <= j < |pre| && pre[j] == s[i];
          assert Inputs(ps)[j] == s[i].input;
        }
        assert Selected(flags, ps) == s + [last];
        assert Inputs(s + [last]) == Inputs(s) + [last.input];
      } else {
        assert Selected(flags, ps) == s;
      }
    }
  }

  /** What one flag adds to the layout: its prompts when set, nothing otherwise. */
  function Contribution(flags: set<Target>, t: Target): seq<Prompt>
  {
    if t in flags then TargetPrompts(t) else []
  }

  lemma SelectedStep(flags: set<Target>, ps: seq<Prompt>, t: Target)
    ensures Selected(flags, ps + TargetPrompts(t)) == Selected(flags, ps) + Contribution(flags, t)
  {
    SelectedAppend(flags, ps, TargetPrompts(t));
    SelectedTarget(flags, t);
  }

  /** Filtering the eighteen prompts is the same as appending each flag's contribution in `build` order. */
  lemma SelectedFull(flags: set<Target>)
    ensures Selected(flags, FullPrompts) ==
      Contribution(flags, A) + Contribution(flags, B) + Contribution(flags, X) + Contribution(flags, Y)
      + Contribution(flags, Start) + Contribution(flags, Select) + Contribution(flags, LeftJoystick)
      + Contribution(flags, LeftJoystickButton) + Contribution(flags, RightJoystick)
      + Contribution(flags, RightJoystickButton) + Contribution(flags, LeftShoulder)
      + Contribution(flags, RightShoulder) + Contribution(flags, LeftTrigger)
      + Contribution(flags, RightTrigger) + Contribution(flags, Dpad)
  {
    var all: seq<Prompt> := [];
    SelectedStep(flags, all, A); all := all + TargetPrompts(A);
    SelectedStep(flags, all, B); all := all + TargetPrompts(B);
    SelectedStep(flags, all, X); all := all + TargetPrompts(X);
    SelectedStep(flags, all, Y); all := all + TargetPrompts(Y);
    SelectedStep(flags, all, Start); all := all + TargetPrompts(Start);
    SelectedStep(flags, all, Select); all := all + TargetPrompts(Select);
    SelectedStep(flags, all, LeftJoystick); all := all + TargetPrompts(LeftJoystick);
    SelectedStep(flags, all, LeftJoystickButton); all := all + TargetPrompts(LeftJoystickButton);
    SelectedStep(flags, all, RightJoystick); all := all + TargetPrompts(RightJoystick);
    SelectedStep(flags, all, RightJoystickButton); all := all + TargetPrompts(RightJoystickButton);
    SelectedStep(flags, all, LeftShoulder); all := all + TargetPrompts(LeftShoulder);
    SelectedStep(flags, all, RightShoulder); all := all + TargetPrompts(RightShoulder);
    SelectedStep(flags, all, LeftTrigger); all := all + TargetPrompts(LeftTrigger);
    SelectedStep(flags, all, RightTrigger); all := all + TargetPrompts(RightTrigger);
    SelectedStep(flags, all, Dpad); all := all + TargetPrompts(Dpad);
    FullPromptsByTarget();
    assert all == FullPrompts;
  }

  /**
   * Setting one more flag keeps every prompt laid out before and adds
   * exactly the prompts of that flag, and no others.
   */
  lemma {:induction false} SelectedWithOneMore(flags: set<Target>, t: Target, ps: seq<Prompt>)
    requires t !in flags
    ensures |Selected(flags + {t}, ps)| == |Selected(flags, ps)| + |Selected({t}, ps)|
    ensures forall p :: p in Selected(flags + {t}, ps) <==> p in Selected(flags, ps) || (p in ps && p.target == t)
    decreases |ps|
  {
    if ps != [] {
      SelectedWithOneMore(flags, t, ps[..|ps| - 1]);
    }
  }

  /** Setting one more flag lengthens the layout by that flag's width. */
  lemma FlagAddsWidth(flags: set<Target>, t: Target)
    requires t !in flags
    ensures |Selected(flags + {t}, FullPrompts)| == |Selected(flags, FullPrompts)| + Width(t)
  {
    SelectedWithOneMore(flags, t, FullPrompts);
    SelectedFull({t});
  }

  /** With no flag set, nothing is prompted for. */
  lemma NoFlagsNoPrompts()
    ensures Selected({}, FullPrompts) == []
  {
    SelectedFull({});
  }

  lemma ProjectionsAppend(a: seq<Prompt>, b: seq<Prompt>)
    ensures Inputs(a + b) == Inputs(a) + Inputs(b)
    ensures Drawables(a + b) == Drawables(a) + Drawables(b)
    ensures Texts(a + b) == Texts(a) + Texts(b)
  {
  }

  /** Appending the prompt at `i` appends its code, icon and text to the three lists. */
  lemma ProjectionsSnoc(ps: seq<Prompt>, i: nat)
    requires i < |ps|
    ensures Inputs(ps[..i + 1]) == Inputs(ps[..i]) + [ps[i].input]
    ensures Drawables(ps[..i + 1]) == Drawables(ps[..i]) + [ps[i].drawable]
    ensures Texts(ps[..i + 1]) == Texts(ps[..i]) + [ps[i].text]
  {
    assert ps[..i + 1] == ps[..i] + [ps[i]];
    ProjectionsAppend(ps[..i], [ps[i]]);
  }

  /** The eighteen target codes are pairwise different. */
  lemma FullPromptsDistinct()
    ensures Distinct(Inputs(FullPrompts))
  {
  }

  /** Whatever flags are set, no target code is prompted for twice. */
  lemma LayoutDistinct(flags: set<Target>)
    ensures Distinct(Inputs(Selected(flags, FullPrompts)))
  {
    FullPromptsDistinct();
    SelectedDistinct(flags, FullPrompts);
  }

  // ---------------------------------------------------------------------
  // Choosing the captured axis (findTriggeredAxis)

  /** The axes scanned for a capture, in scan order. */
  const CaptureAxes: seq<int32> :=
    [AXIS_HAT_X, AXIS_HAT_Y, AXIS_RX, AXIS_RY, AXIS_X, AXIS_Y, AXIS_Z, AXIS_RZ,
     AXIS_BRAKE, AXIS_THROTTLE, AXIS_RTRIGGER, AXIS_LTRIGGER]

  /** The signed value an axis must reach to be captured. */
  const CaptureThreshold: real := 0.85

  /** The first axis of `axes` whose signed value reaches the threshold, or AXIS_NONE. */
  function FirstTriggered(e: MotionEvent, axes: seq<int32>): (axis: int32)
    requires AXIS_NONE !in axes
    ensures axis == AXIS_NONE <==> forall i :: 0 <= i < |axes| ==> AxisValue(e, axes[i]) < CaptureThreshold
    ensures axis != AXIS_NONE ==> exists i :: (0 <= i < |axes| && axes[i] == axis
      && AxisValue(e, axis) >= CaptureThreshold
      && forall j :: 0 <= j < i ==> AxisValue(e, axes[j]) < CaptureThreshold)
    decreases |axes|
  {
    if axes == [] then AXIS_NONE
    else if AxisValue(e, axes[0]) >= CaptureThreshold then axes[0]
    else
      var rest := FirstTriggered(e, axes[1..]);
      assert forall i :: 1 <= i < |axes| ==> axes[i] == axes[1..][i - 1];
      rest
  }

  /** The axis a motion event is captured as, AXIS_NONE when none reaches the threshold. */
  function TriggeredAxis(e: MotionEvent): int32
  {
    FirstTriggered(e, CaptureAxes)
  }

  /** findTriggeredAxis: scan CaptureAxes in order and return the first axis at or above the threshold. */
  method FindTriggeredAxis(e: MotionEvent) returns (axis: int32)
    ensures axis == TriggeredAxis(e)
  {
    var i := 0;
    while i < |CaptureAxes|
      invariant 0 <= i <= |CaptureAxes|
      invariant AXIS_NONE !in CaptureAxes[i..]
      invariant FirstTriggered(e, CaptureAxes[i..]) == FirstTriggered(e, CaptureAxes)
    {
      var rest := CaptureAxes[i..];
      if AxisValue(e, rest[0]) >= CaptureThreshold {
        return rest[0];
      }
      assert rest[1..] == CaptureAxes[i + 1..];
      assert FirstTriggered(e, rest) == FirstTriggered(e, rest[1..]);
      i := i + 1;
    }
    return AXIS_NONE;
  }

  /** A captured axis is one of the scanned axes and its signed value reaches the threshold. */
  lemma TriggeredAxisReachesThreshold(e: MotionEvent)
    ensures TriggeredAxis(e) == AXIS_NONE
      || (TriggeredAxis(e) in CaptureAxes && AxisValue(e, TriggeredAxis(e)) >= CaptureThreshold)
  {
  }

  /**
   * The threshold is on the signed value: an input held in the negative
   * direction only (the right stick pushed up, which reads as a negative
   * AXIS_RY) is never captured.
   */
  lemma NegativeDeflectionIsNotCaptured(e: MotionEvent)
    requires forall i :: 0 <= i < |CaptureAxes| ==> AxisValue(e, CaptureAxes[i]) <= 0.0
    ensures FirstTriggered(e, CaptureAxes) == AXIS_NONE
  {
  }

  /** When the D-pad hat and the left stick both reach the threshold, the hat, scanned first, is the one captured. */
  lemma HatWinsOverStick(e: MotionEvent)
    requires AxisValue(e, AXIS_HAT_X) >= CaptureThreshold && AxisValue(e, AXIS_X) >= CaptureThreshold
    ensures FirstTriggered(e, CaptureAxes) == AXIS_HAT_X
  {
  }

  // ---------------------------------------------------------------------
  // The capture tables

  /** Every value of `m` is one of the codes `s` lists. */
  ghost predicate ValuesWithin(m: map<int32, int32>, s: seq<int32>)
  {
    forall k :: k in m ==> m[k] in s
  }

  ghost predicate DisjointValues(m1: map<int32, int32>, m2: map<int32, int32>)
  {
    forall k1, k2 :: k1 in m1 && k2 in m2 ==> m1[k1] != m2[k2]
  }

  /**
   * Recording `source -> s[i]` into one of two tables whose values are
   * among the codes answered before `i` keeps both tables injective and
   * their values apart, and brings the answered codes to `s[..i + 1]`.
   */
  lemma RecordKeepsTablesApart(m: map<int32, int32>, other: map<int32, int32>, s: seq<int32>, i: nat, source: int32)
    requires Distinct(s) && i < |s|
    requires ValuesWithin(m, s[..i]) && ValuesWithin(other, s[..i])
    requires Injective(m) && Injective(other) && DisjointValues(m, other) && DisjointValues(other, m)
    ensures ValuesWithin(m[source := s[i]], s[..i + 1]) && ValuesWithin(other, s[..i + 1])
    ensures Injective(m[source := s[i]])
    ensures DisjointValues(m[source := s[i]], other) && DisjointValues(other, m[source := s[i]])
  {
    assert s[i] !in s[..i] by {
      forall j | 0 <= j < i ensures s[..i][j] != s[i] {
      }
    }
    assert forall x :: x in s[..i] ==> x in s[..i + 1] by {
      assert s[..i + 1] == s[..i] + [s[i]];
    }
    assert s[i] in s[..i + 1] by {
      assert s[..i + 1] == s[..i] + [s[i]];
    }
  }

  /** The codes answered so far stay among the first `b` once `a <= b`. */
  lemma ValuesWithinLonger(m: map<int32, int32>, s: seq<int32>, a: nat, b: nat)
    requires a <= b <= |s| && ValuesWithin(m, s[..a])
    ensures ValuesWithin(m, s[..b])
  {
    forall k | k in m ensures m[k] in s[..b] {
      var j :| 0 <= j < a && s[..a][j] == m[k];
      assert s[..b][j] == m[k];
    }
  }

  // ---------------------------------------------------------------------
  // The view

  /** Whether the key listener records a key event: listening, not a repeat, a known code, from a gamepad. */
  predicate CapturesKey(listening: bool, e: KeyEvent)
    ensures !listening || e.repeatCount > 0 || e.keyCode == KEYCODE_UNKNOWN ==> !CapturesKey(listening, e)
    ensures !e.fromGamepadDevice && !e.isGamepadKey ==> !CapturesKey(listening, e)
  {
    listening && e.repeatCount <= 0 && e.keyCode != KEYCODE_UNKNOWN && (e.fromGamepadDevice || e.isGamepadKey)
  }

  /** Whether the motion listener records a motion event: listening, from a gamepad, and some axis reaches the threshold. */
  predicate CapturesMotion(listening: bool, e: MotionEvent)
    ensures CapturesMotion(listening, e) <==>
      && listening && (e.fromGamepadDevice || e.isGamepadMotion)
      && exists i :: 0 <= i < |CaptureAxes| && AxisValue(e, CaptureAxes[i]) >= CaptureThreshold
  {
    listening && (e.fromGamepadDevice || e.isGamepadMotion) && TriggeredAxis(e) != AXIS_NONE
  }

  class RemapperView {
    /** The debounce flag: captures are accepted only while it is set. */
    var isListening: bool
    /** The two capture tables: physical key code or axis -> target code. */
    var inputMapKeys: map<int32, int32>
    var inputMapMotions: map<int32, int32>
    /** The three lists `build` lays out, in lockstep. */
    var inputList: seq<int32>
    var drawableList: seq<string>
    var textList: seq<string>
    /** The position of the target being prompted for; -1 before the first. */
    var index: int
    /** Whether the `init` posted by the constructor has run (the listeners exist only from then on). */
    var initialized: bool
    /** The `isListening = true` callbacks posted with postDelayed and not yet run. */
    var pendingCallbacks: nat
    /** The Remapper passed to `listener.onRemapDone`, once the session is complete. */
    var handedOff: Option<Remapper>

    /** How many targets have been answered. */
    ghost function Answered(): int
      reads this
    {
      if handedOff.Some? then |inputList| else if index < 0 then 0 else index
    }

    /**
     * The session state, with the first `answered` targets answered: the
     * lists are in lockstep and name each target once, the pointer stays in
     * [-1, size - 1], every recorded target code is an answered one and is
     * recorded once (so both tables are injective and share no value), at
     * most one callback is pending and exactly while the view is deaf, and
     * a handed-off Remapper is the one built from the two tables.
     */
    ghost predicate Consistent(answered: int)
      reads this
    {
      && |drawableList| == |inputList| && |textList| == |inputList|
      && Distinct(inputList)
      && -1 <= index < |inputList|
      && 0 <= answered <= |inputList|
      && ValuesWithin(inputMapKeys, inputList[..answered])
      && ValuesWithin(inputMapMotions, inputList[..answered])
      && Injective(inputMapKeys) && Injective(inputMapMotions)
      && DisjointValues(inputMapKeys, inputMapMotions) && DisjointValues(inputMapMotions, inputMapKeys)
      && pendingCallbacks == (if isListening || handedOff.Some? then 0 else 1)
      && (handedOff.Some? ==>
            !isListening && index == |inputList| - 1
            && handedOff.value == RemapperOf(inputMapKeys, inputMapMotions))
    }

    ghost predicate Valid()
      reads this
    {
      && Consistent(Answered())
      && (!initialized ==>
            index == -1 && isListening && inputMapKeys == map[] && inputMapMotions == map[]
            && handedOff.None?)
      && (initialized && handedOff.None? ==> 0 <= index)
    }

    /** The lists show the prompts `ps`. */
    ghost predicate Shows(ps: seq<Prompt>)
      reads this
    {
      inputList == Inputs(ps) && drawableList == Drawables(ps) && textList == Texts(ps)
    }

    /** The view as inflated, before `build` fills its lists. */
    constructor()
      ensures isListening && index == -1 && !initialized
      ensures inputMapKeys == map[] && inputMapMotions == map[]
      ensures inputList == [] && drawableList == [] && textList == []
      ensures pendingCallbacks == 0 && handedOff.None?
    {
      isListening := true;
      inputMapKeys := map[];
      inputMapMotions := map[];
      inputList := [];
      drawableList := [];
      textList := [];
      index := -1;
      initialized := false;
      pendingCallbacks := 0;
      handedOff := None;
    }

    /**
     * incrementMappedPointer: move to the next target and post the callback
     * that re-enables listening, or, past the last target, hand the Remapper
     * built from the two tables to the listener. Either way the view is
     * deaf afterwards. Called only while listening, once the target at
     * `index` (if any) has been answered.
     */
    method IncrementMappedPointer()
      requires isListening && handedOff.None? && Consistent(index + 1)
      modifies this
      ensures !isListening
      ensures inputMapKeys == old(inputMapKeys) && inputMapMotions == old(inputMapMotions)
      ensures inputList == old(inputList) && drawableList == old(drawableList) && textList == old(textList)
      ensures initialized == old(initialized)
      ensures old(index) < |inputList| - 1 ==>
        index == old(index) + 1 && handedOff.None? && pendingCallbacks == 1
      ensures old(index) >= |inputList| - 1 ==>
        index == old(index) && handedOff == Some(RemapperOf(inputMapKeys, inputMapMotions))
        && pendingCallbacks == 0
      ensures Consistent(Answered())
    {
      if index < |inputList| - 1 {
        if isListening {
          index := index + 1;
          // postDelayed(() -> isListening = true, 800)
          pendingCallbacks := pendingCallbacks + 1;
        }
      } else {
        var remapper := NewRemapper(inputMapKeys, inputMapMotions);
        handedOff := Some(remapper);
      }
      isListening := false;
      if handedOff.Some? {
        ValuesWithinLonger(inputMapKeys, inputList, index + 1, |inputList|);
        ValuesWithinLonger(inputMapMotions, inputList, index + 1, |inputList|);
      }
    }

    /** init: the first increment; a non-empty session starts at its first target, an empty one completes at once. */
    method Init()
      requires Valid() && !initialized
      modifies this
      ensures Valid() && initialized
      ensures inputList == old(inputList) && drawableList == old(drawableList) && textList == old(textList)
      ensures inputMapKeys == map[] && inputMapMotions == map[] && !isListening
      ensures |inputList| > 0 ==> index == 0 && handedOff.None? && pendingCallbacks == 1
      ensures |inputList| == 0 ==> handedOff == Some(RemapperOf(map[], map[])) && pendingCallbacks == 0
    {
      IncrementMappedPointer();
      initialized := true;
    }

    /** The posted callback runs: listening resumes. */
    method RunPendingCallback()
      requires Valid() && pendingCallbacks > 0
      modifies this
      ensures Valid()
      ensures isListening && pendingCallbacks == 0
      ensures inputMapKeys == old(inputMapKeys) && inputMapMotions == old(inputMapMotions)
      ensures index == old(index) && handedOff == old(handedOff)
      ensures inputList == old(inputList) && drawableList == old(drawableList) && textList == old(textList)
      ensures initialized == old(initialized)
    {
      isListening := true;
      pendingCallbacks := pendingCallbacks - 1;
    }

    /**
     * The key listener: a key event from a gamepad, not an auto-repeat and
     * with a known code, arriving while listening, records
     * `keyCode -> inputList[index]` and advances; any other event changes
     * nothing. The event is always consumed.
     */
    method OnKey(e: KeyEvent) returns (consumed: bool)
      requires Valid() && initialized
      modifies this
      ensures consumed
      ensures Valid()
      ensures inputList == old(inputList) && drawableList == old(drawableList) && textList == old(textList)
      ensures initialized
      ensures !CapturesKey(old(isListening), e) ==> unchanged(this)
      ensures CapturesKey(old(isListening), e) ==>
        && inputMapKeys == old(inputMapKeys)[e.keyCode := old(inputList[index])]
        && inputMapMotions == old(inputMapMotions)
        && !isListening
        && (old(index) < |inputList| - 1 ==> index == old(index) + 1 && handedOff.None?)
        && (old(index) >= |inputList| - 1 ==>
              index == old(index) && handedOff == Some(RemapperOf(inputMapKeys, inputMapMotions)))
    {
      if !isListening {
        return true;
      }
      if e.repeatCount > 0 {
        return true;
      }
      if e.keyCode == KEYCODE_UNKNOWN {
        return true;
      }
      if e.fromGamepadDevice || e.isGamepadKey {
        RecordKeepsTablesApart(inputMapKeys, inputMapMotions, inputList, index, e.keyCode);
        inputMapKeys := inputMapKeys[e.keyCode := inputList[index]];
        IncrementMappedPointer();
      }
      return true;
    }

    /**
     * The generic motion listener: a gamepad motion event arriving while
     * listening records `axis -> inputList[index]` for the axis
     * findTriggeredAxis picks, and advances; when no axis reaches the
     * threshold, or for any other event, nothing changes. The event is
     * always consumed.
     */
    method OnGenericMotion(e: MotionEvent) returns (consumed: bool)
      requires Valid() && initialized
      modifies this
      ensures consumed
      ensures Valid()
      ensures inputList == old(inputList) && drawableList == old(drawableList) && textList == old(textList)
      ensures initialized
      ensures !CapturesMotion(old(isListening), e) ==> unchanged(this)
      ensures CapturesMotion(old(isListening), e) ==>
        && inputMapMotions == old(inputMapMotions)[TriggeredAxis(e) := old(inputList[index])]
        && inputMapKeys == old(inputMapKeys)
        && !isListening
        && (old(index) < |inputList| - 1 ==> index == old(index) + 1 && handedOff.None?)
        && (old(index) >= |inputList| - 1 ==>
              index == old(index) && handedOff == Some(RemapperOf(inputMapKeys, inputMapMotions)))
    {
      if !isListening {
        return true;
      }
      if e.fromGamepadDevice || e.isGamepadMotion {
        var axis := FindTriggeredAxis(e);
        if axis == AXIS_NONE {
          return true;
        }
        RecordKeepsTablesApart(inputMapMotions, inputMapKeys, inputList, index, axis);
        inputMapMotions := inputMapMotions[axis := inputList[index]];
        IncrementMappedPointer();
      }
      return true;
    }
  }

  /**
   * The Remapper a completed session hands off has injective tables, so its
   * reverse motion table is the exact inverse of the motion table: every
   * captured axis drives exactly the target it was captured for.
   */
  lemma HandedOffIsExact(view: RemapperView)
    requires view.Valid() && view.handedOff.Some?
    ensures view.handedOff.value.Valid()
    ensures Injective(view.handedOff.value.keyMap) && Injective(view.handedOff.value.motionMap)
    ensures forall p :: p in view.handedOff.value.motionMap ==>
      && view.handedOff.value.motionMap[p] in view.handedOff.value.reverseMotionMap
      && view.handedOff.value.reverseMotionMap[view.handedOff.value.motionMap[p]] == p
  {
    InjectiveReverseIsInverse(view.handedOff.value.motionMap);
  }

  /** A completed session is closed for good: deaf, with no callback left to re-enable it. */
  lemma CompletedSessionStaysClosed(view: RemapperView)
    requires view.Valid() && view.handedOff.Some?
    ensures !view.isListening && view.pendingCallbacks == 0
  {
  }

  // ---------------------------------------------------------------------
  // The Builder

  class Builder {
    /** The flags set to true. */
    var flags: set<Target>

    constructor()
      ensures flags == {}
    {
      flags := {};
    }

    /** The fifteen setters (`remapA(boolean)`, `remapDpad(boolean)`, ...), one per flag. */
    method Remap(t: Target, enabled: bool)
      modifies this
      ensures flags == if enabled then old(flags) + {t} else old(flags) - {t}
    {
      if enabled {
        flags := flags + {t};
      } else {
        flags := flags - {t};
      }
    }

    /**
     * build: inflate a view and append, for each set flag in turn, its
     * target codes, icons and prompt texts to the view's three lists.
     */
    method Build() returns (view: RemapperView)
      ensures fresh(view)
      ensures view.Valid() && !view.initialized
      ensures view.Shows(Selected(flags, FullPrompts))
      ensures |view.inputList| == |view.drawableList| == |view.textList|
    {
      var inputs, drawables, texts := LayOut(flags);
      LayoutDistinct(flags);
      view := new RemapperView();
      view.inputList := inputs;
      view.drawableList := drawables;
      view.textList := texts;
    }
  }

  /** One block of `build`: when the flag for `t` is set, append its target codes, icons and prompt texts. */
  method AddPrompts(flags: set<Target>, t: Target, inputs: seq<int32>, drawables: seq<string>, texts: seq<string>)
    returns (inputs': seq<int32>, drawables': seq<string>, texts': seq<string>)
    ensures inputs' == inputs + Inputs(Contribution(flags, t))
    ensures drawables' == drawables + Drawables(Contribution(flags, t))
    ensures texts' == texts + Texts(Contribution(flags, t))
  {
    inputs', drawables', texts' := inputs, drawables, texts;
    if t in flags {
      var ps := TargetPrompts(t);
      var i := 0;
      while i < |ps|
        invariant 0 <= i <= |ps|
        invariant inputs' == inputs + Inputs(ps[..i])
        invariant drawables' == drawables + Drawables(ps[..i])
        invariant texts' == texts + Texts(ps[..i])
      {
        ProjectionsSnoc(ps, i);
        inputs' := inputs' + [ps[i].input];
        drawables' := drawables' + [ps[i].drawable];
        texts' := texts' + [ps[i].text];
        i := i + 1;
      }
      assert ps[..i] == ps;
    } else {
      assert Contribution(flags, t) == [];
    }
  }

  /** The layout's target codes are the flags' contributions in `build` order. */
  lemma LayoutInputs(flags: set<Target>)
    ensures Inputs(Selected(flags, FullPrompts)) ==
      Inputs(Contribution(flags, A)) + Inputs(Contribution(flags, B)) + Inputs(Contribution(flags, X))
      + Inputs(Contribution(flags, Y)) + Inputs(Contribution(flags, Start)) + Inputs(Contribution(flags, Select))
      + Inputs(Contribution(flags, LeftJoystick)) + Inputs(Contribution(flags, LeftJoystickButton)) + Inputs(Contribution(flags, RightJoystick))
      + Inputs(Contribution(flags, RightJoystickButton)) + Inputs(Contribution(flags, LeftShoulder)) + Inputs(Contribution(flags, RightShoulder))
      + Inputs(Contribution(flags, LeftTrigger)) + Inputs(Contribution(flags, RightTrigger)) + Inputs(Contribution(flags, Dpad))
  {
    SelectedFull(flags);
    var all := Contribution(flags, A);
    ProjectionsAppend(all, Contribution(flags, B)); all := all + Contribution(flags, B);
    ProjectionsAppend(all, Contribution(flags, X)); all := all + Contribution(flags, X);
    ProjectionsAppend(all, Contribution(flags, Y)); all := all + Contribution(flags, Y);
    ProjectionsAppend(all, Contribution(flags, Start)); all := all + Contribution(flags, Start);
    ProjectionsAppend(all, Contribution(flags, Select)); all := all + Contribution(flags, Select);
    ProjectionsAppend(all, Contribution(flags, LeftJoystick)); all := all + Contribution(flags, LeftJoystick);
    ProjectionsAppend(all, Contribution(flags, LeftJoystickButton)); all := all + Contribution(flags, LeftJoystickButton);
    ProjectionsAppend(all, Contribution(flags, RightJoystick)); all := all + Contribution(flags, RightJoystick);
    ProjectionsAppend(all, Contribution(flags, RightJoystickButton)); all := all + Contribution(flags, RightJoystickButton);
    ProjectionsAppend(all, Contribution(flags, LeftShoulder)); all := all + Contribution(flags, LeftShoulder);
    ProjectionsAppend(all, Contribution(flags, RightShoulder)); all := all + Contribution(flags, RightShoulder);
    ProjectionsAppend(all, Contribution(flags, LeftTrigger)); all := all + Contribution(flags, LeftTrigger);
    ProjectionsAppend(all, Contribution(flags, RightTrigger)); all := all + Contribution(flags, RightTrigger);
    ProjectionsAppend(all, Contribution(flags, Dpad)); all := all + Contribution(flags, Dpad);
  }

  /** The layout's icons are the flags' contributions in `build` order. */
  lemma LayoutDrawables(flags: set<Target>)
    ensures Drawables(Selected(flags, FullPrompts)) ==
      Drawables(Contribution(flags, A)) + Drawables(Contribution(flags, B)) + Drawables(Contribution(flags, X))
      + Drawables(Contribution(flags, Y)) + Drawables(Contribution(flags, Start)) + Drawables(Contribution(flags, Select))
      + Drawables(Contribution(flags, LeftJoystick)) + Drawables(Contribution(flags, LeftJoystickButton)) + Drawables(Contribution(flags, RightJoystick))
      + Drawables(Contribution(flags, RightJoystickButton)) + Drawables(Contribution(flags, LeftShoulder)) + Drawables(Contribution(flags, RightShoulder))
      + Drawables(Contribution(flags, LeftTrigger)) + Drawables(Contribution(flags, RightTrigger)) + Drawables(Contribution(flags, Dpad))
  {
    SelectedFull(flags);
    var all := Contribution(flags, A);
    ProjectionsAppend(all, Contribution(flags, B)); all := all + Contribution(flags, B);
    ProjectionsAppend(all, Contribution(flags, X)); all := all + Contribution(flags, X);
    ProjectionsAppend(all, Contribution(flags, Y)); all := all + Contribution(flags, Y);
    ProjectionsAppend(all, Contribution(flags, Start)); all := all + Contribution(flags, Start);
    ProjectionsAppend(all, Contribution(flags, Select)); all := all + Contribution(flags, Select);
    ProjectionsAppend(all, Contribution(flags, LeftJoystick)); all := all + Contribution(flags, LeftJoystick);
    ProjectionsAppend(all, Contribution(flags, LeftJoystickButton)); all := all + Contribution(flags, LeftJoystickButton);
    ProjectionsAppend(all, Contribution(flags, RightJoystick)); all := all + Contribution(flags, RightJoystick);
    ProjectionsAppend(all, Contribution(flags, RightJoystickButton)); all := all + Contribution(flags, RightJoystickButton);
    ProjectionsAppend(all, Contribution(flags, LeftShoulder)); all := all + Contribution(flags, LeftShoulder);
    ProjectionsAppend(all, Contribution(flags, RightShoulder)); all := all + Contribution(flags, RightShoulder);
    ProjectionsAppend(all, Contribution(flags, LeftTrigger)); all := all + Contribution(flags, LeftTrigger);
    ProjectionsAppend(all, Contribution(flags, RightTrigger)); all := all + Contribution(flags, RightTrigger);
    ProjectionsAppend(all, Contribution(flags, Dpad)); all := all + Contribution(flags, Dpad);
  }

  /** The layout's prompt texts are the flags' contributions in `build` order. */
  lemma LayoutTexts(flags: set<Target>)
    ensures Texts(Selected(flags, FullPrompts)) ==
      Texts(Contribution(flags, A)) + Texts(Contribution(flags, B)) + Texts(Contribution(flags, X))
      + Texts(Contribution(flags, Y)) + Texts(Contribution(flags, Start)) + Texts(Contribution(flags, Select))
      + Texts(Contribution(flags, LeftJoystick)) + Texts(Contribution(flags, LeftJoystickButton)) + Texts(Contribution(flags, RightJoystick))
      + Texts(Contribution(flags, RightJoystickButton)) + Texts(Contribution(flags, LeftShoulder)) + Texts(Contribution(flags, RightShoulder))
      + Texts(Contribution(flags, LeftTrigger)) + Texts(Contribution(flags, RightTrigger)) + Texts(Contribution(flags, Dpad))
  {
    SelectedFull(flags);
    var all := Contribution(flags, A);
    ProjectionsAppend(all, Contribution(flags, B)); all := all + Contribution(flags, B);
    ProjectionsAppend(all, Contribution(flags, X)); all := all + Contribution(flags, X);
    ProjectionsAppend(all, Contribution(flags, Y)); all := all + Contribution(flags, Y);
    ProjectionsAppend(all, Contribution(flags, Start)); all := all + Contribution(flags, Start);
    ProjectionsAppend(all, Contribution(flags, Select)); all := all + Contribution(flags, Select);
    ProjectionsAppend(all, Contribution(flags, LeftJoystick)); all := all + Contribution(flags, LeftJoystick);
    ProjectionsAppend(all, Contribution(flags, LeftJoystickButton)); all := all + Contribution(flags, LeftJoystickButton);
    ProjectionsAppend(all, Contribution(flags, RightJoystick)); all := all + Contribution(flags, RightJoystick);
    ProjectionsAppend(all, Contribution(flags, RightJoystickButton)); all := all + Contribution(flags, RightJoystickButton);
    ProjectionsAppend(all, Contribution(flags, LeftShoulder)); all := all + Contribution(flags, LeftShoulder);
    ProjectionsAppend(all, Contribution(flags, RightShoulder)); all := all + Contribution(flags, RightShoulder);
    ProjectionsAppend(all, Contribution(flags, LeftTrigger)); all := all + Contribution(flags, LeftTrigger);
    ProjectionsAppend(all, Contribution(flags, RightTrigger)); all := all + Contribution(flags, RightTrigger);
    ProjectionsAppend(all, Contribution(flags, Dpad)); all := all + Contribution(flags, Dpad);
  }

  /** The body of `build` that fills the three lists: one block per flag, in the order `build` tests them. */
  method LayOut(flags: set<Target>) returns (inputs: seq<int32>, drawables: seq<string>, texts: seq<string>)
    ensures inputs == Inputs(Selected(flags, FullPrompts))
    ensures drawables == Drawables(Selected(flags, FullPrompts))
    ensures texts == Texts(Selected(flags, FullPrompts))
  {
    inputs, drawables, texts := AddPrompts(flags, A, [], [], []);
    assert inputs == Inputs(Contribution(flags, A)) && drawables == Drawables(Contribution(flags, A))
      && texts == Texts(Contribution(flags, A));
    inputs, drawables, texts := AddPrompts(flags, B, inputs, drawables, texts);
    inputs, drawables, texts := AddPrompts(flags, X, inputs, drawables, texts);
    inputs, drawables, texts := AddPrompts(flags, Y, inputs, drawables, texts);
    inputs, drawables, texts := AddPrompts(flags, Start, inputs, drawables, texts);
    inputs, drawables, texts := AddPrompts(flags, Select, inputs, drawables, texts);
    inputs, drawables, texts := AddPrompts(flags, LeftJoystick, inputs, drawables, texts);
    inputs, drawables, texts := AddPrompts(flags, LeftJoystickButton, inputs, drawables, texts);
    inputs, drawables, texts := AddPrompts(flags, RightJoystick, inputs, drawables, texts);
    inputs, drawables, texts := AddPrompts(flags, RightJoystickButton, inputs, drawables, texts);
    inputs, drawables, texts := AddPrompts(flags, LeftShoulder, inputs, drawables, texts);
    inputs, drawables, texts := AddPrompts(flags, RightShoulder, inputs, drawables, texts);
    inputs, drawables, texts := AddPrompts(flags, LeftTrigger, inputs, drawables, texts);
    inputs, drawables, texts := AddPrompts(flags, RightTrigger, inputs, drawables, texts);
    inputs, drawables, texts := AddPrompts(flags, Dpad, inputs, drawables, texts);
    LayoutInputs(flags);
    LayoutDrawables(flags);
    LayoutTexts(flags);
  }
}
