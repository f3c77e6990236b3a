# Gamepad_Remapper core, modelled in Dafny

Gamepad_Remapper is an Android library. It lets a player rebind a gamepad's
buttons and axes once, then reports every later gamepad event under the
logical code the player chose. This project models its three cooperating
parts:

- **Remapper**, the lookup engine. It holds two forward tables: physical key
  code → logical code (`keyMap`) and physical axis → logical axis
  (`motionMap`). Its constructors build a reverse table for each by a loop.
  - The key path normalises D-pad key codes to pseudo codes -10..-13,
    looks the code up with identity fallback, and reports 1 or 0.
  - The motion path reports eight fixed logical axes. Each is read from its
    physical source: a pass-through axis gives its raw value, any other
    source gives 0 or 1.
  - `save` writes both tables as string-keyed integer members of a JSON
    record. The loading constructor reads them back.
- **RemapperView** and its **Builder**, the capture session.
  - The Builder's flags choose the targets. `build` lays out three lists in
    lockstep: target code, icon and prompt text.
  - The view walks a pointer over those lists. Each accepted key press or
    axis deflection records `source → target` in one of two tables.
  - A debounce flag and an 800 ms callback separate captures.
  - After the last target, the view hands a Remapper built from the two
    tables to its listener.
- **RemapperManager**, the mode switch.
  - It loads the stored Remapper.
  - While it has a Remapper, it delegates events to it.
  - While it has none, it opens one capture view, swallows events, and
    installs and saves the Remapper the view hands back.

Modules:

| file | module | models |
|---|---|---|
| `wrappers.dfy` | `Wrappers` | Option and Result |
| `android_input.dfy` | `AndroidInput` | 32-bit codes, key and axis constants, events as values, emitted (code, value) pairs |
| `array_maps.dfy` | `ArrayMaps` | ArrayMap's ascending-key enumeration order; the reverse-table loop |
| `json_store.dfy` | `JsonStore` | JSON objects as ordered members; `String.valueOf(int)` and `Integer.valueOf(String)` |
| `remap.dfy` | `Remap` | the Remapper value, its constructor and the two event paths |
| `remap_store.dfy` | `RemapStore` | `save` and the loading constructor, and their round trip |
| `remapper_view.dfy` | `View` | the Builder, `build`'s layout, `findTriggeredAxis`, the capture session as a class |
| `remapper_manager.dfy` | `Manager` | RemapperManager as a class |

Calls into Android are parameters or fields of the model:

- the GamepadHandler callback becomes the returned list of emissions;
- the device and event classification becomes booleans carried by the event;
- SharedPreferences becomes the manager's `stored` field (the "default_map" record, `None` when absent);
- the main-thread timer becomes `RunPendingCallback`.

Behaviour of the code that a reader might not expect, as the model states it:

- A capture needs a signed axis value of at least 0.85, so a negative deflection never captures.
- The debounce delay is 800 ms.
- No deadzone or de-duplication is applied to reported values.
- A failed load leaves the manager without a Remapper only for JSONException. NumberFormatException escapes the manager's constructor.
- A captured D-pad key is stored under its raw key code, but lookup uses the normalised pseudo code, so it never matches (Remap.DpadKeyFallsBack).

## Model

| member | source | states |
|---|---|---|
| ArrayMaps.AscendingKeysEnumerates | Gamepad_Remapper/src/main/java/fr/spse/gamepad_remapper/Remapper.java:54-59 | ArrayMap enumeration visits every key of the table exactly once, in strictly ascending order |
| ArrayMaps.AscendingKeysOf | Gamepad_Remapper/src/main/java/fr/spse/gamepad_remapper/Remapper.java:54-59 | repeatedly taking the smallest key computes exactly that enumeration order |
| ArrayMaps.PutReversedKeys | Gamepad_Remapper/src/main/java/fr/spse/gamepad_remapper/Remapper.java:54-59 | after putting `value → key` for some entries, the reverse table's keys are exactly those entries' values |
| ArrayMaps.PutReversedMapsBack | Gamepad_Remapper/src/main/java/fr/spse/gamepad_remapper/Remapper.java:54-59 | every reverse entry names a visited key that maps to it |
| ArrayMaps.PutReversedKeepsLargest | Gamepad_Remapper/src/main/java/fr/spse/gamepad_remapper/Remapper.java:54-59 | in ascending order, the last write wins, so a value keeps its largest key |
| ArrayMaps.ReverseOfKeys | Gamepad_Remapper/src/main/java/fr/spse/gamepad_remapper/Remapper.java:54-59 | the reverse table's keys are exactly the forward table's values |
| ArrayMaps.ReverseOfMapsBack | Gamepad_Remapper/src/main/java/fr/spse/gamepad_remapper/Remapper.java:54-59 | each value of the reverse table maps back to a key whose forward value it is |
| ArrayMaps.ReverseOfKeepsLargest | Gamepad_Remapper/src/main/java/fr/spse/gamepad_remapper/Remapper.java:54-59 | each forward key's value maps back to that key or a larger one |
| ArrayMaps.ReverseOfIsReverse | Gamepad_Remapper/src/main/java/fr/spse/gamepad_remapper/Remapper.java:50-60 | the constructors' reverse table has keys exactly the forward values; each maps back to a key with that value, the largest such |
| ArrayMaps.IsReverseUnique | Gamepad_Remapper/src/main/java/fr/spse/gamepad_remapper/Remapper.java:97-102 | those three properties determine the reverse table, so the loading constructor and the table constructor build the same one |
| ArrayMaps.InjectiveReverseIsInverse | Gamepad_Remapper/src/main/java/fr/spse/gamepad_remapper/Remapper.java:50-60 | for an injective forward table, the reverse is its exact inverse and injective too |
| ArrayMaps.Invert | Gamepad_Remapper/src/main/java/fr/spse/gamepad_remapper/Remapper.java:54-59 | the constructor loop computes the reverse table, with the properties above |
| JsonStore.Lookup | Gamepad_Remapper/src/main/java/fr/spse/gamepad_remapper/Remapper.java:80-81 | a member is found exactly when the object has one with that name, and the value found is that member's |
| JsonStore.GetObject | Gamepad_Remapper/src/main/java/fr/spse/gamepad_remapper/Remapper.java:80-81 | an object found is the value of a member with that name; with no such member, JSONException |
| JsonStore.NatToStringDigits | Gamepad_Remapper/src/main/java/fr/spse/gamepad_remapper/Remapper.java:124 | the decimal form written for a key is a non-empty digit string denoting the key |
| JsonStore.IntToString | Gamepad_Remapper/src/main/java/fr/spse/gamepad_remapper/Remapper.java:124 | the written name is non-empty, starts with '-' exactly for negative keys, and its digits denote the key's magnitude |
| JsonStore.ParseInt | Gamepad_Remapper/src/main/java/fr/spse/gamepad_remapper/Remapper.java:87 | the empty string fails; a negative result comes from a leading '-'; a digit string within `int` range denotes its value |
| JsonStore.ParseIntToString | Gamepad_Remapper/src/main/java/fr/spse/gamepad_remapper/Remapper.java:84-88 | `Integer.valueOf(String.valueOf(i)) == i` for every 32-bit `i`, negative ones included |
| JsonStore.IntToStringInjective | Gamepad_Remapper/src/main/java/fr/spse/gamepad_remapper/Remapper.java:124 | different keys are written under different names, so no saved member overwrites another |
| Remap.NewRemapper | Gamepad_Remapper/src/main/java/fr/spse/gamepad_remapper/Remapper.java:50-60 | the constructor keeps both tables and builds reverse tables that satisfy IsReverse |
| Remap.TransformKeyEventInput | Gamepad_Remapper/src/main/java/fr/spse/gamepad_remapper/Remapper.java:246-252 | D-pad up/right/down/left become pseudo codes -10/-11/-12/-13; every other code is unchanged; no D-pad code remains |
| Remap.TransformKeyEventInputInjective | Gamepad_Remapper/src/main/java/fr/spse/gamepad_remapper/Remapper.java:246-252 | on real (non-negative) key codes, normalisation never merges two codes |
| Remap.RemappedKeySource | Gamepad_Remapper/src/main/java/fr/spse/gamepad_remapper/Remapper.java:189-192 | the reported code is the raw key code or one of the key table's logical codes |
| Remap.RemappedMotionSource | Gamepad_Remapper/src/main/java/fr/spse/gamepad_remapper/Remapper.java:195-198 | the axis read for a logical axis is the axis itself or a physical axis of the reverse motion table |
| Remap.RemappedKeyValue | Gamepad_Remapper/src/main/java/fr/spse/gamepad_remapper/Remapper.java:201-206 | the key value is 1 exactly for ACTION_DOWN or ACTION_MULTIPLE, otherwise 0 |
| Remap.RemappedMotionValue | Gamepad_Remapper/src/main/java/fr/spse/gamepad_remapper/Remapper.java:209-220 | an `isAxis` source passes its raw value; any other source gives 1 exactly when its magnitude is at least 0.5, else 0 |
| Remap.IsAxis | Gamepad_Remapper/src/main/java/fr/spse/gamepad_remapper/Remapper.java:223-229 | AXIS_RX and AXIS_RY are not pass-through axes |
| Remap.HandleKeyEventInput | Gamepad_Remapper/src/main/java/fr/spse/gamepad_remapper/Remapper.java:177-185 | handled exactly for a gamepad key with a known code that is not a repeat; then one emission under the resolved code with the key value, else none |
| Remap.HandleMotionEventInput | Gamepad_Remapper/src/main/java/fr/spse/gamepad_remapper/Remapper.java:157-169 | handled exactly for a gamepad motion; then eight emissions in the order HAT_X, HAT_Y, X, Y, RTRIGGER, LTRIGGER, Z, RZ, each valued from its resolved source, else none |
| Remap.UnmappedKeyPassesThrough | Gamepad_Remapper/src/main/java/fr/spse/gamepad_remapper/Remapper.java:189-192 | a key whose normalised code is unmapped is reported under its original, un-normalised code |
| Remap.DpadKeyFallsBack | Gamepad_Remapper/src/main/java/fr/spse/gamepad_remapper/Remapper.java:189-192 | with a key table whose keys are all non-negative, a D-pad key is never remapped |
| Remap.MappedKeyIsRemapped | Gamepad_Remapper/src/main/java/fr/spse/gamepad_remapper/Remapper.java:189-192 | a key whose normalised code is in the table, a D-pad key through its pseudo code, is reported under the logical code the table gives that normalised code |
| Remap.MotionSourceIsPhysical | Gamepad_Remapper/src/main/java/fr/spse/gamepad_remapper/Remapper.java:195-198 | a logical axis is read from itself when nothing maps onto it, otherwise from the largest physical axis mapped onto it |
| Remap.MappedAxisDrivesTarget | Gamepad_Remapper/src/main/java/fr/spse/gamepad_remapper/Remapper.java:157-169 | with an injective motion table, the emission for a logical axis carries the value of the physical axis mapped to it |
| Remap.EmptyMotionMapPassesThrough | Gamepad_Remapper/src/main/java/fr/spse/gamepad_remapper/Remapper.java:157-169 | with no motion mapping, all eight logical axes report their own raw values |
| Remap.RightStickSourcesAreDigitised | Gamepad_Remapper/src/main/java/fr/spse/gamepad_remapper/Remapper.java:223-228 | AXIS_RX and AXIS_RY are not pass-through axes, so a value read from them is always 0 or 1 |
| RemapStore.SaveTable | Gamepad_Remapper/src/main/java/fr/spse/gamepad_remapper/Remapper.java:121-137 | the save loop writes one `String.valueOf(key) → value` member per entry, in ArrayMap order |
| RemapStore.Save | Gamepad_Remapper/src/main/java/fr/spse/gamepad_remapper/Remapper.java:119-148 | the stored record holds "keyMap" then "motionMap", each the encoding of its table |
| RemapStore.DecodeTable | Gamepad_Remapper/src/main/java/fr/spse/gamepad_remapper/Remapper.java:83-95 | a table loads exactly when every member holds an integer under a numeric name, and then every member's key is in the table |
| RemapStore.DecodeRecord | Gamepad_Remapper/src/main/java/fr/spse/gamepad_remapper/Remapper.java:79-95 | an absent or non-object record fails with JSONException; a loaded pair is what the "keyMap" and "motionMap" objects decode to |
| RemapStore.LoadTable | Gamepad_Remapper/src/main/java/fr/spse/gamepad_remapper/Remapper.java:83-95 | the load loop reads members in order: a value that is not a 32-bit integer raises JSONException, a non-numeric name NumberFormatException, otherwise the entry is put; the first failure decides |
| RemapStore.DecodeErrorPersists | Gamepad_Remapper/src/main/java/fr/spse/gamepad_remapper/Remapper.java:83-88 | once a member fails to load, the members after it do not change the outcome |
| RemapStore.Load | Gamepad_Remapper/src/main/java/fr/spse/gamepad_remapper/Remapper.java:75-102 | the loading constructor gives the Remapper of the decoded tables, with valid reverse tables, or the first exception raised |
| RemapStore.DecodeEncodedEntries | Gamepad_Remapper/src/main/java/fr/spse/gamepad_remapper/Remapper.java:83-95 | loading the members written for any list of keys puts back exactly those entries |
| RemapStore.TableRoundTrip | Gamepad_Remapper/src/main/java/fr/spse/gamepad_remapper/Remapper.java:121-137 | loading a saved table gives back the table |
| RemapStore.EncodeTableNamesUnique | Gamepad_Remapper/src/main/java/fr/spse/gamepad_remapper/Remapper.java:121-128 | a saved table never writes two members under one name, so the record is a JSONObject whose names are unique |
| RemapStore.DecodeSavedLayout | Gamepad_Remapper/src/main/java/fr/spse/gamepad_remapper/Remapper.java:79-81 | a record with "keyMap" then "motionMap" decodes to what its two tables decode to, the key table's failure first |
| RemapStore.RecordRoundTrip | Gamepad_Remapper/src/main/java/fr/spse/gamepad_remapper/Remapper.java:75-148 | parsing the record `save` wrote gives back both tables |
| RemapStore.SaveLoadRoundTrip | Gamepad_Remapper/src/main/java/fr/spse/gamepad_remapper/Remapper.java:75-148 | loading the record `save` wrote reproduces the saved Remapper, reverse tables included |
| RemapStore.MissingTableFails | Gamepad_Remapper/src/main/java/fr/spse/gamepad_remapper/Remapper.java:79-81 | a record lacking "keyMap" or "motionMap" fails with JSONException |
| RemapStore.BadKeyNameFails | Gamepad_Remapper/src/main/java/fr/spse/gamepad_remapper/Remapper.java:84-88 | a member named "up" fails with NumberFormatException, not JSONException |
| View.FullPromptsByTarget | Gamepad_Remapper/src/main/java/fr/spse/gamepad_remapper/RemapperView.java:387-476 | the eighteen prompts are the flags' prompts, one flag after another in `build` order |
| View.SelectedAppend | Gamepad_Remapper/src/main/java/fr/spse/gamepad_remapper/RemapperView.java:387-476 | filtering by flags distributes over concatenation |
| View.SelectedUniform | Gamepad_Remapper/src/main/java/fr/spse/gamepad_remapper/RemapperView.java:387-476 | prompts that all belong to one flag are all kept when it is set and all dropped otherwise |
| View.SelectedTarget | Gamepad_Remapper/src/main/java/fr/spse/gamepad_remapper/RemapperView.java:387-476 | a flag's own prompts are all kept when it is set and all dropped otherwise |
| View.SelectedMembers | Gamepad_Remapper/src/main/java/fr/spse/gamepad_remapper/RemapperView.java:387-476 | a prompt is laid out exactly when it is one of the eighteen and its flag is set |
| View.SelectedDistinct | Gamepad_Remapper/src/main/java/fr/spse/gamepad_remapper/RemapperView.java:387-476 | filtering keeps distinct target codes distinct |
| View.SelectedStep | Gamepad_Remapper/src/main/java/fr/spse/gamepad_remapper/RemapperView.java:387-476 | one more flag's prompts add that flag's contribution to the layout |
| View.SelectedFull | Gamepad_Remapper/src/main/java/fr/spse/gamepad_remapper/RemapperView.java:387-476 | the layout is the fifteen flags' contributions concatenated in `build` order |
| View.SelectedWithOneMore | Gamepad_Remapper/src/main/java/fr/spse/gamepad_remapper/RemapperView.java:387-476 | setting one more flag keeps every prompt laid out before and adds exactly that flag's prompts, so the layout grows by their number |
| View.FlagAddsWidth | Gamepad_Remapper/src/main/java/fr/spse/gamepad_remapper/RemapperView.java:417-476 | each stick and the D-pad add two targets; every other flag adds one |
| View.NoFlagsNoPrompts | Gamepad_Remapper/src/main/java/fr/spse/gamepad_remapper/RemapperView.java:387-476 | with no flag set, nothing is prompted for |
| View.ProjectionsAppend | Gamepad_Remapper/src/main/java/fr/spse/gamepad_remapper/RemapperView.java:387-476 | the three lists of concatenated prompts are the concatenations of their lists |
| View.ProjectionsSnoc | Gamepad_Remapper/src/main/java/fr/spse/gamepad_remapper/RemapperView.java:388-390 | appending one prompt appends its code, icon and text to the three lists |
| View.FullPromptsDistinct | Gamepad_Remapper/src/main/java/fr/spse/gamepad_remapper/RemapperView.java:387-476 | the eighteen target codes are pairwise different |
| View.LayoutDistinct | Gamepad_Remapper/src/main/java/fr/spse/gamepad_remapper/RemapperView.java:387-476 | whatever the flags, no target code is prompted for twice |
| View.AddPrompts | Gamepad_Remapper/src/main/java/fr/spse/gamepad_remapper/RemapperView.java:387-391 | one `if(remapX)` block appends the flag's codes, icons and texts when the flag is set, and nothing otherwise |
| View.LayoutInputs | Gamepad_Remapper/src/main/java/fr/spse/gamepad_remapper/RemapperView.java:387-476 | the layout's target codes are the flags' contributions in `build` order |
| View.LayoutDrawables | Gamepad_Remapper/src/main/java/fr/spse/gamepad_remapper/RemapperView.java:387-476 | the layout's icons are the flags' contributions in `build` order |
| View.LayoutTexts | Gamepad_Remapper/src/main/java/fr/spse/gamepad_remapper/RemapperView.java:387-476 | the layout's prompt texts are the flags' contributions in `build` order |
| View.LayOut | Gamepad_Remapper/src/main/java/fr/spse/gamepad_remapper/RemapperView.java:387-476 | the fifteen blocks leave the three lists equal to the codes, icons and texts of the eighteen prompts filtered by the flags |
| View.FirstTriggered | Gamepad_Remapper/src/main/java/fr/spse/gamepad_remapper/RemapperView.java:207-214 | AXIS_NONE exactly when every scanned axis is below 0.85; otherwise the first axis, in scan order, whose signed value reaches 0.85 |
| View.FindTriggeredAxis | Gamepad_Remapper/src/main/java/fr/spse/gamepad_remapper/RemapperView.java:207-214 | the ordered scan with early return computes TriggeredAxis, the first of HAT_X, HAT_Y, RX, RY, X, Y, Z, RZ, BRAKE, THROTTLE, RTRIGGER, LTRIGGER whose signed value reaches 0.85, else AXIS_NONE |
| View.TriggeredAxisReachesThreshold | Gamepad_Remapper/src/main/java/fr/spse/gamepad_remapper/RemapperView.java:207-214 | a captured axis is one of the scanned axes and its signed value reaches 0.85 |
| View.NegativeDeflectionIsNotCaptured | Gamepad_Remapper/src/main/java/fr/spse/gamepad_remapper/RemapperView.java:209 | the threshold is on the signed value, so an input held only in the negative direction is never captured |
| View.CapturesKey | Gamepad_Remapper/src/main/java/fr/spse/gamepad_remapper/RemapperView.java:134-137 | a deaf view, a repeat, an unknown code, or a key neither from a gamepad nor a gamepad key each prevent a key capture |
| View.CapturesMotion | Gamepad_Remapper/src/main/java/fr/spse/gamepad_remapper/RemapperView.java:154-159 | a motion is captured exactly while listening, from a gamepad, with some scanned axis's signed value at 0.85 or more |
| View.HatWinsOverStick | Gamepad_Remapper/src/main/java/fr/spse/gamepad_remapper/RemapperView.java:208 | when the hat and the left stick both reach the threshold, the hat, scanned first, is captured |
| View.RecordKeepsTablesApart | Gamepad_Remapper/src/main/java/fr/spse/gamepad_remapper/RemapperView.java:139 | recording the current target keeps both capture tables injective and their values apart, since every target code appears once |
| View.ValuesWithinLonger | Gamepad_Remapper/src/main/java/fr/spse/gamepad_remapper/RemapperView.java:184-199 | codes answered among the first targets stay among any longer prefix |
| View.RemapperView.constructor | Gamepad_Remapper/src/main/java/fr/spse/gamepad_remapper/RemapperView.java:69-85 | a new view listens, has empty tables and lists, and points at -1 |
| View.RemapperView.IncrementMappedPointer | Gamepad_Remapper/src/main/java/fr/spse/gamepad_remapper/RemapperView.java:184-199 | before the last target, the pointer moves by one and a callback is posted; at the last, the Remapper of the two tables is handed off; either way the view goes deaf and its invariant holds |
| View.RemapperView.Init | Gamepad_Remapper/src/main/java/fr/spse/gamepad_remapper/RemapperView.java:127-128 | a non-empty session starts at target 0; an empty one completes at once with two empty tables |
| View.RemapperView.RunPendingCallback | Gamepad_Remapper/src/main/java/fr/spse/gamepad_remapper/RemapperView.java:189 | the delayed callback re-enables listening and changes nothing else |
| View.RemapperView.OnKey | Gamepad_Remapper/src/main/java/fr/spse/gamepad_remapper/RemapperView.java:130-147 | off while deaf, for repeats, unknown codes and non-gamepad keys the view is unchanged; otherwise `keyCode → inputList[index]` is written to the key table only, then the pointer advances; always consumed |
| View.RemapperView.OnGenericMotion | Gamepad_Remapper/src/main/java/fr/spse/gamepad_remapper/RemapperView.java:150-168 | the same for motions: unchanged unless listening, from a gamepad and some axis triggers; then the triggered axis is written to the motion table only and the pointer advances |
| View.HandedOffIsExact | Gamepad_Remapper/src/main/java/fr/spse/gamepad_remapper/RemapperView.java:194 | the handed-off Remapper is valid with injective tables, so each captured axis drives exactly the target it was captured for |
| View.CompletedSessionStaysClosed | Gamepad_Remapper/src/main/java/fr/spse/gamepad_remapper/RemapperView.java:193-198 | after completion the view is deaf and no callback is left to re-enable it |
| View.Builder.constructor | Gamepad_Remapper/src/main/java/fr/spse/gamepad_remapper/RemapperView.java:290-302 | a new Builder has every flag false |
| View.Builder.Remap | Gamepad_Remapper/src/main/java/fr/spse/gamepad_remapper/RemapperView.java:304-377 | each setter sets or clears its own flag only |
| View.Builder.Build | Gamepad_Remapper/src/main/java/fr/spse/gamepad_remapper/RemapperView.java:380-476 | a fresh, valid, not yet initialised view whose three equal-length lists show the flags' prompts |
| Manager.SavedRemapperIsRestored | Gamepad_Remapper/src/main/java/fr/spse/gamepad_remapper/RemapperManager.java:25-33 | a manager created after a save restores exactly the saved Remapper |
| Manager.NothingStoredStartsEmpty | Gamepad_Remapper/src/main/java/fr/spse/gamepad_remapper/RemapperManager.java:26-31 | with nothing stored, loading raises JSONException and the manager starts without a Remapper |
| Manager.BadKeyNameEscapes | Gamepad_Remapper/src/main/java/fr/spse/gamepad_remapper/RemapperManager.java:26-31 | a stored member with a non-numeric name makes creation fail, since only JSONException is caught |
| Manager.RemapperManager.Create | Gamepad_Remapper/src/main/java/fr/spse/gamepad_remapper/RemapperManager.java:25-33 | the loaded Remapper, none after JSONException, or failure after NumberFormatException; never a view |
| Manager.RemapperManager.BuildView | Gamepad_Remapper/src/main/java/fr/spse/gamepad_remapper/RemapperManager.java:60-77 | false exactly when a Remapper is present; an existing view is kept; otherwise a fresh view of the Builder's prompts is built |
| Manager.RemapperManager.HandleKeyEventInput | Gamepad_Remapper/src/main/java/fr/spse/gamepad_remapper/RemapperManager.java:54-57 | with a Remapper, its key result and no view; without one, handled with nothing delegated, an open view kept, otherwise a fresh view of the Builder's prompts opened |
| Manager.RemapperManager.HandleMotionEventInput | Gamepad_Remapper/src/main/java/fr/spse/gamepad_remapper/RemapperManager.java:42-45 | with a Remapper, its motion result and no view; without one, handled with nothing delegated, an open view kept, otherwise a fresh view of the Builder's prompts opened |
| Manager.RemapperManager.OnRemapDone | Gamepad_Remapper/src/main/java/fr/spse/gamepad_remapper/RemapperManager.java:66-73 | the view is dropped; a returned Remapper is installed and saved; none leaves Remapper and record as they were; the stored record always restores the held Remapper |

## Left out

- Drawing, the dialog, focus handling, the prompt text and icon lookups, and the colours of RemapperView are left out. They are user interface. Icons and texts appear only as resource names.
- `isGamepadMotionEvent`, `isGamepadKeyEvent`, `isDpadKeyEvent` and `isGamepadDevice` query InputDevice source bits. They are booleans carried by the events.
- JSON text is not modelled: `toString` and parsing are left out. A stored record is a JSON value; text that does not parse is a non-object value, which fails with JSONException like a missing record.
- RemapStore.LoadTable: `getInt` is modelled as accepting 32-bit integers only. The real `getInt` converts any JSON number with `intValue()` (2.5 loads as 2, a long outside `int` range wraps) and also numeric strings; the model raises JSONException for all of these (they are `JOther`). `save` writes only 32-bit integers, so records it wrote are unaffected.
- JsonStore.ParseInt: accepts ASCII digits only; Java's `Integer.valueOf` also accepts other Unicode decimal digits.
- The 800 ms `postDelayed` timer is not real time. `RunPendingCallback` is the callback firing, and `pendingCallbacks` counts the posted callbacks.
- Axis values are `real`, not 32-bit `float`; only comparisons and pass-through happen on them.
- RemapperUtils.java, Settings.java, GamepadHandler.java and MainActivity.java are not part of this model. Settings' deadzone scale is read by no modelled code. No deadzone, hysteresis or change-deduplication exists in the modelled code.
- The unused private helpers of Remapper.java:233-290 (its own `findTriggeredAxis`, `transformMotionEventInput`, `transformMotionEventOutput`) have no callers and are left out.
- The table constructor is modelled for ArrayMap arguments, the only kind its caller passes (RemapperView.java:72-73). For another `Map`, whose enumeration order differs, a value mapped from several keys could keep a key other than the largest in the reverse table.
- Records with repeated member names are not given org.json's meaning. `JsonStore.Lookup` takes the first member with a name, where a parsed JSONObject keeps the last value. Objects org.json builds have unique names (`JsonStore.UniqueNames`), and `save` writes unique names (RemapStore.EncodeTableNamesUnique).
- Aliasing of the tables is left out. The table constructor keeps the caller's maps by reference, and the capture view's maps are the handed-off Remapper's. Tables are values here.
- The manager calls `builder.setRemapListener` and a `build(context)` that returns the view, but the Builder shown keeps a final listener and its `build` returns nothing. Here, Builder.Build returns the view, and the listener is the manager's OnRemapDone, called with the view's handed-off Remapper.
- The try/catch blocks in `save` never fire for the names and values written, so no error path is modelled for saving.
- View.LayOut: appends each flag's icons and texts prompt by prompt. The D-pad and stick blocks add both codes first, then the icons and texts; the final lists are the same.
- RemapperManager's context-dependent logging (`Log.e`) is left out.
