# Real hand GUI and example rules in Dafny

This project models the rules that the real-hand SDK's Python GUI and example
scripts apply before they call the hand driver. The driver itself
(`RealHandApi` / `LinkerHandApi`) is not part of this model: each call made on
it is recorded as a `Driver.Command` value, in the order it is issued.

- **Touch heat map** (`DotMatrix`, `MatrixDisplay`). Each finger has a 12x6 dot
  matrix. A positive reading is clamped to 0..255 and drawn from white to dark
  red using Python's integer `//`. A dot with no data, no element at its index,
  or a reading of 0 or less is gray. Data arriving for a finger is normalised
  first: a 2-D list is flattened row-major, a 1-D list is passed through, and
  missing data becomes 72 zeros.
- **Hand API manager** (`HandApi`). The manager picks the left hand if it is
  configured, otherwise the right one. It broadcasts one speed or torque value
  over a number of channels that depends on the model name, and only the
  six-joint names are compared without regard to case. It reports every
  outcome as a status signal. It polls the touch sensors, but not while a
  publish holds the lock.
- **Control window** (`ControlGui`). Sliders with labels and a value panel.
  A preset applies only when its length equals the slider count. A cycle
  timer walks the presets modulo their number. The status log keeps at most
  10000 old characters below each new entry.
- **Views** (`LeftView`, `RightView`). The slider bank has its Open/Close
  toggle. The action-button grid wraps at two columns.
- **Example scripts** (`GetStatus`, `DynamicGrasping`). The L7 padding rule
  appends `[100, 100]` to a five-value list. The grasp pose is rewritten in
  place as a linear function of the object's diameter.

Widgets are plain values: a slider is an `int`, a label a `string`, a button a
text with its grid cell. Objects whose fields the source updates in place
(`HandApiManager`, `HandControlGUI`, `MatrixDisplayWidget`, `DotMatrixWidget`,
`LeftView`, `RightView`) are classes. Their methods are proved against pure
functions (`DotColour`, `Flattened`, `PollTouch`, `NextActionIndex`,
`PrependToLog`, `PosAfter`, `Overlay`, `Snapshots`, `GraspPose`), and the
lemmas state the properties of those functions.

Files: `wrappers.dfy`, `driver.dfy`, `text.dfy` (the Python string operations
used), `dot_matrix.dfy`, `matrix_display.dfy`, `hand_api.dfy`,
`control_gui.dfy`, `left_view.dfy`, `right_view.dfy`, `get_status.dfy`,
`dynamic_grasping.dfy`.

## Model

| member | source | states |
|---|---|---|
| Text.Strip | example/gui_control/views/right_view.py:85 | `str.strip()` never lengthens the text |
| Text.StripTrims | example/gui_control/views/right_view.py:85 | `str.strip()` returns the slice of the input that has only whitespace before and after it; the result is empty exactly when the input is all Python whitespace, and otherwise has no whitespace at either end |
| Text.NatToString | example/gui_control/gui_control.py:837 | `str(n)` for n >= 0 is never empty and starts with a digit |
| Text.NatToStringDigits | example/gui_control/gui_control.py:837 | `str(n)` for n >= 0 is all decimal digits with no leading zero, and those digits denote n |
| Text.IntToString | example/gui_control/gui_control.py:837 | `str(n)` is never empty and starts with a minus sign exactly when n is negative |
| Text.IntToStringValue | example/gui_control/gui_control.py:837 | the digits of `str(n)`, after the minus sign if there is one, denote the absolute value of n |
| Text.JointLabelParts | example/gui_control/gui_control.py:837 | the label `f"{name}: {value}"` is the name, then ": ", then `str(value)`, whose digits denote the value |
| Text.JoinIntsSnoc | example/gui_control/gui_control.py:845 | the elements of a list repr are written in order: one more element adds ", " and its `str` at the end |
| Text.FormatIntListInner | example/gui_control/gui_control.py:845 | between its brackets a list repr holds exactly the joined elements |
| Text.FormatIntListSingle | example/gui_control/gui_control.py:845 | a one-element list prints as `[` + `str(x)` + `]` |
| Text.FormatIntListSnoc | example/gui_control/gui_control.py:845 | the repr of a list with one more element is the old elements, ", ", and the new element's `str`, in brackets |
| Text.ContainsIff | example/gui_control/gui_control.py:951 | `sub in s` holds if and only if `sub` occurs at some position of `s` |
| Text.Upper | example/gui_control/gui_control.py:357 | `upper()` maps each character to its upper-case form and keeps the length |
| Text.FormatIntList | example/gui_control/gui_control.py:845 | a list of ints prints in brackets, and as `[]` exactly when it is empty |
| DotMatrix.DotColour | example/gui_control/gui_control.py:74-113 | a dot with no data or no element at its index is gray; every other colour is a heat colour, with red 255 and green equal to blue |
| DotMatrix.Clamp | example/gui_control/gui_control.py:91 | `min(255, max(0, v))` lies in 0..255, keeps in-range values and saturates at both ends |
| DotMatrix.HeatGreen | example/gui_control/gui_control.py:93-103 | the green level is 201..255 below intensity 128 and 0..200 from 128 on |
| DotMatrix.HeatColour | example/gui_control/gui_control.py:89-104 | red is always 255, green equals blue, and green lies in the intensity's band |
| DotMatrix.HeatGreenMonotone | example/gui_control/gui_control.py:93-103 | green never increases as the intensity grows |
| DotMatrix.DotColourGray | example/gui_control/gui_control.py:74-113 | a dot is gray if and only if there is no data, its index is past the data, the element is not a number, or the reading is 0 or less |
| DotMatrix.DotColourPositive | example/gui_control/gui_control.py:89-104 | a positive reading gives the heat colour of its clamped intensity, with red 255 |
| DotMatrix.DotColourMonotone | example/gui_control/gui_control.py:89-104 | a larger positive reading never gives a lighter dot |
| DotMatrix.DotMatrixWidget.constructor | example/gui_control/gui_control.py:31-43 | a new widget has its rows and columns and no data |
| DotMatrix.DotMatrixWidget.SetData | example/gui_control/gui_control.py:45-59 | `set_data` stores the data it is given, or None |
| DotMatrix.DotMatrixWidget.PaintEvent | example/gui_control/gui_control.py:61-113 | the paint loop colours rows*cols dots, and dot row*cols+col gets `DotColour` of the held data at that index |
| MatrixDisplay.Zeros | example/gui_control/gui_control.py:218 | `[0] * n` has n elements, all zero |
| MatrixDisplay.Expand | example/gui_control/gui_control.py:204-209 | a row is spread into its numbers in order; anything else is appended as itself |
| MatrixDisplay.FlattenedOfScalars | example/gui_control/gui_control.py:204-209 | on a list that holds only numbers the 2-D path returns the list unchanged |
| MatrixDisplay.Normalized | example/gui_control/gui_control.py:190-223 | None becomes the 72-zero matrix; 1-D data (empty, or a number first) is passed through; data with a row first is flattened, and then holds only numbers |
| MatrixDisplay.FlattenedScalars | example/gui_control/gui_control.py:200-209 | the 2-D path leaves only numbers |
| MatrixDisplay.FlattenedGridLength | example/gui_control/gui_control.py:201-209 | flattening rows of width w gives rows*w cells |
| MatrixDisplay.FlattenedGridSnoc | example/gui_control/gui_control.py:204-209 | flattening a grid appends the last row's numbers to the flattening of the other rows |
| MatrixDisplay.FlattenedGridAt | example/gui_control/gui_control.py:201-209 | flattening is row-major: cell (r, c) lands at index r*w+c |
| MatrixDisplay.GridDotColour | example/gui_control/gui_control.py:190-214 | for a 12x6 matrix, dot (r, c) shows reading rows[r][c] once normalised |
| MatrixDisplay.AbsentIsAllGray | example/gui_control/gui_control.py:220-223 | None data becomes 72 zeros, and every dot is gray |
| MatrixDisplay.FlatDataPassesThrough | example/gui_control/gui_control.py:210-212 | 1-D data (empty, or a number first) reaches the widget unchanged |
| MatrixDisplay.Flatten | example/gui_control/gui_control.py:204-209 | the `extend`/`append` loop computes `Flattened` of its input |
| MatrixDisplay.MatrixDisplayWidget.constructor | example/gui_control/gui_control.py:123-188 | the five finger keys each map to a fresh, distinct 12x6 widget with no data |
| MatrixDisplay.MatrixDisplayWidget.UpdateMatrixData | example/gui_control/gui_control.py:190-223 | an unknown finger changes nothing; a known finger's widget gets the normalised data and the others keep theirs |
| MatrixDisplay.MatrixDisplayWidget.InitializeDefaultMatrices | example/gui_control/gui_control.py:225-229 | every finger's widget holds the 72-zero matrix |
| MatrixDisplay.MatrixDisplayWidget.UpdateMatrixDisplay | example/gui_control/gui_control.py:828-831 | every finger named in the dictionary gets its normalised data, and the others are unchanged |
| HandApi.SelectSide | example/gui_control/gui_control.py:257-266 | left is chosen if and only if it exists; right if and only if left does not exist and right does; none otherwise |
| HandApi.SelectedEntry | example/gui_control/gui_control.py:267-280 | the left side reads the `LEFT_HAND` entry and the right side the `RIGHT_HAND` entry |
| HandApi.ChannelCount | example/gui_control/gui_control.py:356-364 | the count is 6 if and only if the upper-cased name is O6 or L6, 7 if and only if the name is exactly L7, 10 if and only if exactly L10, and 5 otherwise |
| HandApi.ChannelCountCaseQuirk | example/gui_control/gui_control.py:357-364 | "o6" and "l6" give 6, but "l7" and "l10" give 5 |
| HandApi.Broadcast | example/gui_control/gui_control.py:366 | `[val] * joint_len` has one copy of the value per channel of the model |
| HandApi.PollTouch | example/gui_control/gui_control.py:295-332 | a poll emits if and only if the API exists, touch is on and the lock is free; it emits the five fingers' readings, or 72 zeros each when reading failed |
| HandApi.HandApiManager.constructor | example/gui_control/gui_control.py:236-249 | takes the selected side's settings, sets the left flag exactly when a left hand is configured and the right flag only when there is none, has a driver, starts the poll with the lock free, and reports the successful initialisation |
| HandApi.HandApiManager.InitRealHandType | example/gui_control/gui_control.py:251-284 | the left hand wins, the two sides are never both chosen, and the joint, type, touch, CAN and Modbus fields come from the chosen side; only those fields change |
| HandApi.HandApiManager.TakeEntry | example/gui_control/gui_control.py:267-280 | the chosen hand's joint, touch, CAN and Modbus settings and its side name become the manager's, and the hand exists |
| HandApi.HandApiManager.PublishJointState | example/gui_control/gui_control.py:334-347 | without an API: only the error status; otherwise one `finger_move`, a sent or failed status, and the lock free again |
| HandApi.HandApiManager.PublishSpeed | example/gui_control/gui_control.py:349-372 | without an API: only the error status; otherwise `set_speed` with the broadcast list and the matching status text |
| HandApi.HandApiManager.PublishTorque | example/gui_control/gui_control.py:374-397 | without an API: only the error status; otherwise `set_torque` with the broadcast list and the matching status text |
| HandApi.HandApiManager.UpdateMatrixData | example/gui_control/gui_control.py:295-332 | one tick of the poll emits exactly `PollTouch` of the current state |
| HandApi.HandApiManager.Shutdown | example/gui_control/gui_control.py:399-408 | with a driver, `close_can` and its status are issued; the poll always stops |
| ControlGui.NextActionIndex | example/gui_control/gui_control.py:918 | the next index is below the preset count and wraps to 0 after the last preset |
| ControlGui.IndexAfterRuns | example/gui_control/gui_control.py:901-918 | after any number of runs from -1, the index stays within -1..count-1 |
| ControlGui.CycleVisitsInOrder | example/gui_control/gui_control.py:901-918 | the k-th run of a fresh cycle (from 0) executes preset k mod count |
| ControlGui.MismatchWarning | example/gui_control/gui_control.py:850-853 | the warning is titled "Action Mismatch"; its text starts with the preset's joint count in brackets and ends with the slider count in brackets |
| ControlGui.LogEntry | example/gui_control/gui_control.py:958 | the entry is "[", the time, "] ", the message and a newline, in that order |
| ControlGui.PrependToLog | example/gui_control/gui_control.py:961-964 | the new log is the entry followed by the last min(10000, old length) characters of the old log, so it is at most the entry length plus 10000 |
| ControlGui.ShortLogKeptWhole | example/gui_control/gui_control.py:961-964 | a log of at most 10000 characters is kept whole behind the new entry |
| ControlGui.HandControlGui.constructor | example/gui_control/gui_control.py:414-439 | one slider per joint at its initial position, no cycle, the publish timer running; the cycle button reads "Cycle Preset Actions", the connection label "Hand API Connected" and the log "Waiting for system startup..." in the info style (init_ui, lines 651, 759 and 789-791) |
| ControlGui.HandControlGui.CreateJointSliders | example/gui_control/gui_control.py:598-631 | one slider and one "name: value" label per (joint name, initial position) pair |
| ControlGui.HandControlGui.OnSliderValueChanged | example/gui_control/gui_control.py:833-845 | the moved slider's label and the value panel follow the slider values |
| ControlGui.HandControlGui.UpdateValueDisplay | example/gui_control/gui_control.py:842-845 | the value panel shows the list repr of the slider values |
| ControlGui.HandControlGui.PublishJointState | example/gui_control/gui_control.py:943-946 | the current slider values are handed to the API manager |
| ControlGui.HandControlGui.OnPresetActionClicked | example/gui_control/gui_control.py:847-862 | a preset of the wrong length changes no slider, publishes nothing and raises the mismatch warning; otherwise the sliders become the preset, which is published once |
| ControlGui.HandControlGui.OnHomeClicked | example/gui_control/gui_control.py:864-873 | every slider returns to its initial position, which is published, and "Return to Home" is reported |
| ControlGui.HandControlGui.OnStopClicked | example/gui_control/gui_control.py:875-884 | a running cycle stops and its button is reset; "All actions stopped" is always reported |
| ControlGui.HandControlGui.RunNextAction | example/gui_control/gui_control.py:909-933 | the index advances modulo the preset count, that preset is applied and highlighted, and its name is reported; with no presets nothing changes |
| ControlGui.HandControlGui.OnCycleClicked | example/gui_control/gui_control.py:886-907 | with no presets only a warning; a running cycle stops; otherwise the index restarts at -1 and preset 0 runs at once |
| ControlGui.HandControlGui.StartCycling | example/gui_control/gui_control.py:899-907 | starting a cycle turns the timer on, labels the button "Stop Cycling", runs preset 0 at once and highlights it, and reports the start and then the preset's name |
| ControlGui.HandControlGui.UpdateStatus | example/gui_control/gui_control.py:948-971 | the log becomes `PrependToLog` of the new entry; it is marked as an error if and only if the type is "error"; the connection label changes only on the initialisation message |
| ControlGui.HandControlGui.ClearStatusLog | example/gui_control/gui_control.py:973-977 | the log reads "Log cleared" and is not marked as an error |
| ControlGui.HandControlGui.CloseEvent | example/gui_control/gui_control.py:979-985 | both timers stop and the API manager is asked to shut down |
| RightView.GridStep | example/gui_control/views/right_view.py:78-82 | the next cell is one column on, or the start of the next row; the column stays below 2 |
| RightView.AddStep | example/gui_control/views/right_view.py:95-98 | the column moves on and wraps to 0; the row never changes |
| RightView.PosAfter | example/gui_control/views/right_view.py:76-82 | after any number of steps the column is still below 2 |
| RightView.PosAfterIndex | example/gui_control/views/right_view.py:76-82 | each step moves one cell on in row-major order: k steps add k to row*2+column |
| RightView.Placed | example/gui_control/views/right_view.py:66-82 | `init_buttons` places one button per action taken |
| RightView.PlacedAt | example/gui_control/views/right_view.py:66-82 | the k-th placed button carries the k-th action's name and sits k steps from the start cell |
| RightView.PosFromOrigin | example/gui_control/views/right_view.py:63-82 | from (0, 0), the k-th action button is placed at (k div 2, k mod 2) |
| RightView.GridCellsDistinct | example/gui_control/views/right_view.py:76-82 | `init_buttons` never places two buttons in the same cell |
| RightView.AddedButtonsShareCells | example/gui_control/views/right_view.py:93-98 | since the row never advances, the third added button lands on the first one's cell |
| RightView.RightView.constructor | example/gui_control/views/right_view.py:13-24 | no actions leaves the grid empty at (0, 0); otherwise action k sits at (k div 2, k mod 2); `buttons` starts empty |
| RightView.RightView.InitButtons | example/gui_control/views/right_view.py:66-82 | a no-op when there are no actions; otherwise the grid gains exactly the `Placed` buttons after the ones it had, the cell ends one step past the last, and `buttons` is untouched |
| RightView.RightView.SetInputText | example/gui_control/views/right_view.py:37 | the input field holds what was typed |
| RightView.RightView.AddButtonToList | example/gui_control/views/right_view.py:84-101 | blank input changes nothing; otherwise one button with the stripped text is added to the grid and to `buttons`, the column wraps without a new row, the input clears and the text is signalled |
| LeftView.OverlayShape | example/gui_control/views/left_view.py:56-59 | the slider count never changes; the values land on the front sliders and later sliders keep theirs; values beyond the slider count are dropped |
| LeftView.RelabelledOnlyChanged | example/gui_control/views/left_view.py:46-59 | a label is rewritten only when its slider's value changes, and then to "name: value" |
| LeftView.SnapshotsShape | example/gui_control/views/left_view.py:46-59 | at most one signal per value, and each signal carries every slider's value |
| LeftView.SnapshotsStep | example/gui_control/views/left_view.py:46-59 | setting slider i signals once with all slider values if it changes and not at all otherwise, before the later sliders' signals |
| LeftView.SnapshotsOfAgreeing | example/gui_control/views/left_view.py:56-59 | sliders that already hold the given values fire no signal |
| LeftView.SnapshotsCount | example/gui_control/views/left_view.py:56-59 | one signal fires per slider whose value actually changes |
| LeftView.OverlayIdempotent | example/gui_control/views/left_view.py:56-59 | setting the same values twice is the same as once, and the second call signals nothing |
| LeftView.OverlayFull | example/gui_control/views/left_view.py:56-63 | values of the slider count replace every slider, so `get_slider_values` then returns exactly them |
| LeftView.LeftView.constructor | example/gui_control/views/left_view.py:9-44 | one slider per joint set to its initial position; every label reads "name: 255"; the view is open |
| LeftView.LeftView.UpdateLabel | example/gui_control/views/left_view.py:46-53 | only label `index` changes, to "name: value", and the slider values are emitted |
| LeftView.LeftView.SetSliderValue | example/gui_control/views/left_view.py:36 | `setValue` changes one slider; only a real change relabels it and emits |
| LeftView.LeftView.SetSliderValues | example/gui_control/views/left_view.py:56-59 | slider i takes values[i] for i below the slider count; extra values are ignored, later sliders kept; only changed sliders are relabelled, and each change emits the slider values |
| LeftView.LeftView.GetSliderValues | example/gui_control/views/left_view.py:61-63 | one value per slider, in slider order |
| LeftView.LeftView.ToggleButtonClicked | example/gui_control/views/left_view.py:68-76 | the checked state flips, the view is open if and only if the button is unchecked, and the text is "Closed" or "Opened" to match |
| GetStatus.LegacyPad | example/L10/get_status/get_set_state.py:24-31 | the list sent keeps the given values as its prefix and adds two 100s exactly when the model is "L7" and five values were given |
| GetStatus.SetPositionCommand | example/L10/get_status/get_set_state.py:22-31 | `set_position` issues one `finger_move` carrying the padded position |
| GetStatus.SetSpeedCommand | example/L10/get_status/get_set_speed.py:24-32 | `set_speed` issues one `set_speed` carrying the padded speed |
| GetStatus.LegacyPadCases | example/L10/get_status/get_set_state.py:24-31 | the list is padded if and only if the rule fires, and passed through unchanged if and only if it does not |
| GetStatus.LegacyPadCaseSensitive | example/L10/get_status/get_set_state.py:24 | "l7" and " L7" are not padded; "L7" is |
| GetStatus.LegacyPadIdempotent | example/L10/get_status/get_set_state.py:24-28 | padding an already padded list changes nothing |
| GetStatus.CliSpeedOnL7SendsSeven | example/L10/get_status/get_set_speed.py:46-51 | five command-line speeds for "L7" become seven values, as many as the GUI broadcasts to an L7 hand, with the five as prefix |
| DynamicGrasping.GraspPose | example/L10/grab/dynamic_grasping.py:35-45 | the grasp pose has ten entries, and the four finger bends each equal the thumb value minus 35 |
| DynamicGrasping.RewritePose | example/L10/grab/dynamic_grasping.py:35-45 | the in-place rewrite leaves the array equal to `GraspPose(mm)`, whatever it held before |
| DynamicGrasping.Grasp | example/L10/grab/dynamic_grasping.py:23-47 | the driver receives the speed, then the preparatory pose [255, 70, 255, 255, 255, 255, 255, 255, 255, 120], then the grasp pose |
| DynamicGrasping.GraspPoseFixedEntries | example/L10/grab/dynamic_grasping.py:36-45 | pose[1] = 60, pose[6..8] = 255 and pose[9] = 58, for every diameter |
| DynamicGrasping.GraspPoseMonotone | example/L10/grab/dynamic_grasping.py:35-45 | every entry is non-decreasing in the diameter |
| DynamicGrasping.GraspPoseInByteRange | example/L10/grab/dynamic_grasping.py:29-45 | every entry is a byte (0..255) if and only if -12 <= mm <= 97; nothing clamps the pose |

## Left out

- The hand driver (`RealHandApi`, `LinkerHandApi`): its CAN and Modbus encoding is not part of this model. Its calls are recorded values, and a driver exception is an `Option<string>` parameter.
- Loading the YAML configuration (`LoadWriteYaml`) and its failure path: the settings arrive as plain booleans and strings. `init_api` raising is not modelled, so the manager always has a driver.
- HandApi.HandApiManager.constructor: requires some hand to be configured. With neither hand present, the source reads the never-assigned `is_touch` at gui_control.py:284 and raises.
- The dead reset at gui_control.py:264-266 (both sides chosen) cannot fire because of the `elif` above it. The model asserts that instead of copying it.
- Qt painting, layouts, style sheets, pixel positions, `QTimer` scheduling (500 ms poll, 30 ms publish, the cycle period) and the signal/slot plumbing. A timer is a boolean; a tick is a call of the method it triggers.
- Slider clamping: the code sets every slider's range to 0..255 (`setRange(0, 255)` at example/gui_control/gui_control.py:619 and example/gui_control/views/left_view.py:33), and Qt's `setValue` then clamps out-of-range values. That clamping happens inside Qt and is not modelled, so sliders hold the integers they are given: a preset entry of 300 is published here as 300, where the program would publish 255.
- numpy arrays (`tolist`, `flatten`, `item`), `int()` of float readings, and exceptions raised while normalising or painting. Readings are integers; a nested list at a later index is drawn gray, as the source's caught comparison error does.
- `time.strftime` timestamps are an opaque string parameter. Console output (`print`, `ColorMsg`) is left out.
- Text.Upper: upper-cases ASCII letters only. No other character upper-cases into "O6" or "L6", so the channel count is unaffected.
- The `_HAND_CONFIGS` table and `create_preset_actions_panel`. The joint names, initial positions and presets are constructor parameters, with one preset button per preset.
- `get_state` / `get_speed` reads, `handle_button_click`, and the example scripts' `time.sleep` calls. They only print or wait.
- The simulator scripts (real_hand_mujoco, Linker_hand_Sapien) and the gesture scripts: constant pose tables and infinite loops around driver calls, with no rule to state.
- The `lock` flag is modelled only as far as `publish_joint_state` sets and clears it and the poll reads it. Overlapping callbacks are not modelled.
- `HandControlGUI.on_slider_value_changed` is modelled as one step (the slider moves, then the handler runs). Qt's `valueChanged` firing only on a real change is modelled in `LeftView.LeftView.SetSliderValue`.
- The hand-model registry and any channel-count check inside the driver are not in this repository's code. Other lengths are passed through unchanged, as the scripts do.
- LeftView.LeftView.constructor: requires at least as many initial positions as joint names. With fewer, the source's `init_pos[i]` at views/left_view.py:34 raises IndexError, and that failure is not modelled.
- DynamicGrasping.Grasp: records a copy of the pose at each driver call. This assumes the driver does not keep a reference to the list that the script later rewrites in place.
- Text.Strip: the function's own contract gives only the length bound. Its full meaning (the slice framed by whitespace, empty exactly for all-whitespace input, no whitespace at either end) is the lemma `Text.StripTrims`, so that callers such as `AddButtonToList` do not carry it.
