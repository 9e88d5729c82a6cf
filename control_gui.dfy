/**
 * `HandControlGUI` (gui_control.py): the joint sliders, the preset actions and
 * their cycling, and the status log. Widgets are plain values: a slider is an
 * int, a label a string; the calls the window makes on `HandApiManager` are
 * recorded in `published`, and the signals it emits in `emitted`.
 */
module ControlGui {
  import opened Wrappers
  import opened Text
  import opened Driver

  /** `update_status` keeps at most this many characters of the previous log. */
  const LogLimit: nat := 10000

  /** One entry of `hand_config.preset_actions`, in the dictionary's order. */
  datatype Preset = Preset(name: string, positions: seq<int>)

  /** A `QMessageBox.warning(title, text)`. */
  datatype Warning = Warning(title: string, text: string)

  /** The warning shown when a preset does not fit the sliders. */
  function MismatchWarning(presetCount: nat, sliderCount: nat): (w: Warning)
    ensures w.title == "Action Mismatch"
    ensures var head := "Preset action joint count (" + IntToString(presetCount) + ")";
      |head| <= |w.text| && w.text[..|head|] == head
    ensures var tail := "(" + IntToString(sliderCount) + ")";
      |tail| <= |w.text| && w.text[|w.text| - |tail|..] == tail
  {
    var head := "Preset action joint count (" + IntToString(presetCount) + ")";
    var tail := "(" + IntToString(sliderCount) + ")";
    var text := head + " does not match current joint count " + tail;
    assert text[..|head|] == head;
    Warning("Action Mismatch", text)
  }

  /** `(current_action_index + 1) % len(preset_actions)`: the next preset, wrapping to the first. */
  function NextActionIndex(index: int, count: nat): (next: nat)
    requires count > 0 && -1 <= index < count
    ensures next < count
    ensures next == if index + 1 < count then index + 1 else 0
  {
    (index + 1) % count
  }

  /** The action index after `k` runs of `run_next_action` from a fresh start (index -1). */
  function IndexAfterRuns(count: nat, k: nat): (index: int)
    requires count > 0
    ensures -1 <= index < count
  {
    if k == 0 then -1 else NextActionIndex(IndexAfterRuns(count, k - 1), count)
  }

  /** Cycling visits the presets in order: the k-th run (from 0) executes preset k mod count. */
  lemma {:induction false} CycleVisitsInOrder(count: nat, k: nat)
    requires count > 0
    ensures IndexAfterRuns(count, k + 1) == k % count
  {
    if k > 0 {
      CycleVisitsInOrder(count, k - 1);
      ModSucc(k - 1, count);
    }
  }

  /** The remainder of a successor: one more, or 0 once it reaches the divisor. */
  lemma ModSucc(k: nat, n: nat)
    requires n > 0
    ensures (k + 1) % n == if k % n + 1 < n then k % n + 1 else 0
  {
    var q, r := k / n, k % n;
    assert k == q * n + r;
    if r + 1 < n {
      ModOfDecomposition(k + 1, n, q, r + 1);
    } else {
      assert (q + 1) * n == q * n + n;
      ModOfDecomposition(k + 1, n, q + 1, 0);
    }
  }

  /** A positive multiple of n is at least n. */
  lemma {:induction false} MultipleAtLeast(x: nat, n: nat)
    requires x >= 1
    ensures x * n >= n
  {
    if x > 1 {
      MultipleAtLeast(x - 1, n);
      assert x * n == (x - 1) * n + n;
    }
  }

  /** The remainder is determined by any quotient-remainder decomposition. */
  lemma ModOfDecomposition(a: nat, n: nat, q: int, r: int)
    requires n > 0 && 0 <= r < n && a == q * n + r
    ensures a % n == r
  {
    var q', r' := a / n, a % n;
    assert q * n + r == q' * n + r';
    if q > q' {
      MultipleAtLeast(q - q', n);
      assert false;
    } else if q < q' {
      MultipleAtLeast(q' - q, n);
      assert false;
    }
  }

  /** Overwriting position `i` of `a[..i] + b[i..]` with `a[i]` moves the splice point one on. */
  lemma SpliceStep(a: seq<int>, b: seq<int>, i: nat)
    requires i < |a| && i < |b|
    ensures (a[..i] + b[i..])[i := a[i]] == a[..i + 1] + b[i + 1..]
  {
  }

  /** `f"[{current_time}] {message}\n"`. */
  function LogEntry(currentTime: string, message: string): (entry: string)
    ensures |entry| == |currentTime| + |message| + 4
    ensures entry[0] == '[' && entry[1..|currentTime| + 1] == currentTime
    ensures entry[|currentTime| + 1..|currentTime| + 3] == "] "
    ensures entry[|currentTime| + 3..|entry| - 1] == message && entry[|entry| - 1] == '\n'
  {
    "[" + currentTime + "] " + message + "\n"
  }

  /**
   * The new log text: the entry, then the last `LogLimit` characters of the old
   * log (all of it when it is short enough).
   */
  function PrependToLog(entry: string, log: string): (r: string)
    ensures |r| == |entry| + (if |log| > LogLimit then LogLimit else |log|)
    ensures |r| <= |entry| + LogLimit
    ensures r[..|entry|] == entry
    ensures r[|entry|..] == log[|log| - (|r| - |entry|)..]
  {
    var kept := if |log| > LogLimit then log[|log| - LogLimit..] else log;
    entry + kept
  }

  /** A log that already holds at most `LogLimit` characters is kept whole behind the new entry. */
  lemma ShortLogKeptWhole(entry: string, log: string)
    requires |log| <= LogLimit
    ensures PrependToLog(entry, log) == entry + log
  {
    var r := PrependToLog(entry, log);
    assert r == r[..|entry|] + r[|entry|..];
  }

  /** Each slider's label reads "name: value" and the value panel shows the list of slider values. */
  ghost predicate Displayed(names: seq<string>, sliders: seq<int>, labels: seq<string>, display: string)
  {
    |sliders| == |labels| && |sliders| <= |names|
    && (forall i :: 0 <= i < |sliders| ==> labels[i] == JointLabel(names[i], sliders[i]))
    && display == FormatIntList(sliders)
  }

  class HandControlGui {
    const jointNames: seq<string>
    const initPos: seq<int>
    const presets: seq<Preset>

    /** The slider values, one per joint. */
    var sliders: seq<int>
    var sliderLabels: seq<string>
    /** The text of the "Joint Value List" panel. */
    var valueDisplay: string
    var currentActionIndex: int
    /** `cycle_timer` exists and is active. */
    var cycleActive: bool
    var cycleButtonText: string
    /** The preset button painted green, if any. */
    var highlighted: Option<nat>
    /** The positions handed to `HandApiManager.publish_joint_state`, in order. */
    var published: seq<seq<int>>
    /** The `status_updated` signals this window emits. */
    var emitted: seq<Status>
    var warnings: seq<Warning>
    var statusLog: string
    var statusIsError: bool
    var connectionStatus: string
    var publishTimerActive: bool
    /** Whether `HandApiManager.shutdown` has been asked for. */
    var shutdownRequested: bool

    /** Labels and the value panel always show the sliders; the action index stays within the presets. */
    ghost predicate Valid()
      reads this
    {
      |sliders| <= |initPos| && Displayed(jointNames, sliders, sliderLabels, valueDisplay)
      && -1 <= currentActionIndex < |presets|
      && (highlighted.Some? ==> highlighted.value < |presets|)
    }

    /** What `on_preset_action_clicked(positions)` does to the sliders, the publications and the warnings. */
    twostate predicate PresetApplied(positions: seq<int>)
      reads this
    {
      if |positions| == |old(sliders)| then
        sliders == positions && published == old(published) + [positions] && warnings == old(warnings)
      else
        sliders == old(sliders) && published == old(published)
        && warnings == old(warnings) + [MismatchWarning(|positions|, |old(sliders)|)]
    }

    /** `__init__` with `init_ui`: one slider per joint at its initial position; no cycle running. */
    constructor (jointNames: seq<string>, initPos: seq<int>, presets: seq<Preset>)
      ensures Valid()
      ensures this.jointNames == jointNames && this.initPos == initPos && this.presets == presets
      ensures |sliders| == (if |jointNames| < |initPos| then |jointNames| else |initPos|)
      ensures sliders == initPos[..|sliders|]
      ensures currentActionIndex == -1 && !cycleActive && highlighted == None
      ensures published == [] && emitted == [] && warnings == []
      ensures statusLog == "Waiting for system startup..." && publishTimerActive && !shutdownRequested
      ensures cycleButtonText == "Cycle Preset Actions" && connectionStatus == "Hand API Connected" && !statusIsError
    {
      this.jointNames := jointNames;
      this.initPos := initPos;
      this.presets := presets;
      sliders := [];
      sliderLabels := [];
      currentActionIndex := -1;
      cycleActive := false;
      cycleButtonText := "Cycle Preset Actions";
      highlighted := None;
      published := [];
      emitted := [];
      warnings := [];
      statusLog := "Waiting for system startup...";
      statusIsError := false;
      connectionStatus := "Hand API Connected";
      publishTimerActive := true;
      shutdownRequested := false;
      valueDisplay := "[]";
      new;
      CreateJointSliders();
    }

    /** `create_joint_sliders`: a slider and a "name: value" label per (joint name, initial position) pair. */
    method CreateJointSliders()
      requires -1 <= currentActionIndex < |presets| && (highlighted.Some? ==> highlighted.value < |presets|)
      modifies this`sliders, this`sliderLabels, this`valueDisplay
      ensures Valid()
      ensures |sliders| == (if |jointNames| < |initPos| then |jointNames| else |initPos|)
      ensures sliders == initPos[..|sliders|]
    {
      var n := if |jointNames| < |initPos| then |jointNames| else |initPos|;
      sliders := [];
      sliderLabels := [];
      var i := 0;
      while i < n
        invariant 0 <= i <= n
        invariant sliders == initPos[..i] && |sliderLabels| == i
        invariant forall k :: 0 <= k < i ==> sliderLabels[k] == JointLabel(jointNames[k], sliders[k])
      {
        sliderLabels := sliderLabels + [JointLabel(jointNames[i], initPos[i])];
        sliders := sliders + [initPos[i]];
        i := i + 1;
      }
      valueDisplay := FormatIntList(sliders);
    }

    /**
     * A slider moved to `value` and `on_slider_value_changed(index, value)` ran:
     * the joint's label and the value panel follow.
     */
    method OnSliderValueChanged(index: int, value: int)
      requires Valid()
      modifies this`sliders, this`sliderLabels, this`valueDisplay
      ensures Valid()
      ensures sliders == if 0 <= index < |old(sliders)| then old(sliders)[index := value] else old(sliders)
    {
      if 0 <= index < |sliderLabels| {
        sliders := sliders[index := value];
        sliderLabels := sliderLabels[index := JointLabel(jointNames[index], value)];
      }
      valueDisplay := FormatIntList(sliders);
    }

    /** `update_value_display`: the panel shows the list of the slider values. */
    method UpdateValueDisplay()
      requires Valid()
      modifies this`valueDisplay
      ensures Valid() && valueDisplay == FormatIntList(sliders)
    {
      valueDisplay := FormatIntList(sliders);
    }

    /** `publish_joint_state`: hands the current slider values to the API manager (also the 30 ms timer tick). */
    method PublishJointState()
      modifies this`published
      ensures published == old(published) + [sliders]
    {
      published := published + [sliders];
    }

    /**
     * `on_preset_action_clicked`: a preset of the wrong length only raises a
     * warning; otherwise the sliders take its positions and are published.
     */
    method OnPresetActionClicked(positions: seq<int>)
      requires Valid()
      modifies this`sliders, this`sliderLabels, this`valueDisplay, this`published, this`warnings
      ensures Valid()
      ensures PresetApplied(positions)
    {
      if |positions| != |sliders| {
        warnings := warnings + [MismatchWarning(|positions|, |sliders|)];
        return;
      }
      var i := 0;
      while i < |positions|
        invariant 0 <= i <= |positions| == |sliders| && Valid()
        invariant sliders == positions[..i] + old(sliders)[i..]
        invariant published == old(published) && warnings == old(warnings)
      {
        // setValue fires valueChanged, whose slot is on_slider_value_changed(i, pos);
        // the explicit call that follows repeats it and leaves the same state
        SpliceStep(positions, old(sliders), i);
        OnSliderValueChanged(i, positions[i]);
        i := i + 1;
      }
      assert sliders == positions;
      PublishJointState();
    }

    /** `on_home_clicked`: every slider back to its initial position, published, and "Return to Home" reported. */
    method OnHomeClicked()
      requires Valid()
      modifies this`sliders, this`sliderLabels, this`valueDisplay, this`published, this`emitted
      ensures Valid()
      ensures sliders == initPos[..|old(sliders)|]
      ensures published == old(published) + [sliders]
      ensures emitted == old(emitted) + [Status("info", "Return to Home")]
    {
      var i := 0;
      while i < |sliders|
        invariant 0 <= i <= |sliders| == |old(sliders)| && Valid()
        invariant sliders == initPos[..i] + old(sliders)[i..]
        invariant published == old(published) && emitted == old(emitted)
      {
        // setValue fires valueChanged, whose slot is on_slider_value_changed(i, init_pos[i])
        SpliceStep(initPos, old(sliders), i);
        OnSliderValueChanged(i, initPos[i]);
        i := i + 1;
      }
      PublishJointState();
      emitted := emitted + [Status("info", "Return to Home")];
      UpdateValueDisplay();
    }

    /** `on_stop_clicked`: stops a running cycle and reports it. */
    method OnStopClicked()
      requires Valid()
      modifies this`cycleActive, this`cycleButtonText, this`highlighted, this`emitted
      ensures Valid()
      ensures !cycleActive
      ensures old(cycleActive) ==> cycleButtonText == "Cycle Preset Actions" && highlighted == None
      ensures !old(cycleActive) ==> cycleButtonText == old(cycleButtonText) && highlighted == old(highlighted)
      ensures emitted == old(emitted) + [Status("warning", "All actions stopped")]
    {
      if cycleActive {
        cycleActive := false;
        cycleButtonText := "Cycle Preset Actions";
        highlighted := None;
      }
      emitted := emitted + [Status("warning", "All actions stopped")];
    }

    /** `run_next_action`: advances the index with wrap-around, applies that preset and highlights its button. */
    method RunNextAction()
      requires Valid()
      modifies this`sliders, this`sliderLabels, this`valueDisplay, this`published, this`warnings,
        this`currentActionIndex, this`highlighted, this`emitted
      ensures Valid()
      ensures |presets| == 0 ==> (currentActionIndex == old(currentActionIndex) && highlighted == old(highlighted)
        && sliders == old(sliders) && published == old(published) && warnings == old(warnings) && emitted == old(emitted))
      ensures |presets| > 0 ==>
        currentActionIndex == NextActionIndex(old(currentActionIndex), |presets|)
        && highlighted == Some(currentActionIndex as nat)
        && PresetApplied(presets[currentActionIndex].positions)
        && emitted == old(emitted) + [Status("info", "Running preset action: " + presets[currentActionIndex].name)]
    {
      if |presets| == 0 {
        return;
      }
      highlighted := None;
      currentActionIndex := (currentActionIndex + 1) % |presets|;
      var action := presets[currentActionIndex];
      OnPresetActionClicked(action.positions);
      if 0 <= currentActionIndex < |presets| {
        highlighted := Some(currentActionIndex);
      }
      emitted := emitted + [Status("info", "Running preset action: " + action.name)];
    }

    /**
     * `on_cycle_clicked`: with no presets only a warning; a running cycle stops;
     * otherwise the index restarts at -1 and the first preset runs at once.
     */
    method OnCycleClicked()
      requires Valid()
      modifies this`sliders, this`sliderLabels, this`valueDisplay, this`published, this`warnings,
        this`currentActionIndex, this`highlighted, this`emitted, this`cycleActive, this`cycleButtonText
      ensures Valid()
      ensures |presets| == 0 ==> (warnings == old(warnings) + [Warning("No Preset Actions", "Current hand model has no preset actions to cycle")]
        && cycleActive == old(cycleActive) && cycleButtonText == old(cycleButtonText)
        && currentActionIndex == old(currentActionIndex) && highlighted == old(highlighted)
        && sliders == old(sliders) && published == old(published) && emitted == old(emitted))
      ensures |presets| > 0 && old(cycleActive) ==> (!cycleActive && cycleButtonText == "Cycle Preset Actions"
        && highlighted == None && sliders == old(sliders) && published == old(published)
        && warnings == old(warnings) && currentActionIndex == old(currentActionIndex)
        && emitted == old(emitted) + [Status("info", "Stopped cycling preset actions")])
      ensures |presets| > 0 && !old(cycleActive) ==> (cycleActive && cycleButtonText == "Stop Cycling"
        && currentActionIndex == 0 && highlighted == Some(0)
        && PresetApplied(presets[0].positions)
        && emitted == old(emitted) + [Status("info", "Started cycling preset actions"),
                                      Status("info", "Running preset action: " + presets[0].name)])
    {
      if |presets| == 0 {
        warnings := warnings + [Warning("No Preset Actions", "Current hand model has no preset actions to cycle")];
        return;
      }
      if cycleActive {
        cycleActive := false;
        cycleButtonText := "Cycle Preset Actions";
        highlighted := None;
        emitted := emitted + [Status("info", "Stopped cycling preset actions")];
      } else {
        StartCycling();
      }
    }

    /** The start branch of `on_cycle_clicked`: the index restarts at -1, the cycle timer starts and the first preset runs. */
    method StartCycling()
      requires Valid() && |presets| > 0
      modifies this`sliders, this`sliderLabels, this`valueDisplay, this`published, this`warnings,
        this`currentActionIndex, this`highlighted, this`emitted, this`cycleActive, this`cycleButtonText
      ensures Valid()
      ensures cycleActive && cycleButtonText == "Stop Cycling" && currentActionIndex == 0 && highlighted == Some(0)
      ensures PresetApplied(presets[0].positions)
      ensures emitted == old(emitted) + [Status("info", "Started cycling preset actions"),
                                         Status("info", "Running preset action: " + presets[0].name)]
    {
      currentActionIndex := -1;
      cycleActive := true;
      cycleButtonText := "Stop Cycling";
      emitted := emitted + [Status("info", "Started cycling preset actions")];
      RunNextAction();
    }

    /**
     * `update_status`: the new entry goes on top of the log, which keeps the last
     * `LogLimit` characters of its old text; an error paints the log red.
     */
    method UpdateStatus(statusType: string, message: string, currentTime: string)
      modifies this`statusLog, this`statusIsError, this`connectionStatus
      ensures statusLog == PrependToLog(LogEntry(currentTime, message), old(statusLog))
      ensures statusIsError <==> statusType == "error"
      ensures statusType == "info" && Contains(message, "Hand API initialized successfully") ==> connectionStatus == "Hand API Connected"
      ensures !(statusType == "info" && Contains(message, "Hand API initialized successfully")) ==> connectionStatus == old(connectionStatus)
    {
      if statusType == "info" && Contains(message, "Hand API initialized successfully") {
        connectionStatus := "Hand API Connected";
      }
      var logEntry := LogEntry(currentTime, message);
      var currentLog := statusLog;
      if |currentLog| > LogLimit {
        currentLog := currentLog[|currentLog| - LogLimit..];
      }
      statusLog := logEntry + currentLog;
      statusIsError := statusType == "error";
    }

    /** `clear_status_log`. */
    method ClearStatusLog()
      modifies this`statusLog, this`statusIsError
      ensures statusLog == "Log cleared" && !statusIsError
    {
      statusLog := "Log cleared";
      statusIsError := false;
    }

    /** `closeEvent`: both timers stop, then the API manager is asked to `shutdown`. */
    method CloseEvent()
      modifies this`cycleActive, this`publishTimerActive, this`shutdownRequested
      ensures !cycleActive && !publishTimerActive && shutdownRequested
    {
      cycleActive := false;
      publishTimerActive := false;
      shutdownRequested := true;
    }
  }
}
