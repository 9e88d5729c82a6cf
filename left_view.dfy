/**
 * `LeftView` (views/left_view.py): one labelled slider per joint and an
 * Open/Close toggle. A slider is its integer value, a label its text.
 */
module LeftView {
  import opened Text

  /** `values` written over the front of `sliders`; extra values are dropped, later sliders kept. */
  function Overlay(sliders: seq<int>, values: seq<int>): (r: seq<int>)
  {
    seq(|sliders|, i requires 0 <= i < |sliders| => if i < |values| then values[i] else sliders[i])
  }

  /** The overlay keeps the slider count: the values up front, then the sliders they do not reach. */
  lemma OverlayShape(sliders: seq<int>, values: seq<int>)
    ensures |Overlay(sliders, values)| == |sliders|
    ensures |values| <= |sliders| ==>
      Overlay(sliders, values)[..|values|] == values && Overlay(sliders, values)[|values|..] == sliders[|values|..]
    ensures |values| > |sliders| ==> Overlay(sliders, values) == values[..|sliders|]
  {
  }

  /** The labels after `values` are set: a label is rewritten only where its slider's value changes. */
  function Relabelled(names: seq<string>, labels: seq<string>, sliders: seq<int>, values: seq<int>): (r: seq<string>)
    requires |labels| == |sliders| == |names|
  {
    seq(|labels|, j requires 0 <= j < |labels| =>
      if j < |values| && values[j] != sliders[j] then JointLabel(names[j], values[j]) else labels[j])
  }

  /** Only labels of sliders whose value changes are rewritten, each to "name: value". */
  lemma RelabelledOnlyChanged(names: seq<string>, labels: seq<string>, sliders: seq<int>, values: seq<int>, j: nat)
    requires |labels| == |sliders| == |names| && j < |labels|
    ensures |Relabelled(names, labels, sliders, values)| == |labels|
    ensures Relabelled(names, labels, sliders, values)[j] != labels[j] ==> j < |values| && values[j] != sliders[j]
    ensures j < |values| && values[j] != sliders[j] ==> Relabelled(names, labels, sliders, values)[j] == JointLabel(names[j], values[j])
  {
  }

  /** Setting one more value, at position `i`, extends the overlay by that value. */
  lemma OverlayStep(sliders: seq<int>, values: seq<int>, i: nat)
    requires i < |values|
    ensures i < |sliders| ==> Overlay(sliders, values[..i])[i := values[i]] == Overlay(sliders, values[..i + 1])
    ensures i >= |sliders| ==> Overlay(sliders, values[..i]) == Overlay(sliders, values[..i + 1])
  {
  }

  /** Setting one more value, at position `i`, relabels at most that slider. */
  lemma RelabelledStep(names: seq<string>, labels: seq<string>, sliders: seq<int>, values: seq<int>, i: nat)
    requires |labels| == |sliders| == |names| && i < |values|
    ensures i < |sliders| && values[i] != sliders[i] ==>
      Relabelled(names, labels, sliders, values[..i])[i := JointLabel(names[i], values[i])] == Relabelled(names, labels, sliders, values[..i + 1])
    ensures i >= |sliders| || values[i] == sliders[i] ==>
      Relabelled(names, labels, sliders, values[..i]) == Relabelled(names, labels, sliders, values[..i + 1])
  {
  }

  /**
   * The `slider_value_changed` payloads that `set_slider_values` causes from
   * position `i` on: each `setValue` that changes a slider fires `valueChanged`,
   * whose handler emits the snapshot of all sliders.
   */
  function Snapshots(sliders: seq<int>, values: seq<int>, i: nat): (r: seq<seq<int>>)
    decreases |values| - i
  {
    if i >= |values| || i >= |sliders| then []
    else if values[i] == sliders[i] then Snapshots(sliders, values, i + 1)
    else [sliders[i := values[i]]] + Snapshots(sliders[i := values[i]], values, i + 1)
  }

  /** Setting slider `i` emits the changed snapshot, if any, ahead of the later payloads. */
  lemma SnapshotsStep(s0: seq<int>, e0: seq<seq<int>>, s1: seq<int>, e1: seq<seq<int>>, values: seq<int>, i: nat)
    requires i < |values| && i < |s0|
    requires s1 == if values[i] == s0[i] then s0 else s0[i := values[i]]
    requires e1 == e0 + if values[i] == s0[i] then [] else [s1]
    ensures e1 + Snapshots(s1, values, i + 1) == e0 + Snapshots(s0, values, i)
  {
  }

  /** At most one payload per remaining value, each listing every slider. */
  lemma {:induction false} SnapshotsShape(sliders: seq<int>, values: seq<int>, i: nat)
    requires i <= |values|
    ensures |Snapshots(sliders, values, i)| <= |values| - i
    ensures forall k :: 0 <= k < |Snapshots(sliders, values, i)| ==> |Snapshots(sliders, values, i)[k]| == |sliders|
    decreases |values| - i
  {
    if i < |values| && i < |sliders| {
      SnapshotsShape(sliders[i := values[i]], values, i + 1);
      SnapshotsShape(sliders, values, i + 1);
    }
  }

  /** Sliders that already agree with `values` from `i` on produce no signal. */
  lemma {:induction false} SnapshotsOfAgreeing(sliders: seq<int>, values: seq<int>, i: nat)
    requires forall j :: i <= j < |values| && j < |sliders| ==> sliders[j] == values[j]
    ensures Snapshots(sliders, values, i) == []
    decreases |values| - i
  {
    if i < |values| && i < |sliders| {
      SnapshotsOfAgreeing(sliders, values, i + 1);
    }
  }

  /** Every slider change signals once: there are as many snapshots as changed sliders. */
  lemma {:induction false} SnapshotsCount(sliders: seq<int>, values: seq<int>, i: nat)
    ensures |Snapshots(sliders, values, i)| == |set j | i <= j < |values| && j < |sliders| && values[j] != sliders[j]|
    decreases |values| - i
  {
    var changed := set j | i <= j < |values| && j < |sliders| && values[j] != sliders[j];
    if i >= |values| || i >= |sliders| {
      assert changed == {};
    } else {
      var next := if values[i] == sliders[i] then sliders else sliders[i := values[i]];
      SnapshotsCount(next, values, i + 1);
      var rest := set j | i + 1 <= j < |values| && j < |next| && values[j] != next[j];
      if values[i] == sliders[i] {
        assert changed == rest;
      } else {
        assert changed == rest + {i};
      }
    }
  }

  /** Setting the same values a second time changes nothing and signals nothing. */
  lemma OverlayIdempotent(sliders: seq<int>, values: seq<int>)
    ensures Overlay(Overlay(sliders, values), values) == Overlay(sliders, values)
    ensures Snapshots(Overlay(sliders, values), values, 0) == []
  {
    SnapshotsOfAgreeing(Overlay(sliders, values), values, 0);
  }

  /** Values of the sliders' own length replace them all: `get_slider_values` then returns exactly them. */
  lemma OverlayFull(sliders: seq<int>, values: seq<int>)
    requires |values| == |sliders|
    ensures Overlay(sliders, values) == values
  {
  }

  class LeftView {
    const jointName: seq<string>
    const initPos: seq<int>
    var isOpen: bool
    var sliders: seq<int>
    var labels: seq<string>
    /** The checked state and the text of the checkable Open/Close button. */
    var toggleChecked: bool
    var toggleText: string
    /** The `slider_value_changed` payloads emitted, each the list of all slider values. */
    var emitted: seq<seq<int>>

    ghost predicate Valid()
      reads this
    {
      |sliders| == |labels| == |jointName|
      && isOpen == !toggleChecked
      && toggleText == (if isOpen then "Opened" else "Closed")
    }

    /**
     * `__init__` and `init_view`: one slider per joint name, set to its initial
     * position. Each label reads "name: 255", because the slider's `valueChanged`
     * is connected only after `setValue`, so no label update runs at start.
     */
    constructor (jointName: seq<string>, initPos: seq<int>)
      requires |initPos| >= |jointName|
      ensures Valid() && this.jointName == jointName && this.initPos == initPos
      ensures isOpen && sliders == initPos[..|jointName|] && emitted == []
      ensures forall i :: 0 <= i < |jointName| ==> labels[i] == jointName[i] + ": 255"
    {
      this.jointName := jointName;
      this.initPos := initPos;
      isOpen := true;
      toggleChecked := false;
      toggleText := "Opened";
      emitted := [];
      var s: seq<int> := [];
      var l: seq<string> := [];
      var i := 0;
      while i < |jointName|
        invariant 0 <= i <= |jointName|
        invariant s == initPos[..i] && |l| == i
        invariant forall j :: 0 <= j < i ==> l[j] == jointName[j] + ": 255"
      {
        l := l + [jointName[i] + ": 255"];
        s := s + [initPos[i]];
        i := i + 1;
      }
      sliders := s;
      labels := l;
    }

    /** `update_label`: label `index` shows "name: value"; every other label is kept; the slider values are emitted. */
    method UpdateLabel(index: nat, value: int)
      requires Valid() && index < |labels|
      modifies this`labels, this`emitted
      ensures Valid()
      ensures labels == old(labels)[index := JointLabel(jointName[index], value)]
      ensures emitted == old(emitted) + [sliders]
    {
      labels := labels[index := JointLabel(jointName[index], value)];
      emitted := emitted + [sliders];
    }

    /**
     * `QSlider.setValue` on slider `index`: only a real change fires `valueChanged`,
     * whose handler is `update_label`.
     */
    method SetSliderValue(index: nat, value: int)
      requires Valid() && index < |sliders|
      modifies this`sliders, this`labels, this`emitted
      ensures Valid()
      ensures sliders == if value == old(sliders)[index] then old(sliders) else old(sliders)[index := value]
      ensures labels == if value == old(sliders)[index] then old(labels) else old(labels)[index := JointLabel(jointName[index], value)]
      ensures emitted == old(emitted) + if value == old(sliders)[index] then [] else [sliders]
    {
      if sliders[index] != value {
        sliders := sliders[index := value];
        UpdateLabel(index, value);
      }
    }

    /**
     * `set_slider_values`: slider i takes values[i] for i below the slider count.
     * A slider whose value really changes fires `valueChanged`, which relabels it
     * through `update_label`.
     */
    method SetSliderValues(values: seq<int>)
      requires Valid()
      modifies this`sliders, this`labels, this`emitted
      ensures Valid()
      ensures sliders == Overlay(old(sliders), values)
      ensures labels == Relabelled(jointName, old(labels), old(sliders), values)
      ensures emitted == old(emitted) + Snapshots(old(sliders), values, 0)
    {
      var i := 0;
      while i < |values|
        invariant 0 <= i <= |values| && Valid()
        invariant sliders == Overlay(old(sliders), values[..i])
        invariant labels == Relabelled(jointName, old(labels), old(sliders), values[..i])
        invariant emitted + Snapshots(sliders, values, i) == old(emitted) + Snapshots(old(sliders), values, 0)
      {
        OverlayStep(old(sliders), values, i);
        RelabelledStep(jointName, old(labels), old(sliders), values, i);
        if i < |sliders| {
          ghost var s0, e0 := sliders, emitted;
          SetSliderValue(i, values[i]);
          SnapshotsStep(s0, e0, sliders, emitted, values, i);
        }
        i := i + 1;
      }
      assert values[..i] == values;
    }

    /** `get_slider_values`: one value per slider, in slider order. */
    function GetSliderValues(): (r: seq<int>)
      reads this
      ensures |r| == |sliders| && forall i :: 0 <= i < |r| ==> r[i] == sliders[i]
    {
      sliders
    }

    /** `toggle_button_clicked`: the click flips the checked state; checked means closed. */
    method ToggleButtonClicked()
      requires Valid()
      modifies this`toggleChecked, this`toggleText, this`isOpen
      ensures Valid()
      ensures toggleChecked == !old(toggleChecked) && isOpen == !old(isOpen)
      ensures toggleText == (if toggleChecked then "Closed" else "Opened")
    {
      toggleChecked := !toggleChecked;
      if toggleChecked {
        toggleText := "Closed";
        isOpen := false;
      } else {
        toggleText := "Opened";
        isOpen := true;
      }
    }
  }
}
