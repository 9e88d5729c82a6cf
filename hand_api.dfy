/**
 * `HandApiManager` (gui_control.py): picks the configured hand, and turns the
 * GUI's position, speed and torque requests into driver calls.
 */
module HandApi {
  import opened Wrappers
  import opened Text
  import opened Driver
  import opened MatrixDisplay

  /** One hand's entry under `REAL_HAND` in the settings file, already loaded. */
  datatype HandEntry = HandEntry(present: bool, joint: string, touch: bool, can: string, modbus: string)

  /** The `REAL_HAND` section: `LEFT_HAND` and `RIGHT_HAND`. */
  datatype RealHandConfig = RealHandConfig(leftHand: HandEntry, rightHand: HandEntry)

  datatype Side = Left | Right

  /** `hand_type` as the driver expects it. */
  function SideName(side: Side): string
  {
    if side == Left then "left" else "right"
  }

  /** The GUI drives one hand: the left one if it exists, otherwise the right one if it exists. */
  function SelectSide(leftExists: bool, rightExists: bool): (side: Option<Side>)
    ensures side == Some(Left) <==> leftExists
    ensures side == Some(Right) <==> !leftExists && rightExists
    ensures side == None <==> !leftExists && !rightExists
  {
    if leftExists then Some(Left) else if rightExists then Some(Right) else None
  }

  /** The settings of the selected hand. */
  function SelectedEntry(setting: RealHandConfig, side: Side): (entry: HandEntry)
    ensures side == Left ==> entry == setting.leftHand
    ensures side == Right ==> entry == setting.rightHand
  {
    if side == Left then setting.leftHand else setting.rightHand
  }

  /**
   * How many channels `publish_speed` and `publish_torque` fill: 6 for O6 and L6
   * in any letter case, 7 for exactly "L7", 10 for exactly "L10", 5 otherwise.
   */
  function ChannelCount(handJoint: string): (n: nat)
    ensures n == 6 <==> Upper(handJoint) == "O6" || Upper(handJoint) == "L6"
    ensures n == 7 <==> handJoint == "L7"
    ensures n == 10 <==> handJoint == "L10"
    ensures n == 5 <==> !(Upper(handJoint) == "O6" || Upper(handJoint) == "L6" || handJoint == "L7" || handJoint == "L10")
  {
    var upper := Upper(handJoint);
    assert handJoint == "L7" ==> upper[1] == '7';
    if upper == "O6" || upper == "L6" then 6
    else if handJoint == "L7" then 7
    else if handJoint == "L10" then 10
    else 5
  }

  /** Only the six-joint names are compared without regard to case. */
  lemma ChannelCountCaseQuirk()
    ensures ChannelCount("o6") == 6 && ChannelCount("l6") == 6
    ensures ChannelCount("l7") == 5 && ChannelCount("l10") == 5
  {
    assert Upper("o6") == "O6";
    assert Upper("l6") == "L6";
    assert Upper("l7") == "L7";
    assert Upper("l10") == "L10";
  }

  /** `[val] * joint_len`: one copy of the value per channel. */
  function Broadcast(val: int, handJoint: string): (values: seq<int>)
    ensures |values| == ChannelCount(handJoint)
    ensures forall i :: 0 <= i < |values| ==> values[i] == val
  {
    seq(ChannelCount(handJoint), _ => val)
  }

  /**
   * What `update_matrix_data` emits for one poll: nothing without an API or while
   * touch is off or a publish holds the lock; otherwise the five readings, or
   * five all-zero matrices when reading failed (`readings` is None).
   */
  function PollTouch(apiReady: bool, isTouch: bool, lock: bool, readings: Option<seq<TouchData>>): (emitted: Option<map<string, TouchData>>)
    requires readings.Some? ==> |readings.value| == 5
    ensures emitted.Some? <==> apiReady && isTouch && !lock
    ensures emitted.Some? ==> forall f :: f in emitted.value <==> f in FingerNames
    ensures emitted.Some? ==> forall i :: 0 <= i < 5 ==>
      emitted.value[FingerNames[i]] == if readings.Some? then readings.value[i] else Present(DefaultMatrix)
  {
    if !apiReady || !(isTouch && !lock) then None
    else if readings.None? then
      var zeros := Present(DefaultMatrix);
      Some(map["thumb_matrix" := zeros, "index_matrix" := zeros, "middle_matrix" := zeros,
               "ring_matrix" := zeros, "little_matrix" := zeros])
    else
      var r := readings.value;
      Some(map["thumb_matrix" := r[0], "index_matrix" := r[1], "middle_matrix" := r[2],
               "ring_matrix" := r[3], "little_matrix" := r[4]])
  }

  class HandApiManager {
    var leftHand: bool
    var rightHand: bool
    var handExists: bool
    var handJoint: string
    var handType: string
    var isTouch: bool
    var can: string
    var modbus: string
    /** `self.api is not None`. */
    var apiReady: bool
    /** Set while `publish_joint_state` talks to the driver, so a poll does not interleave. */
    var lock: bool
    /** `matrix_timer.isActive()`. */
    var pollTimerActive: bool
    /** The driver calls issued so far. */
    var sent: seq<Command>
    /** The `status_updated` signals emitted so far. */
    var statuses: seq<Status>

    /**
     * `__init__`: reads the selected hand's settings, creates the driver and starts
     * the 500 ms touch poll. With no hand configured the source reads `is_touch`,
     * which was never set, and raises; so some hand must exist.
     */
    constructor (setting: RealHandConfig)
      requires setting.leftHand.present || setting.rightHand.present
      ensures var side := SelectSide(setting.leftHand.present, setting.rightHand.present).value;
        var entry := SelectedEntry(setting, side);
        handJoint == entry.joint && handType == SideName(side) && isTouch == entry.touch
        && can == entry.can && modbus == entry.modbus && handExists
      ensures leftHand == setting.leftHand.present && rightHand == (!setting.leftHand.present && setting.rightHand.present)
      ensures apiReady && !lock && pollTimerActive && sent == []
      ensures statuses == [Status("info", "Hand API initialized successfully: " + handType + " " + handJoint)]
    {
      sent := [];
      statuses := [];
      new;
      InitRealHandType(setting);
      apiReady := true;
      statuses := statuses + [Status("info", "Hand API initialized successfully: " + handType + " " + handJoint)];
      pollTimerActive := true;
      lock := false;
    }

    /** `_init_real_hand_type`: the left hand wins; at most one side is chosen. */
    method InitRealHandType(setting: RealHandConfig)
      requires setting.leftHand.present || setting.rightHand.present
      modifies this`leftHand, this`rightHand, this`handExists, this`handJoint, this`handType,
        this`isTouch, this`can, this`modbus
      ensures leftHand == setting.leftHand.present
      ensures rightHand == (!setting.leftHand.present && setting.rightHand.present)
      ensures !(leftHand && rightHand)
      ensures var entry := if leftHand then setting.leftHand else setting.rightHand;
        handJoint == entry.joint && handType == (if leftHand then "left" else "right") && isTouch == entry.touch
        && can == entry.can && modbus == entry.modbus && handExists
      ensures sent == old(sent) && statuses == old(statuses)
      ensures apiReady == old(apiReady) && lock == old(lock) && pollTimerActive == old(pollTimerActive)
    {
      leftHand := false;
      rightHand := false;
      if setting.leftHand.present {
        leftHand := true;
      } else if setting.rightHand.present {
        rightHand := true;
      }
      // the source's "left wins" reset for both flags set can never fire: the elif above already excludes it
      assert !(leftHand && rightHand);
      if leftHand {
        TakeEntry(setting.leftHand, "left");
      }
      if rightHand {
        TakeEntry(setting.rightHand, "right");
      }
    }

    /** The body of each branch of `_init_real_hand_type`: the chosen hand's settings become the manager's. */
    method TakeEntry(entry: HandEntry, side: string)
      modifies this`handExists, this`handJoint, this`handType, this`isTouch, this`can, this`modbus
      ensures handExists && handJoint == entry.joint && handType == side && isTouch == entry.touch
      ensures can == entry.can && modbus == entry.modbus
    {
      handExists := true;
      handJoint := entry.joint;
      handType := side;
      isTouch := entry.touch;
      can := entry.can;
      modbus := entry.modbus;
    }

    /**
     * `publish_joint_state`: sends the positions under the lock and reports the
     * outcome; `driverError` is the driver's exception message, if it raised.
     */
    method PublishJointState(positions: seq<int>, driverError: Option<string>)
      modifies this`lock, this`sent, this`statuses
      ensures !apiReady ==> (lock == old(lock) && sent == old(sent)
        && statuses == old(statuses) + [Status("error", "Hand API not initialized")])
      ensures apiReady ==> (!lock && sent == old(sent) + [FingerMove(positions)]
        && statuses == old(statuses) + [if driverError.None? then Status("info", "Joint state sent")
                                        else Status("error", "Send failed: " + driverError.value)])
    {
      if !apiReady {
        statuses := statuses + [Status("error", "Hand API not initialized")];
        return;
      }
      lock := true;
      sent := sent + [FingerMove(positions)];
      if driverError.None? {
        statuses := statuses + [Status("info", "Joint state sent")];
      } else {
        statuses := statuses + [Status("error", "Send failed: " + driverError.value)];
      }
      lock := false;
    }

    /** `publish_speed`: the same speed on every channel of the model. */
    method PublishSpeed(val: int, driverError: Option<string>)
      modifies this`sent, this`statuses
      ensures !apiReady ==> sent == old(sent) && statuses == old(statuses) + [Status("error", "Hand API not initialized")]
      ensures apiReady ==> (sent == old(sent) + [SetSpeed(Broadcast(val, handJoint))]
        && statuses == old(statuses) + [if driverError.None? then Status("info", "Speed set to " + FormatIntList(Broadcast(val, handJoint)))
                                        else Status("error", "Failed to set speed: " + driverError.value)])
    {
      if !apiReady {
        statuses := statuses + [Status("error", "Hand API not initialized")];
        return;
      }
      var jointLen := 0;
      var upper := Upper(handJoint);
      if upper == "O6" || upper == "L6" {
        jointLen := 6;
      } else if handJoint == "L7" {
        jointLen := 7;
      } else if handJoint == "L10" {
        jointLen := 10;
      } else {
        jointLen := 5;
      }
      var speedValues := seq(jointLen, _ => val);
      sent := sent + [SetSpeed(speedValues)];
      if driverError.None? {
        statuses := statuses + [Status("info", "Speed set to " + FormatIntList(speedValues))];
      } else {
        statuses := statuses + [Status("error", "Failed to set speed: " + driverError.value)];
      }
    }

    /** `publish_torque`: the same torque on every channel of the model. */
    method PublishTorque(val: int, driverError: Option<string>)
      modifies this`sent, this`statuses
      ensures !apiReady ==> sent == old(sent) && statuses == old(statuses) + [Status("error", "Hand API not initialized")]
      ensures apiReady ==> (sent == old(sent) + [SetTorque(Broadcast(val, handJoint))]
        && statuses == old(statuses) + [if driverError.None? then Status("info", "Torque set to " + FormatIntList(Broadcast(val, handJoint)))
                                        else Status("error", "Failed to set torque: " + driverError.value)])
    {
      if !apiReady {
        statuses := statuses + [Status("error", "Hand API not initialized")];
        return;
      }
      var jointLen := 0;
      var upper := Upper(handJoint);
      if upper == "O6" || upper == "L6" {
        jointLen := 6;
      } else if handJoint == "L7" {
        jointLen := 7;
      } else if handJoint == "L10" {
        jointLen := 10;
      } else {
        jointLen := 5;
      }
      var torqueValues := seq(jointLen, _ => val);
      sent := sent + [SetTorque(torqueValues)];
      if driverError.None? {
        statuses := statuses + [Status("info", "Torque set to " + FormatIntList(torqueValues))];
      } else {
        statuses := statuses + [Status("error", "Failed to set torque: " + driverError.value)];
      }
    }

    /** `update_matrix_data`: one tick of the touch poll. */
    method UpdateMatrixData(readings: Option<seq<TouchData>>) returns (emitted: Option<map<string, TouchData>>)
      requires readings.Some? ==> |readings.value| == 5
      ensures emitted == PollTouch(apiReady, isTouch, lock, readings)
    {
      if !apiReady {
        return None;
      }
      emitted := None;
      if isTouch && !lock {
        if readings.Some? {
          var r := readings.value;
          emitted := Some(map["thumb_matrix" := r[0], "index_matrix" := r[1], "middle_matrix" := r[2],
                              "ring_matrix" := r[3], "little_matrix" := r[4]]);
        } else {
          var defaultData := Present(DefaultMatrix);
          emitted := Some(map["thumb_matrix" := defaultData, "index_matrix" := defaultData,
                              "middle_matrix" := defaultData, "ring_matrix" := defaultData,
                              "little_matrix" := defaultData]);
        }
      }
    }

    /** `shutdown`: closes the bus if there is a driver, and stops the poll. */
    method Shutdown(driverError: Option<string>)
      modifies this`sent, this`statuses, this`pollTimerActive
      ensures !pollTimerActive
      ensures !apiReady ==> sent == old(sent) && statuses == old(statuses)
      ensures apiReady ==> (sent == old(sent) + [CloseCan]
        && statuses == old(statuses) + [if driverError.None? then Status("info", "API connection closed")
                                        else Status("error", "Failed to close API: " + driverError.value)])
    {
      if apiReady {
        sent := sent + [CloseCan];
        if driverError.None? {
          statuses := statuses + [Status("info", "API connection closed")];
        } else {
          statuses := statuses + [Status("error", "Failed to close API: " + driverError.value)];
        }
      }
      pollTimerActive := false;
    }
  }
}
