/**
 * The hand driver (`RealHandApi` / `LinkerHandApi`) is not part of this model.
 * Its calls are recorded as values, in the order they are issued, so that the
 * callers' contracts can say exactly which command reaches the driver.
 */
module Driver {
  datatype Command =
    | FingerMove(pose: seq<int>)     // finger_move(pose=...)
    | SetSpeed(speed: seq<int>)      // set_speed(speed=...)
    | SetTorque(torque: seq<int>)    // set_torque(torque_values)
    | CloseCan                       // close_can()

  /** A status signal `status_updated.emit(kind, message)`. */
  datatype Status = Status(kind: string, message: string)
}
