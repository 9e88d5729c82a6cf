/**
 * The L7 legacy padding in the status examples (L10/get_status/get_set_state.py
 * and get_set_speed.py): an L7 hand is driven with seven values, but a user of
 * the five-finger interface passes five, so two more of 100 are appended.
 */
module GetStatus {
  import opened Driver
  import HandApi

  /** The value appended for the two extra L7 channels. */
  const PadValue := 100

  /** Whether the padding rule fires: the model is exactly "L7" and five values were given. */
  predicate NeedsPad(handJoint: string, values: seq<int>)
  {
    handJoint == "L7" && |values| == 5
  }

  /**
   * The list a `set_position` / `set_speed` sends: `values + [100, 100]` for
   * exactly "L7" with five values, and `values` as given in every other case.
   */
  function LegacyPad(handJoint: string, values: seq<int>): (r: seq<int>)
    ensures |r| == if NeedsPad(handJoint, values) then 7 else |values|
    ensures r[..|values|] == values
    ensures forall k :: |values| <= k < |r| ==> r[k] == PadValue
  {
    if handJoint == "L7" then
      if |values| == 5 then values + [PadValue, PadValue] else values
    else values
  }

  /** `GetState.set_position`: the one `finger_move` the script issues. */
  function SetPositionCommand(handJoint: string, position: seq<int>): (c: Command)
    ensures c.FingerMove? && c.pose == LegacyPad(handJoint, position)
  {
    FingerMove(LegacyPad(handJoint, position))
  }

  /** `GetSpeed.set_speed`: the one `set_speed` the script issues. */
  function SetSpeedCommand(handJoint: string, speed: seq<int>): (c: Command)
    ensures c.SetSpeed? && c.speed == LegacyPad(handJoint, speed)
  {
    SetSpeed(LegacyPad(handJoint, speed))
  }

  /** The rule pads or passes through, and nothing else: both directions. */
  lemma LegacyPadCases(handJoint: string, values: seq<int>)
    ensures NeedsPad(handJoint, values) <==> LegacyPad(handJoint, values) == values + [100, 100]
    ensures !NeedsPad(handJoint, values) <==> LegacyPad(handJoint, values) == values
  {
    var r := LegacyPad(handJoint, values);
    if NeedsPad(handJoint, values) {
      assert |r| != |values|;
    }
  }

  /** The comparison is case sensitive: "l7" and " L7" are not padded. */
  lemma LegacyPadCaseSensitive(a: int, b: int, c: int, d: int, e: int)
    ensures LegacyPad("l7", [a, b, c, d, e]) == [a, b, c, d, e]
    ensures LegacyPad(" L7", [a, b, c, d, e]) == [a, b, c, d, e]
    ensures LegacyPad("L7", [a, b, c, d, e]) == [a, b, c, d, e, 100, 100]
  {
    LegacyPadCases("L7", [a, b, c, d, e]);
  }

  /** Padding an already padded list changes nothing. */
  lemma LegacyPadIdempotent(handJoint: string, values: seq<int>)
    ensures LegacyPad(handJoint, LegacyPad(handJoint, values)) == LegacyPad(handJoint, values)
  {
    var once := LegacyPad(handJoint, values);
    LegacyPadCases(handJoint, once);
    assert !NeedsPad(handJoint, once);
  }

  /**
   * The speed command line takes exactly five integers, so an "L7" invocation
   * always sends seven: as many as the GUI broadcasts to an L7 hand.
   */
  lemma CliSpeedOnL7SendsSeven(speed: seq<int>)
    requires |speed| == 5
    ensures |SetSpeedCommand("L7", speed).speed| == 7 == HandApi.ChannelCount("L7")
    ensures SetSpeedCommand("L7", speed).speed[..5] == speed
  {
  }
}
