/**
 * The dynamic grasping example (L10/grab/dynamic_grasping.py): set the speed,
 * open to a preparatory pose, then close onto an object of a given diameter by
 * rewriting the ten-entry pose in place.
 */
module DynamicGrasping {
  import opened Driver

  const PoseLength := 10

  /** The preparatory pose sent before grasping. */
  const PreparePose: seq<int> := [255, 70, 255, 255, 255, 255, 255, 255, 255, 120]

  /**
   * The grasp pose for an object `mm` millimetres across: thumb and the four
   * finger bends open by 2 per millimetre from 60 and 25; the other entries are fixed.
   */
  function GraspPose(mm: int): (pose: seq<int>)
    ensures |pose| == PoseLength
    ensures pose[2] == pose[3] == pose[4] == pose[5] == pose[0] - 35
  {
    var i := mm * 2;
    [60 + i, 60, 25 + i, 25 + i, 25 + i, 25 + i, 255, 255, 255, 58]
  }

  /** Lines 36-45 of `main`: every entry of `pose` is overwritten, whatever it held before. */
  method RewritePose(pose: array<int>, mm: int)
    requires pose.Length == PoseLength
    modifies pose
    ensures pose[..] == GraspPose(mm)
  {
    var i := mm * 2;
    pose[0] := 60 + i;
    pose[1] := 60;
    pose[2] := 25 + i;
    pose[3] := 25 + i;
    pose[4] := 25 + i;
    pose[5] := 25 + i;
    pose[6] := 255;
    pose[7] := 255;
    pose[8] := 255;
    pose[9] := 58;
  }

  /** `main`: the driver calls in order, each pose as it was when sent. */
  method Grasp(speed: seq<int>, mm: int) returns (sent: seq<Command>)
    ensures sent == [SetSpeed(speed), FingerMove(PreparePose), FingerMove(GraspPose(mm))]
  {
    sent := [SetSpeed(speed)];
    var pose := new int[PoseLength];
    pose[0], pose[1], pose[2], pose[3], pose[4] := 255, 70, 255, 255, 255;
    pose[5], pose[6], pose[7], pose[8], pose[9] := 255, 255, 255, 255, 120;
    assert pose[..] == PreparePose;
    sent := sent + [FingerMove(pose[..])];
    RewritePose(pose, mm);
    sent := sent + [FingerMove(pose[..])];
  }

  /** The entries that do not depend on the diameter. */
  lemma GraspPoseFixedEntries(mm: int, other: int)
    ensures GraspPose(mm)[1] == 60 && GraspPose(mm)[9] == 58
    ensures forall k :: 6 <= k <= 8 ==> GraspPose(mm)[k] == 255
    ensures forall k :: k in {1, 6, 7, 8, 9} ==> GraspPose(mm)[k] == GraspPose(other)[k]
  {
  }

  /** A wider object never closes any finger further: every entry is non-decreasing in `mm`. */
  lemma GraspPoseMonotone(mm: int, wider: int)
    requires mm <= wider
    ensures forall k :: 0 <= k < PoseLength ==> GraspPose(mm)[k] <= GraspPose(wider)[k]
  {
  }

  /**
   * Nothing clamps the pose: every entry is a valid byte (0..255) exactly when
   * -12 <= mm <= 97; a 98 mm object already asks the thumb for 256.
   */
  lemma GraspPoseInByteRange(mm: int)
    ensures (forall k :: 0 <= k < PoseLength ==> 0 <= GraspPose(mm)[k] <= 255) <==> -12 <= mm <= 97
  {
    var pose := GraspPose(mm);
    if !(-12 <= mm <= 97) {
      if mm > 97 {
        assert pose[0] > 255;
      } else {
        assert pose[2] < 0;
      }
    }
  }
}
