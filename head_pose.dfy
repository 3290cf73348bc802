/**
 * HeadPose: a value holding yaw, pitch and roll in degrees and a Unix
 * timestamp in milliseconds, and its display text. The struct's
 * constructor assigns its four arguments, in the order yaw, pitch, roll,
 * timestamp, to the four fields, which is what the datatype constructor
 * does; the fields are plain auto-properties, so no value is normalised or
 * clamped.
 */
module HeadPoses {
  import opened Wrappers
  import opened Formatting

  datatype HeadPose = HeadPose(yaw: real, pitch: real, roll: real, timestamp: int)

  const Degree: string := "°"

  /**
   * HeadPose.ToString: "Yaw=<F2>° Pitch=<F2>° Roll=<F2>°". The F2 rounding
   * of a field to hundredths is the parameter `hundredths`.
   */
  function ToString(p: HeadPose, hundredths: real -> int): (s: string)
    ensures |s| > 4 && s[..4] == "Yaw=" && s[|s| - 1..] == Degree
    ensures forall i :: 0 <= i < |s| ==> s[i] != '\n'
  {
    "Yaw=" + FormatF2(hundredths(p.yaw)) + PosePitchText(hundredths(p.pitch), hundredths(p.roll))
  }

  /** Reads the text ToString produces back into yaw, pitch and roll hundredths. */
  function ParsePoseText(s: string): Option<(int, int, int)> {
    var (yaw, s1) :- Field("Yaw=", s);
    var (pitch, s2) :- Field(Degree + " Pitch=", s1);
    var (roll, s3) :- Field(Degree + " Roll=", s2);
    if s3 == Degree then Some((yaw, pitch, roll)) else None
  }

  /**
   * The display text lists the yaw, pitch and roll, in that order, each
   * with two decimals and a degree sign, and nothing else: reading it back
   * gives exactly the three rounded fields.
   */
  lemma ToStringRoundTrip(p: HeadPose, hundredths: real -> int)
    ensures ParsePoseText(ToString(p, hundredths)) == Some((hundredths(p.yaw), hundredths(p.pitch), hundredths(p.roll)))
  {
    var y, pi, r := hundredths(p.yaw), hundredths(p.pitch), hundredths(p.roll);
    FieldRoundTrip("Yaw=", y, PosePitchText(pi, r));
    PitchField(pi, r);
    RollField(r);
  }

  /** The text after the pitch: the roll field and the closing degree sign. */
  function PoseRollText(r: int): string {
    Degree + " Roll=" + FormatF2(r) + Degree
  }

  /** The text after the yaw: the pitch field and everything after it. */
  function PosePitchText(pi: int, r: int): string {
    Degree + " Pitch=" + FormatF2(pi) + PoseRollText(r)
  }

  /** The pitch field reads back, leaving the roll text. */
  lemma PitchField(pi: int, r: int)
    ensures Field(Degree + " Pitch=", PosePitchText(pi, r)) == Some((pi, PoseRollText(r)))
  {
    FieldRoundTrip(Degree + " Pitch=", pi, PoseRollText(r));
  }

  /** The roll field reads back, leaving only the degree sign. */
  lemma RollField(r: int)
    ensures Field(Degree + " Roll=", PoseRollText(r)) == Some((r, Degree))
  {
    FieldRoundTrip(Degree + " Roll=", r, Degree);
  }

  /** The timestamp does not appear in the display text. */
  lemma ToStringOmitsTimestamp(p: HeadPose, t: int, hundredths: real -> int)
    ensures ToString(p.(timestamp := t), hundredths) == ToString(p, hundredths)
  {
  }
}
