/**
 * OpenTrackUdpSender: throttled UDP output of head poses in OpenTrack's
 * text format "yaw,pitch,roll,x,y,z\n", with the position fields always 0.
 * The stopwatch is a start time plus the clock reading `now` that each call
 * receives; whether the socket accepts a datagram is the input `socketOk`,
 * and the datagrams it accepts are recorded, with their send times, in
 * `sent`.
 */
module OpenTrackSending {
  import opened Wrappers
  import opened Formatting
  import opened HeadPoses

  /** The address the bridge sends to: the loopback host and OpenTrack's default port. */
  const DefaultHost: string := "127.0.0.1"
  const DefaultPort: int := 4242

  /**
   * 1000 / targetHz in C# integer division, which truncates toward zero:
   * the whole milliseconds of one period at the target rate. A target of 0
   * makes the source throw, so it is excluded.
   */
  function MinIntervalMs(targetHz: int): (m: int)
    requires targetHz != 0
    ensures targetHz > 0 ==> 0 <= m * targetHz <= 1000 < (m + 1) * targetHz
    ensures targetHz < 0 ==> m <= 0 && 0 <= (-m) * (-targetHz) <= 1000 < (-m + 1) * (-targetHz)
  {
    if targetHz > 0 then 1000 / targetHz else -(1000 / -targetHz)
  }

  /** The rates the bridge uses: 100 Hz in test mode, 200 Hz in real mode, and the ~100-120 Hz named in OpenTrackUdpSender's class comment. */
  lemma BridgeIntervals()
    ensures MinIntervalMs(100) == 10
    ensures MinIntervalMs(200) == 5
    ensures MinIntervalMs(120) == 8
  {
  }

  /** Above 1000 Hz the interval is 0 ms, so for a clock that does not run backwards the sender never throttles. */
  lemma FastRatesDoNotThrottle(targetHz: int)
    requires targetHz > 1000
    ensures MinIntervalMs(targetHz) == 0
  {
  }

  /** The OpenTrack line for yaw, pitch and roll given in hundredths of a degree. */
  function Message(yaw: int, pitch: int, roll: int): (m: string)
    ensures |m| == |FormatF2(yaw)| + |FormatF2(pitch)| + |FormatF2(roll)| + 9
  {
    FormatF2(yaw) + LinePitchRollText(pitch, roll)
  }

  /** The line after the yaw: ",<pitch>" and the rest. */
  function LinePitchRollText(pitch: int, roll: int): string {
    "," + FormatF2(pitch) + LineRollText(roll)
  }

  /** The line after the pitch: ",<roll>" and the zero position. */
  function LineRollText(roll: int): string {
    "," + FormatF2(roll) + ",0,0,0\n"
  }

  /** Reads an OpenTrack line with a zero position back into yaw, pitch and roll hundredths. */
  function ParseMessage(s: string): Option<(int, int, int)> {
    var (yaw, s1) :- Field("", s);
    var (pitch, s2) :- Field(",", s1);
    var (roll, s3) :- Field(",", s2);
    if s3 == ",0,0,0\n" then Some((yaw, pitch, roll)) else None
  }

  /** The line carries exactly the three angles, in the order yaw, pitch, roll. */
  lemma MessageRoundTrip(yaw: int, pitch: int, roll: int)
    ensures ParseMessage(Message(yaw, pitch, roll)) == Some((yaw, pitch, roll))
  {
    assert Message(yaw, pitch, roll) == "" + FormatF2(yaw) + LinePitchRollText(pitch, roll);
    FieldRoundTrip("", yaw, LinePitchRollText(pitch, roll));
    FieldRoundTrip(",", pitch, LineRollText(roll));
    FieldRoundTrip(",", roll, ",0,0,0\n");
  }

  /**
   * The line ends with the zero position ",0,0,0\n", and its only newline
   * is its last character: each datagram carries one line.
   */
  lemma MessageSingleLine(yaw: int, pitch: int, roll: int)
    ensures var m := Message(yaw, pitch, roll);
            && m[|m| - 7..] == ",0,0,0\n"
            && forall i :: 0 <= i < |m| - 1 ==> m[i] != '\n'
  {
    var m := Message(yaw, pitch, roll);
    var f, r := FormatF2(yaw), LinePitchRollText(pitch, roll);
    assert m == f + r;
    var g, rt := FormatF2(pitch), LineRollText(roll);
    assert r == "," + g + rt;
    var h := FormatF2(roll);
    assert rt == "," + h + ",0,0,0\n";
    forall i | 0 <= i < |m| - 1
      ensures m[i] != '\n'
    {
      if i < |f| {
        assert m[i] == f[i] && IsNumeralChar(f[i]);
      } else if i == |f| || i == |f| + 1 + |g| {
        assert m[i] == ',';
      } else if i < |f| + 1 + |g| {
        assert m[i] == g[i - |f| - 1] && IsNumeralChar(g[i - |f| - 1]);
      } else if i < |f| + 2 + |g| + |h| {
        assert m[i] == h[i - |f| - 2 - |g|] && IsNumeralChar(h[i - |f| - 2 - |g|]);
      } else {
        assert m[i] == ",0,0,0\n"[i - |f| - 2 - |g| - |h|];
      }
    }
    assert m[|m| - 7..] == ",0,0,0\n";
  }

  lemma MessageIsAscii(yaw: int, pitch: int, roll: int)
    ensures IsAscii(Message(yaw, pitch, roll))
  {
    FormatF2IsAscii(yaw);
    FormatF2IsAscii(pitch);
    FormatF2IsAscii(roll);
  }

  /** The bytes SendPose hands to the socket: the ASCII encoding of the pose's line. */
  function Payload(hundredths: real -> int, pose: HeadPose): (bs: seq<byte>)
    ensures |bs| == |Message(hundredths(pose.yaw), hundredths(pose.pitch), hundredths(pose.roll))|
  {
    AsciiEncode(Message(hundredths(pose.yaw), hundredths(pose.pitch), hundredths(pose.roll)))
  }

  /** What a receiver reads from a datagram: ASCII text, then the OpenTrack line. */
  function DecodePayload(bs: seq<byte>): Option<(int, int, int)> {
    ParseMessage(AsciiDecode(bs))
  }

  /**
   * A receiver recovers the pose's rounded yaw, pitch and roll from the
   * datagram, and the timestamp is not sent.
   */
  lemma PayloadRoundTrip(hundredths: real -> int, pose: HeadPose, t: int)
    ensures DecodePayload(Payload(hundredths, pose)) == Some((hundredths(pose.yaw), hundredths(pose.pitch), hundredths(pose.roll)))
    ensures Payload(hundredths, pose.(timestamp := t)) == Payload(hundredths, pose)
  {
    var y, p, r := hundredths(pose.yaw), hundredths(pose.pitch), hundredths(pose.roll);
    MessageIsAscii(y, p, r);
    AsciiRoundTrip(Message(y, p, r));
    MessageRoundTrip(y, p, r);
  }

  /** In the model the centred pose goes out as "0.00,0.00,0.00,0,0,0\n". */
  lemma ZeroMessage()
    ensures Message(0, 0, 0) == "0.00,0.00,0.00,0,0,0\n"
  {
    assert NatDigits(0) == "0";
    assert Magnitude(0) == "0.00";
  }

  /** A pose of yaw 90, pitch -45 and roll 10 degrees goes out as "90.00,-45.00,10.00,0,0,0\n". */
  lemma ExampleMessage()
    ensures Message(9000, -4500, 1000) == "90.00,-45.00,10.00,0,0,0\n"
  {
    ExampleFields();
    assert Message(9000, -4500, 1000) == "90.00" + ("," + "-45.00" + ("," + "10.00" + ",0,0,0\n"));
  }

  lemma ExampleFields()
    ensures FormatF2(9000) == "90.00" && FormatF2(-4500) == "-45.00" && FormatF2(1000) == "10.00"
  {
    WholeDegrees(90, '9', '0');
    WholeDegrees(45, '4', '5');
    WholeDegrees(10, '1', '0');
  }

  /** A whole number of degrees from 10 to 99, with digits c1 c2, formats as c1 c2 ".00". */
  lemma WholeDegrees(n: nat, c1: char, c2: char)
    requires 10 <= n < 100 && c1 == DigitChar(n / 10) && c2 == DigitChar(n % 10)
    ensures FormatF2(n * 100) == [c1, c2, '.', '0', '0']
    ensures FormatF2(-(n * 100)) == ['-', c1, c2, '.', '0', '0']
  {
    assert NatDigits(n) == NatDigits(n / 10) + [DigitChar(n % 10)];
    assert (n * 100) / 100 == n && (n * 100) % 100 == 0;
    assert Magnitude(n * 100) == [c1, c2, '.', '0', '0'];
  }

  /** One datagram accepted by the socket, with the clock reading at which it was sent. */
  datatype Datagram = Datagram(at: int, bytes: seq<byte>)

  /** Consecutive datagrams are at least m milliseconds apart. */
  predicate Spaced(ds: seq<Datagram>, m: int) {
    forall i :: 0 < i < |ds| ==> ds[i].at - ds[i - 1].at >= m
  }

  /** Spacing adds up: j - i steps apart means at least (j - i) * m milliseconds apart. */
  lemma {:induction false} SpacingAccumulates(ds: seq<Datagram>, m: int, i: int, j: int)
    requires Spaced(ds, m)
    requires 0 <= i <= j < |ds|
    ensures ds[j].at - ds[i].at >= (j - i) * m
    decreases j - i
  {
    if i < j {
      SpacingAccumulates(ds, m, i, j - 1);
      assert ds[j].at - ds[j - 1].at >= m;
      assert (j - i) * m == (j - 1 - i) * m + m;
    }
  }

  class OpenTrackUdpSender {
    const host: string
    const port: int
    const minIntervalMs: int
    /** The clock reading at construction, when the stopwatch was started. */
    ghost const startedAt: int
    /** The clock reading at the last (re)start of the throttle stopwatch. */
    var timerStart: int
    var disposed: bool
    /** The datagrams the socket has accepted, oldest first. */
    var sent: seq<Datagram>

    /**
     * The throttle keeps every datagram at least minIntervalMs after the
     * previous one, and the first at least minIntervalMs after
     * construction; the stopwatch was last restarted by the latest
     * datagram, or at construction.
     */
    ghost predicate Valid()
      reads this
    {
      && Spaced(sent, minIntervalMs)
      && (sent == [] ==> timerStart == startedAt)
      && (sent != [] ==> timerStart == sent[|sent| - 1].at && sent[0].at - startedAt >= minIntervalMs)
    }

    /** The OpenTrackUdpSender constructor, with the clock reading `now` at which the stopwatch starts. */
    constructor(host: string, port: int, targetHz: int, now: int)
      requires targetHz != 0
      ensures Valid()
      ensures this.host == host && this.port == port
      ensures minIntervalMs == MinIntervalMs(targetHz)
      ensures startedAt == now && timerStart == now
      ensures !disposed && sent == []
    {
      this.host := host;
      this.port := port;
      minIntervalMs := MinIntervalMs(targetHz);
      startedAt := now;
      timerStart := now;
      disposed := false;
      sent := [];
    }

    /** The stopwatch's elapsed milliseconds have reached the minimum interval. */
    predicate Due(now: int)
      reads this
    {
      now - timerStart >= minIntervalMs
    }

    /**
     * OpenTrackUdpSender.SendPose: skipped (false, timer untouched) while
     * the interval has not elapsed; otherwise the line is sent, and on
     * success the stopwatch restarts and the result is true. A failed send
     * gives false and leaves the stopwatch running. A disposed socket fails
     * every send.
     */
    method SendPose(hundredths: real -> int, pose: HeadPose, now: int, socketOk: bool) returns (ok: bool)
      requires Valid()
      modifies this
      ensures Valid()
      ensures ok <==> old(Due(now)) && socketOk && !disposed
      ensures sent == old(sent) + (if ok then [Datagram(now, Payload(hundredths, pose))] else [])
      ensures timerStart == (if ok then now else old(timerStart))
      ensures disposed == old(disposed)
    {
      if now - timerStart < minIntervalMs {
        return false;
      }
      var data := Payload(hundredths, pose);
      if !socketOk || disposed {
        return false;
      }
      sent := sent + [Datagram(now, data)];
      timerStart := now;
      ok := true;
    }

    /** OpenTrackUdpSender.Dispose: the socket is closed. */
    method Dispose()
      modifies this
      ensures disposed
      ensures sent == old(sent) && timerStart == old(timerStart)
    {
      disposed := true;
    }
  }

  /**
   * The throttle bounds the rate: the n-th datagram leaves at least
   * n * minIntervalMs milliseconds after the sender was created.
   */
  lemma ThrottleBoundsRate(s: OpenTrackUdpSender)
    requires s.Valid() && s.sent != []
    ensures s.sent[|s.sent| - 1].at - s.startedAt >= |s.sent| * s.minIntervalMs
  {
    var n := |s.sent|;
    SpacingAccumulates(s.sent, s.minIntervalMs, 0, n - 1);
    assert n * s.minIntervalMs == (n - 1) * s.minIntervalMs + s.minIntervalMs;
  }
}
