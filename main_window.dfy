/**
 * MainWindow: the bridge's control state (running, a pending re-centre,
 * the count of sent poses), the key commands, the per-sample pipeline from
 * quaternion to datagram, the test-mode generator, and the console writer
 * that mirrors log lines into the window.
 */
module Bridging {
  import opened Wrappers
  import opened Formatting
  import opened Quaternions
  import opened MathExtensions
  import opened HeadPoses
  import opened CoordinateMapping
  import opened OpenTrackSending

  /** The keys OnKeyDown distinguishes; every other key is Other. */
  datatype Key = R | C | M | Q | Other

  /** The action panel's buttons: Recenter, Cycle Axis, Clear and Quit. */
  datatype Button = RecenterButton | CycleButton | ClearButton | QuitButton

  /** The rates the two modes construct their senders with. */
  const RealModeHz: int := 200
  const TestModeHz: int := 100

  class MainWindow {
    var isRunning: bool
    var pendingRecenter: bool
    var sentCount: int
    var mapper: CoordinateMapper?
    var sender: OpenTrackUdpSender?
    var closed: bool

    ghost predicate Valid()
      reads this, mapper, sender
    {
      && (mapper != null ==> mapper.Valid())
      && (sender != null ==> sender.Valid())
    }

    /** A new window: not running, nothing pending, no real-mode components yet. */
    constructor()
      ensures Valid()
      ensures !isRunning && !pendingRecenter && sentCount == 0 && !closed
      ensures mapper == null && sender == null
    {
      isRunning := false;
      pendingRecenter := false;
      sentCount := 0;
      mapper := null;
      sender := null;
      closed := false;
    }

    /** MainWindow.RequestRecenter: the re-centre is deferred to the next sample. */
    method RequestRecenter()
      modifies this
      ensures pendingRecenter
      ensures isRunning == old(isRunning) && sentCount == old(sentCount) && closed == old(closed)
      ensures mapper == old(mapper) && sender == old(sender)
    {
      pendingRecenter := true;
    }

    /** Closing the window (MainWindow.OnClosed): running stops and the sender is disposed. */
    method Close()
      requires Valid()
      modifies this, sender
      ensures Valid()
      ensures closed && !isRunning
      ensures pendingRecenter == old(pendingRecenter) && sentCount == old(sentCount)
      ensures mapper == old(mapper) && sender == old(sender)
      ensures sender != null ==> sender.disposed && sender.sent == old(sender.sent) && sender.timerStart == old(sender.timerStart)
    {
      isRunning := false;
      closed := true;
      if sender != null {
        sender.Dispose();
      }
    }

    /**
     * MainWindow.OnKeyDown: ignored unless running; R requests a re-centre
     * for the next sample, C clears the calibration at once, Q closes the
     * window, M and every other key change nothing.
     */
    method OnKeyDown(k: Key)
      requires Valid()
      modifies this, mapper, sender
      ensures Valid()
      ensures mapper == old(mapper) && sender == old(sender) && sentCount == old(sentCount)
      ensures !old(isRunning) || k.M? || k.Other? ==>
                unchanged(this) && (mapper != null ==> unchanged(mapper)) && (sender != null ==> unchanged(sender))
      ensures old(isRunning) && k.R? ==>
                pendingRecenter && isRunning && closed == old(closed)
                && (mapper != null ==> unchanged(mapper)) && (sender != null ==> unchanged(sender))
      ensures old(isRunning) && k.C? ==>
                unchanged(this) && (sender != null ==> unchanged(sender))
                && (mapper != null ==> mapper.referenceQuaternion == None && !mapper.isCalibrated)
      ensures old(isRunning) && k.Q? ==>
                closed && !isRunning && pendingRecenter == old(pendingRecenter)
                && (mapper != null ==> unchanged(mapper))
                && (sender != null ==> sender.disposed && sender.sent == old(sender.sent) && sender.timerStart == old(sender.timerStart))
    {
      if !isRunning {
        return;
      }
      match k
      case R =>
        RequestRecenter();
      case C =>
        if mapper != null {
          mapper.ClearRecenter();
        }
      case M =>
      case Q =>
        Close();
      case Other =>
    }

    /**
     * A click on one of the action panel's buttons. Unlike the keys, the
     * buttons do not check the running flag: the panel becomes visible on
     * the first start and stays visible after a failed connection, so its
     * buttons act whether or not a mode is running. Recenter requests a
     * re-centre, Clear clears the calibration, Quit closes the window and
     * Cycle Axis changes nothing.
     */
    method OnButtonClick(b: Button)
      requires Valid()
      modifies this, mapper, sender
      ensures Valid()
      ensures mapper == old(mapper) && sender == old(sender) && sentCount == old(sentCount)
      ensures b.CycleButton? ==>
                unchanged(this) && (mapper != null ==> unchanged(mapper)) && (sender != null ==> unchanged(sender))
      ensures b.RecenterButton? ==>
                pendingRecenter && isRunning == old(isRunning) && closed == old(closed)
                && (mapper != null ==> unchanged(mapper)) && (sender != null ==> unchanged(sender))
      ensures b.ClearButton? ==>
                unchanged(this) && (sender != null ==> unchanged(sender))
                && (mapper != null ==> mapper.referenceQuaternion == None && !mapper.isCalibrated)
      ensures b.QuitButton? ==>
                closed && !isRunning && pendingRecenter == old(pendingRecenter)
                && (mapper != null ==> unchanged(mapper))
                && (sender != null ==> sender.disposed && sender.sent == old(sender.sent) && sender.timerStart == old(sender.timerStart))
    {
      match b
      case RecenterButton =>
        RequestRecenter();
      case CycleButton =>
      case ClearButton =>
        if mapper != null {
          mapper.ClearRecenter();
        }
      case QuitButton =>
        Close();
    }

    /**
     * StartRealMode with RunRealModeAsync up to the connection attempt:
     * ignored while running; otherwise a new mapper and a 200 Hz sender
     * to the default address are created, and a failed connection clears
     * the running flag again.
     */
    method StartRealMode(now: int, connectOk: bool)
      requires Valid()
      modifies this
      ensures Valid()
      ensures old(isRunning) ==> unchanged(this)
      ensures !old(isRunning) ==>
                && isRunning == connectOk
                && mapper != null && fresh(mapper) && mapper.referenceQuaternion == None && !mapper.isCalibrated
                && sender != null && fresh(sender) && sender.sent == [] && !sender.disposed
                && sender.minIntervalMs == MinIntervalMs(RealModeHz) && sender.timerStart == now
                && sender.host == DefaultHost && sender.port == DefaultPort
                && pendingRecenter == old(pendingRecenter) && sentCount == old(sentCount) && closed == old(closed)
    {
      if isRunning {
        return;
      }
      isRunning := true;
      mapper := new CoordinateMapper();
      sender := new OpenTrackUdpSender(DefaultHost, DefaultPort, RealModeHz, now);
      if !connectOk {
        isRunning := false;
      }
    }

    /**
     * StartTestMode with RunTestModeAsync for |times| steps: ignored while
     * running; otherwise test mode sends through its own 100 Hz sender
     * (created when the clock reads `start`), so the window's real-mode
     * components and sentCount stay as they were. The result is what that
     * sender's socket accepted: datagrams of test steps, at least 10 ms
     * apart, exactly those TestSent computes for a fresh open sender.
     */
    method StartTestMode(hundredths: real -> int, start: int, times: seq<int>, outcomes: seq<bool>)
      returns (datagrams: seq<Datagram>)
      requires Valid() && |times| == |outcomes|
      modifies this
      ensures Valid()
      ensures old(isRunning) ==> unchanged(this) && datagrams == []
      ensures !old(isRunning) ==>
                && isRunning && pendingRecenter == old(pendingRecenter) && sentCount == old(sentCount)
                && mapper == old(mapper) && sender == old(sender) && closed == old(closed)
                && |datagrams| <= |times|
                && Spaced(datagrams, MinIntervalMs(TestModeHz))
                && (datagrams != [] ==> datagrams[0].at - start >= MinIntervalMs(TestModeHz))
                && (forall i :: 0 <= i < |datagrams| ==> FromTestStep(hundredths, times, datagrams[i]))
                && datagrams == TestSent(hundredths, times, outcomes, start, MinIntervalMs(TestModeHz), false, |times|)
    {
      if isRunning {
        return [];
      }
      isRunning := true;
      datagrams := RunTestSession(hundredths, start, times, outcomes);
    }

    /**
     * MainWindow.OnQuaternionReceived: nothing happens before real mode has
     * created the mapper and the sender. Otherwise a pending re-centre is
     * applied to this very sample and cleared, the sample is converted and
     * offered to the sender, and sentCount grows by one exactly when the
     * sender reports a datagram sent.
     */
    method OnQuaternionReceived(t: Transcendentals, hundredths: real -> int, q: Quaternion, now: int, socketOk: bool)
      requires Valid()
      requires pendingRecenter ==> IsNonzero(q)
      modifies this, mapper, sender
      ensures Valid()
      ensures old(mapper == null || sender == null) ==>
                unchanged(this) && (mapper != null ==> unchanged(mapper)) && (sender != null ==> unchanged(sender))
      ensures old(mapper != null && sender != null) ==>
                && mapper == old(mapper) && sender == old(sender)
                && isRunning == old(isRunning) && closed == old(closed) && !pendingRecenter
      ensures old(mapper != null && sender != null && pendingRecenter) ==>
                mapper.referenceQuaternion == Some(q) && mapper.isCalibrated
      ensures old(mapper != null && sender != null && !pendingRecenter) ==> unchanged(mapper)
      ensures old(mapper != null && sender != null) ==>
                var sends := old(sender.Due(now)) && socketOk && !old(sender.disposed);
                && sender.disposed == old(sender.disposed)
                && sender.timerStart == (if sends then now else old(sender.timerStart))
                && sentCount == old(sentCount) + (if sends then 1 else 0)
      ensures old(mapper != null && sender != null) ==>
                var sends := old(sender.Due(now)) && socketOk && !old(sender.disposed);
                sender.sent == old(sender.sent) + (if sends then [Datagram(now, Payload(hundredths, mapper.QuaternionToHeadPose(t, q, now)))] else [])
    {
      if mapper == null || sender == null {
        return;
      }
      var recenter := pendingRecenter;
      pendingRecenter := false;
      var ok := ProcessSample(mapper, sender, recenter, t, hundredths, q, now, socketOk);
      if ok {
        sentCount := sentCount + 1;
      }
    }
  }

  /**
   * The body of OnQuaternionReceived once both components exist: apply a
   * pending re-centre to q, convert q and offer the pose to the sender.
   */
  method ProcessSample(m: CoordinateMapper, s: OpenTrackUdpSender, recenter: bool,
                       t: Transcendentals, hundredths: real -> int, q: Quaternion, now: int, socketOk: bool)
    returns (ok: bool)
    requires m.Valid() && s.Valid()
    requires recenter ==> IsNonzero(q)
    modifies m, s
    ensures m.Valid() && s.Valid() && s.disposed == old(s.disposed)
    ensures recenter ==> m.referenceQuaternion == Some(q) && m.isCalibrated
    ensures !recenter ==> unchanged(m)
    ensures ok <==> old(s.Due(now)) && socketOk && !old(s.disposed)
    ensures s.sent == old(s.sent) + (if ok then [Datagram(now, Payload(hundredths, m.QuaternionToHeadPose(t, q, now)))] else [])
    ensures s.timerStart == (if ok then now else old(s.timerStart))
  {
    if recenter {
      m.Recenter(q);
    }
    var headPose := m.QuaternionToHeadPose(t, q, now);
    ok := s.SendPose(hundredths, headPose, now, socketOk);
  }

  /**
   * A re-centre requested with R takes effect on the next sample: that
   * sample is sent, if it is sent, as the centred pose, which in the model,
   * with primitives exact at the identity, is the line
   * "0.00,0.00,0.00,0,0,0\n". Over reals the sign of zero is lost; the
   * program negates a +0 pitch into -0 and prints "0.00,-0.00,0.00,0,0,0\n".
   */
  lemma RecenteredSampleSendsZero(m: CoordinateMapper, t: Transcendentals, hundredths: real -> int, q: Quaternion, now: int)
    requires m.Valid() && m.referenceQuaternion == Some(q)
    requires ExactAtIdentity(t) && hundredths(0.0) == 0
    ensures DecodePayload(Payload(hundredths, m.QuaternionToHeadPose(t, q, now))) == Some((0, 0, 0))
    ensures Payload(hundredths, m.QuaternionToHeadPose(t, q, now)) == AsciiEncode("0.00,0.00,0.00,0,0,0\n")
  {
    RecenteredSampleIsCentre(m, t, q, now);
    var p := m.QuaternionToHeadPose(t, q, now);
    PayloadRoundTrip(hundredths, p, now);
    ZeroMessage();
  }

  /**
   * The test-mode angle after n steps of "add 0.5, and take 360 off once
   * past 360". Every value is a multiple of 0.5 below 361, which single
   * precision holds exactly, so this real arithmetic is the float's.
   */
  function TestAngle(n: nat): real {
    if n == 0 then 0.0
    else
      var a := TestAngle(n - 1) + 0.5;
      if a > 360.0 then a - 360.0 else a
  }

  /** The angle walks 0.5, 1.0, ..., 360.0 and starts over at 0.5. */
  lemma {:induction false} TestAngleClosedForm(n: nat)
    ensures n >= 1 ==> TestAngle(n) == 0.5 * (((n - 1) % 720 + 1) as real)
    ensures n >= 1 ==> 0.0 < TestAngle(n) <= 360.0
  {
    if n > 1 {
      TestAngleClosedForm(n - 1);
      var k := (n - 2) % 720;
      if k == 719 {
        assert (n - 1) % 720 == 0;
      } else {
        assert (n - 1) % 720 == k + 1;
      }
    }
  }

  /** The pose test mode generates at step k: yaw TestAngle(k), level pitch and roll. */
  function TestPose(k: nat, now: int): (p: HeadPose)
    ensures p.pitch == 0.0 && p.roll == 0.0 && p.timestamp == now
    ensures k >= 1 ==> 0.0 < p.yaw <= 360.0
  {
    TestAngleClosedForm(k);
    HeadPose(TestAngle(k), 0.0, 0.0, now)
  }

  /** The datagram test-mode step k + 1 sends when the clock reads times[k]. */
  function StepDatagram(hundredths: real -> int, times: seq<int>, k: int): (d: Datagram)
    requires 0 <= k < |times|
    ensures d.at == times[k]
  {
    Datagram(times[k], Payload(hundredths, TestPose(k + 1, times[k])))
  }

  /** d is the datagram of one of the test-mode steps. */
  ghost predicate FromTestStep(hundredths: real -> int, times: seq<int>, d: Datagram) {
    exists k :: 0 <= k < |times| && d == StepDatagram(hundredths, times, k)
  }

  /**
   * Whether test step k + 1 is sent by a sender with interval m, the given
   * disposed flag and its stopwatch last started at `timer`: the interval
   * has elapsed, the socket accepts and the sender is open.
   */
  function StepSends(times: seq<int>, outcomes: seq<bool>, m: int, disposed: bool, timer: int, k: nat): bool
    requires k < |times| == |outcomes|
  {
    times[k] - timer >= m && outcomes[k] && !disposed
  }

  /**
   * The stopwatch start after the first n test steps of a sender started at
   * `start`: the time of the last datagram sent, or `start` if none was.
   */
  function TestTimer(times: seq<int>, outcomes: seq<bool>, start: int, m: int, disposed: bool, n: nat): int
    requires n <= |times| == |outcomes|
  {
    if n == 0 then start
    else
      var timer := TestTimer(times, outcomes, start, m, disposed, n - 1);
      if StepSends(times, outcomes, m, disposed, timer, n - 1) then times[n - 1] else timer
  }

  /** The datagrams the first n test steps send, oldest first. */
  function TestSent(hundredths: real -> int, times: seq<int>, outcomes: seq<bool>, start: int, m: int, disposed: bool, n: nat): seq<Datagram>
    requires n <= |times| == |outcomes|
  {
    if n == 0 then []
    else
      TestSent(hundredths, times, outcomes, start, m, disposed, n - 1)
      + (if StepSends(times, outcomes, m, disposed, TestTimer(times, outcomes, start, m, disposed, n - 1), n - 1) then [StepDatagram(hundredths, times, n - 1)] else [])
  }

  /**
   * A fact about TestSent only: with the disposed flag set, no step sends.
   * The test sender itself is never disposed while the loop runs.
   */
  lemma DisposedTestSendsNothing(hundredths: real -> int, times: seq<int>, outcomes: seq<bool>, start: int, m: int, n: nat)
    requires n <= |times| == |outcomes|
    ensures TestSent(hundredths, times, outcomes, start, m, true, n) == []
  {
  }

  /**
   * When every send succeeds and the clock readings are at least m apart,
   * the first at least m after `start`, no step is throttled: the first n
   * steps send n datagrams, one per step in order.
   */
  lemma {:induction false} UnthrottledTestSendsEveryStep(hundredths: real -> int, times: seq<int>, outcomes: seq<bool>, start: int, m: int, n: nat)
    requires n <= |times| == |outcomes|
    requires forall k :: 0 <= k < |outcomes| ==> outcomes[k]
    requires |times| > 0 ==> times[0] - start >= m
    requires forall k :: 0 < k < |times| ==> times[k] - times[k - 1] >= m
    ensures TestSent(hundredths, times, outcomes, start, m, false, n) == seq(n, k requires 0 <= k < n => StepDatagram(hundredths, times, k))
    ensures n > 0 ==> TestTimer(times, outcomes, start, m, false, n) == times[n - 1]
  {
    if n > 0 {
      UnthrottledTestSendsEveryStep(hundredths, times, outcomes, start, m, n - 1);
      assert StepSends(times, outcomes, m, false, TestTimer(times, outcomes, start, m, false, n - 1), n - 1);
    }
  }

  /**
   * RunTestModeAsync for |times| steps: a 100 Hz sender to the default
   * address, created when the clock reads `start`, runs the test loop. The
   * result is what its socket accepted: exactly TestSent for a fresh open
   * sender, hence test-step datagrams at least 10 ms apart, the first at
   * least 10 ms after `start`.
   */
  method RunTestSession(hundredths: real -> int, start: int, times: seq<int>, outcomes: seq<bool>)
    returns (datagrams: seq<Datagram>)
    requires |times| == |outcomes|
    ensures datagrams == TestSent(hundredths, times, outcomes, start, MinIntervalMs(TestModeHz), false, |times|)
    ensures |datagrams| <= |times|
    ensures Spaced(datagrams, MinIntervalMs(TestModeHz))
    ensures datagrams != [] ==> datagrams[0].at - start >= MinIntervalMs(TestModeHz)
    ensures forall i :: 0 <= i < |datagrams| ==> FromTestStep(hundredths, times, datagrams[i])
  {
    var testSender := new OpenTrackUdpSender(DefaultHost, DefaultPort, TestModeHz, start);
    var angle, count := RunTestMode(testSender, hundredths, times, outcomes);
    datagrams := testSender.sent;
  }

  /**
   * The loop of RunTestModeAsync for |times| steps: step k (from 1) reads
   * the clock as times[k - 1] and the socket outcome outcomes[k - 1],
   * advances the angle and offers the pose to the sender, counting the
   * poses sent.
   */
  method RunTestMode(s: OpenTrackUdpSender, hundredths: real -> int, times: seq<int>, outcomes: seq<bool>)
    returns (angle: real, sentCount: int)
    requires s.Valid() && |times| == |outcomes|
    modifies s
    ensures s.Valid() && s.disposed == old(s.disposed)
    ensures angle == TestAngle(|times|)
    ensures |old(s.sent)| <= |s.sent| && s.sent[..|old(s.sent)|] == old(s.sent)
    ensures sentCount == |s.sent| - |old(s.sent)| <= |times|
    ensures forall i :: |old(s.sent)| <= i < |s.sent| ==> FromTestStep(hundredths, times, s.sent[i])
    ensures s.sent == old(s.sent) + TestSent(hundredths, times, outcomes, old(s.timerStart), s.minIntervalMs, old(s.disposed), |times|)
    ensures s.timerStart == TestTimer(times, outcomes, old(s.timerStart), s.minIntervalMs, old(s.disposed), |times|)
  {
    ghost var start, m, disposed := s.timerStart, s.minIntervalMs, s.disposed;
    angle := 0.0;
    sentCount := 0;
    var i := 0;
    while i < |times|
      invariant 0 <= i <= |times|
      invariant s.Valid() && s.disposed == disposed && s.minIntervalMs == m
      invariant angle == TestAngle(i)
      invariant s.sent == old(s.sent) + TestSent(hundredths, times, outcomes, start, m, disposed, i)
      invariant s.timerStart == TestTimer(times, outcomes, start, m, disposed, i)
      invariant sentCount == |TestSent(hundredths, times, outcomes, start, m, disposed, i)|
    {
      ghost var timer, before := s.timerStart, s.sent;
      var ok;
      angle, ok := TestStep(s, hundredths, times, i, outcomes[i], angle);
      assert ok == StepSends(times, outcomes, m, disposed, timer, i);
      TestRunStep(hundredths, times, outcomes, start, m, disposed, i);
      if ok {
        sentCount := sentCount + 1;
      }
      i := i + 1;
    }
    TestSentFromSteps(hundredths, times, outcomes, start, m, disposed, |times|);
    AppendedSteps(hundredths, times, old(s.sent), TestSent(hundredths, times, outcomes, start, m, disposed, |times|), s.sent);
  }

  /** Appending datagrams of test steps keeps the earlier datagrams as a prefix. */
  lemma AppendedSteps(hundredths: real -> int, times: seq<int>, prefix: seq<Datagram>, run: seq<Datagram>, whole: seq<Datagram>)
    requires whole == prefix + run
    requires forall j :: 0 <= j < |run| ==> FromTestStep(hundredths, times, run[j])
    ensures |prefix| <= |whole| && whole[..|prefix|] == prefix
    ensures forall j :: |prefix| <= j < |whole| ==> FromTestStep(hundredths, times, whole[j])
  {
    assert forall j :: |prefix| <= j < |whole| ==> whole[j] == run[j - |prefix|];
  }

  /** One more test step extends TestSent and TestTimer by what that step does. */
  lemma TestRunStep(hundredths: real -> int, times: seq<int>, outcomes: seq<bool>, start: int, m: int, disposed: bool, i: nat)
    requires i < |times| == |outcomes|
    ensures var timer := TestTimer(times, outcomes, start, m, disposed, i);
            var sends := StepSends(times, outcomes, m, disposed, timer, i);
            && TestSent(hundredths, times, outcomes, start, m, disposed, i + 1)
               == TestSent(hundredths, times, outcomes, start, m, disposed, i) + (if sends then [StepDatagram(hundredths, times, i)] else [])
            && TestTimer(times, outcomes, start, m, disposed, i + 1) == (if sends then times[i] else timer)
  {
  }

  /** The first n test steps send at most n datagrams, each the datagram of one of those steps. */
  lemma {:induction false} TestSentFromSteps(hundredths: real -> int, times: seq<int>, outcomes: seq<bool>, start: int, m: int, disposed: bool, n: nat)
    requires n <= |times| == |outcomes|
    ensures var run := TestSent(hundredths, times, outcomes, start, m, disposed, n);
            && |run| <= n
            && forall j :: 0 <= j < |run| ==> FromTestStep(hundredths, times, run[j])
  {
    if n > 0 {
      TestSentFromSteps(hundredths, times, outcomes, start, m, disposed, n - 1);
      var prev := TestSent(hundredths, times, outcomes, start, m, disposed, n - 1);
      var run := TestSent(hundredths, times, outcomes, start, m, disposed, n);
      assert FromTestStep(hundredths, times, StepDatagram(hundredths, times, n - 1));
      assert forall j :: 0 <= j < |prev| ==> run[j] == prev[j];
    }
  }

  /** One pass of the test-mode loop: advance the angle, build the pose, offer it to the sender. */
  method TestStep(s: OpenTrackUdpSender, hundredths: real -> int, times: seq<int>, i: int, socketOk: bool, angle: real)
    returns (next: real, ok: bool)
    requires s.Valid() && 0 <= i < |times| && angle == TestAngle(i)
    modifies s
    ensures s.Valid() && s.disposed == old(s.disposed)
    ensures next == TestAngle(i + 1)
    ensures ok <==> old(s.Due(times[i])) && socketOk && !old(s.disposed)
    ensures s.sent == old(s.sent) + (if ok then [StepDatagram(hundredths, times, i)] else [])
    ensures s.timerStart == (if ok then times[i] else old(s.timerStart))
  {
    next := angle + 0.5;
    if next > 360.0 {
      next := next - 360.0;
    }
    var headPose := HeadPose(next, 0.0, 0.0, times[i]);
    assert headPose == TestPose(i + 1, times[i]);
    ok := s.SendPose(hundredths, headPose, times[i], socketOk);
  }

  /** Test-mode datagrams decode to the step's angle with zero pitch and roll. */
  lemma TestDatagramDecodes(hundredths: real -> int, times: seq<int>, d: Datagram)
    requires FromTestStep(hundredths, times, d)
    ensures exists k :: 1 <= k <= |times| && DecodePayload(d.bytes) == Some((hundredths(TestAngle(k)), hundredths(0.0), hundredths(0.0)))
  {
    var k :| 0 <= k < |times| && d == StepDatagram(hundredths, times, k);
    PayloadRoundTrip(hundredths, TestPose(k + 1, times[k]), 0);
    assert 1 <= k + 1 <= |times|;
  }

  /** The text WriteLine and Write give the original writer for a possibly null string. */
  function OrEmpty(value: Option<string>): (s: string)
    ensures value.None? ==> s == ""
    ensures value.Some? ==> s == value.value
  {
    if value.Some? then value.value else ""
  }

  /** A line reaches the window when it is not null and is neither a trace nor a debug line. */
  predicate ShownInWindow(value: Option<string>) {
    value.Some? && !Contains(value.value, "[TRACE]") && !Contains(value.value, "[DEBUG]")
  }

  /** The statistics lines, which start with "[DEBUG]", never reach the window. */
  lemma DebugLinesHidden(front: string, rest: string)
    ensures !ShownInWindow(Some(front + "[DEBUG]" + rest))
    ensures !ShownInWindow(Some(front + "[TRACE]" + rest))
  {
    var s := front + "[DEBUG]" + rest;
    assert OccursAt(s, "[DEBUG]", |front|);
    var u := front + "[TRACE]" + rest;
    assert OccursAt(u, "[TRACE]", |front|);
  }

  /** A line without '[' reaches the window. */
  lemma PlainLinesShown(s: string)
    requires forall i :: 0 <= i < |s| ==> s[i] != '['
    ensures ShownInWindow(Some(s))
  {
    forall i
      ensures !OccursAt(s, "[DEBUG]", i) && !OccursAt(s, "[TRACE]", i)
    {
      if 0 <= i <= |s| - 7 {
        assert s[i..i + 7][0] == s[i];
      }
    }
  }

  /**
   * WindowConsoleWriter: what is written to Console goes to the original
   * console writer and, filtered, to the window's text.
   */
  class WindowConsoleWriter {
    /** Environment.NewLine. */
    const newLine: string
    /** Everything passed on to the original writer. */
    var originalOut: string
    /** Everything appended to the window. */
    var windowText: string

    constructor(newLine: string, originalOut: string, windowText: string)
      ensures this.newLine == newLine && this.originalOut == originalOut && this.windowText == windowText
    {
      this.newLine := newLine;
      this.originalOut := originalOut;
      this.windowText := windowText;
    }

    /**
     * WindowConsoleWriter.WriteLine: the line always reaches the original
     * writer (a null line as an empty one); it reaches the window, with a
     * newline, only when ShownInWindow.
     */
    method WriteLine(value: Option<string>)
      modifies this
      ensures originalOut == old(originalOut) + OrEmpty(value) + newLine
      ensures windowText == old(windowText) + (if ShownInWindow(value) then value.value + newLine else "")
    {
      originalOut := originalOut + OrEmpty(value) + newLine;
      if value.Some? && !Contains(value.value, "[TRACE]") && !Contains(value.value, "[DEBUG]") {
        windowText := windowText + value.value + newLine;
      }
    }

    /** WindowConsoleWriter.Write: unfiltered, to both; null writes nothing. */
    method Write(value: Option<string>)
      modifies this
      ensures originalOut == old(originalOut) + OrEmpty(value)
      ensures windowText == old(windowText) + OrEmpty(value)
    {
      originalOut := originalOut + OrEmpty(value);
      windowText := windowText + OrEmpty(value);
    }
  }
}
