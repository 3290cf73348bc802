# GalaxyBuds OpenTrack Bridge — a verified model of the pose pipeline

The bridge reads orientation quaternions from Galaxy Buds and turns them into
head poses (yaw, pitch, roll in degrees). It sends the poses to OpenTrack as
throttled UDP datagrams, each the text line that `OpenTrackUdpSender`'s comment
gives as OpenTrack's format. This project models that
pipeline in Dafny and proves properties of the model. It covers:

- `MathExtensions` (`math_extensions.dfy`): the quaternion-to-Euler
  decomposition and the degree conversion.
- `CoordinateMapper` (`coordinate_mapper.dfy`): re-centring on a reference
  orientation and the axis mapping (sensor roll becomes yaw, pitch is
  negated, sensor yaw becomes roll).
- `HeadPose` (`head_pose.dfy`): the pose value and its display text.
- `OpenTrackUdpSender` (`open_track_udp_sender.dfy`): the minimum interval
  derived from the target rate, the throttle stopwatch, and the line
  "yaw,pitch,roll,0,0,0\n" in ASCII.
- `MainWindow` (`main_window.dfy`): the control state (running, pending
  re-centre, sent count), key commands, the per-sample handler, the
  test-mode generator, and `WindowConsoleWriter`'s log filter.

Supporting modules:

- `quaternions.dfy` holds the `System.Numerics.Quaternion` operations used
  (Hamilton product in .NET's component order, conjugate, inverse).
- `formatting.dfy` holds "F2" formatting with its parser, ASCII
  encoding/decoding, and ordinal `String.Contains`.
- `wrappers.dfy` holds `Option`.

The world outside the program becomes parameters:

- **Primitives.** `Quaternion.Normalize`, `Math.Atan2`, `Math.Asin` and
  `Math.PI` are the fields of a `Transcendentals` value. Every fact proved
  holds for any functions there.
- **F2 rounding** of a float to hundredths is a `hundredths: real -> int`
  function. Formatting and parsing work on those integer hundredths, with
  '.' as the decimal separator (the invariant culture).
- **The clock** (`DateTimeOffset.UtcNow`, the stopwatch) is a `now`
  parameter in milliseconds. Construction records a start time.
- **The socket.** Whether `UdpClient.Send` succeeds is a `socketOk` input.
  The datagrams it accepts are recorded with their send times in the
  sender's `sent` field.
- **Bluetooth.** The connection outcome is a `connectOk` input. Samples
  arrive as calls of `OnQuaternionReceived`.

Points where the code's behaviour is easy to misread:

- `Recenter` stores the quaternion as given. It neither normalises it nor
  ignores near-zero input.
- Re-centring multiplies by the full `Quaternion.Inverse` of the
  reference, not by its conjugate. `InverseOfUnitIsConjugate` shows the two
  agree exactly for unit references.
- `ToRollPitchYaw` normalises its input without a zero guard. A NaN or
  infinite angle is passed on as it is; no fallback to a zero pose exists.
- OpenTrack receives the ASCII text line "yaw,pitch,roll,0,0,0\n", each
  angle with two decimals.
- `CoordinateMapper` has no remap modes. The window calls `CycleMapping`,
  but `CoordinateMapper` never defines it.
- The throttle stopwatch starts at construction. A send right after
  creating the sender is therefore throttled: the first datagram can leave
  no earlier than one interval after construction.

## Model

| member | source | states |
|---|---|---|
| Quaternions.InverseTimesSelf | BudsHeadTrackingBridge/CoordinateMapper.cs:20-22 | Inverse(r) * r is the identity for every nonzero r, so the reference re-centres to no rotation |
| Quaternions.InverseOfUnitIsConjugate | BudsHeadTrackingBridge/CoordinateMapper.cs:21 | for a unit-length reference the full inverse equals the conjugate |
| Quaternions.IdentityIsUnit | BudsHeadTrackingBridge/CoordinateMapper.cs:21 | the identity rotation is a two-sided unit of the quaternion product |
| Quaternions.SelfTimesInverse | BudsHeadTrackingBridge/CoordinateMapper.cs:21 | r * Inverse(r) is the identity too, so the inverse is two-sided |
| Quaternions.MultiplyAssociative | BudsHeadTrackingBridge/CoordinateMapper.cs:21 | the quaternion product is associative |
| Quaternions.InverseCancels | BudsHeadTrackingBridge/CoordinateMapper.cs:20-22 | multiplying Inverse(r) * q by r on the left gives q back |
| MathExtensions.ToDegrees | BudsHeadTrackingBridge/MathExtensions.cs:45-48 | d degrees is the angle r radians: d * pi == r * 180 |
| MathExtensions.ToDegreesFacts | BudsHeadTrackingBridge/MathExtensions.cs:45-48 | the conversion is odd, maps 0 to 0 and pi to 180 |
| MathExtensions.ToRollPitchYaw | BudsHeadTrackingBridge/MathExtensions.cs:15-39 | the pitch of the decomposition saturates to magnitude pi/2, with the sign of sinp, when sinp of the normalised quaternion has abs(sinp) >= 1, and is Asin(sinp) otherwise |
| MathExtensions.Pitch | BudsHeadTrackingBridge/MathExtensions.cs:27-32 | abs(sinp) >= 1 gives magnitude pi/2 with the sign of sinp; otherwise Asin(sinp) |
| MathExtensions.NormalizedFirst | BudsHeadTrackingBridge/MathExtensions.cs:15-18 | the decomposition reads its input only through Normalize: inputs that normalise alike decompose alike |
| MathExtensions.DecompositionArguments | BudsHeadTrackingBridge/MathExtensions.cs:22-39 | roll is Atan2(2(wx+yz), 1-2(x²+y²)), yaw is Atan2(2(wz+xy), 1-2(y²+z²)), pitch is the pitch branch of 2(wy-zx), all over the normalised quaternion, returned as (roll, pitch, yaw) |
| MathExtensions.PitchBranches | BudsHeadTrackingBridge/MathExtensions.cs:27-32 | when abs(sinp) >= 1 the pitch is pi/2 with the sign of sinp and does not depend on Asin; otherwise it is Asin(sinp) |
| MathExtensions.SaturatedPitchDegrees | BudsHeadTrackingBridge/MathExtensions.cs:29-30 | a saturated pitch is exactly +90 or -90 degrees |
| MathExtensions.IdentityArguments | BudsHeadTrackingBridge/MathExtensions.cs:22-37 | for the identity rotation the numerators are 0, the denominators 1 and sinp 0 |
| MathExtensions.IdentityDecomposesToZero | BudsHeadTrackingBridge/MathExtensions.cs:15-39 | with primitives exact at the identity, the identity decomposes to zero roll, pitch and yaw |
| MathExtensions.UnitArgumentsBounded | BudsHeadTrackingBridge/MathExtensions.cs:27-32 | for a unit quaternion all five polynomials lie in [-1, 1], so the clamp fires only at sinp == 1 or -1 |
| Formatting.FormatF2 | BudsHeadTrackingBridge/HeadPose.cs:25 | the F2 text has at least four characters, all digits, '-' or '.' |
| Formatting.ParseFormatF2 | BudsHeadTrackingBridge/OpenTrackUdpSender.cs:44 | the F2 text of any h, followed by anything, reads back as h with the rest untouched |
| Formatting.AsciiRoundTrip | BudsHeadTrackingBridge/OpenTrackUdpSender.cs:45 | decoding the ASCII encoding of ASCII text gives the text back |
| Formatting.AsciiEncode | BudsHeadTrackingBridge/OpenTrackUdpSender.cs:45 | Encoding.ASCII produces one byte per character |
| Formatting.Contains | BudsHeadTrackingBridge/MainWindow.axaml.cs:391 | true exactly when the pattern occurs at some index of the string |
| HeadPoses.ToStringRoundTrip | BudsHeadTrackingBridge/HeadPose.cs:23-26 | the display text carries exactly the rounded yaw, pitch and roll, in that order, each followed by a degree sign |
| HeadPoses.ToStringOmitsTimestamp | BudsHeadTrackingBridge/HeadPose.cs:23-26 | the timestamp does not affect the display text |
| HeadPoses.ToString | BudsHeadTrackingBridge/HeadPose.cs:25 | the text starts with "Yaw=", ends with the degree sign and holds no newline |
| CoordinateMapping.MapAxes | BudsHeadTrackingBridge/CoordinateMapper.cs:28-46 | yaw is the sensor roll, pitch the negated sensor pitch and roll the sensor yaw, all in degrees, stamped with the given time |
| CoordinateMapping.AxesRoundTrip | BudsHeadTrackingBridge/CoordinateMapper.cs:38-40 | the axis mapping loses nothing: it and its inverse undo each other in both orders |
| CoordinateMapping.ZeroAxes | BudsHeadTrackingBridge/CoordinateMapper.cs:38-40 | zero radians on every axis give the zero pose |
| CoordinateMapping.CoordinateMapper.constructor | BudsHeadTrackingBridge/CoordinateMapper.cs:11-12 | a new mapper has no reference and is not calibrated |
| CoordinateMapping.CoordinateMapper.AdjustedQuaternion | BudsHeadTrackingBridge/CoordinateMapper.cs:20-22 | uncalibrated, the sample passes through; calibrated, the result is Inverse(reference) * q: applying the reference after it gives q back; calibrated on q, q itself becomes the identity |
| CoordinateMapping.CoordinateMapper.QuaternionToHeadPose | BudsHeadTrackingBridge/CoordinateMapper.cs:17-48 | the pose is stamped with now and its axes undo to the decomposition of the re-centred sample |
| CoordinateMapping.CoordinateMapper.Recenter | BudsHeadTrackingBridge/CoordinateMapper.cs:53-58 | the sample, not normalised, becomes the reference and the mapper is calibrated |
| CoordinateMapping.CoordinateMapper.ClearRecenter | BudsHeadTrackingBridge/CoordinateMapper.cs:63-68 | the reference is cleared and the mapper is uncalibrated, as when new |
| CoordinateMapping.RecenteredSampleIsCentre | BudsHeadTrackingBridge/CoordinateMapper.cs:20-48 | after re-centring on q, converting q gives the pose of the identity rotation, the zero pose when the primitives are exact at the identity |
| CoordinateMapping.UncalibratedIsPlain | BudsHeadTrackingBridge/CoordinateMapper.cs:20-22 | without calibration the pose is the plain mapped decomposition of the sample |
| OpenTrackSending.MinIntervalMs | BudsHeadTrackingBridge/OpenTrackUdpSender.cs:24 | the interval is 1000 / targetHz truncated toward zero: the largest m with m * targetHz <= 1000 for positive rates |
| OpenTrackSending.BridgeIntervals | BudsHeadTrackingBridge/OpenTrackUdpSender.cs:24 | 100 Hz gives 10 ms, 200 Hz gives 5 ms, 120 Hz gives 8 ms |
| OpenTrackSending.FastRatesDoNotThrottle | BudsHeadTrackingBridge/OpenTrackUdpSender.cs:24 | above 1000 Hz the interval is 0 ms, so for a clock that does not run backwards no send is throttled |
| OpenTrackSending.MessageRoundTrip | BudsHeadTrackingBridge/OpenTrackUdpSender.cs:44 | the line carries exactly yaw, pitch and roll, in that order, followed by a zero position |
| OpenTrackSending.MessageIsAscii | BudsHeadTrackingBridge/OpenTrackUdpSender.cs:44-45 | the line is pure ASCII, so the encoding loses nothing |
| OpenTrackSending.ExampleMessage | BudsHeadTrackingBridge/OpenTrackUdpSender.cs:44 | yaw 90, pitch -45, roll 10 is sent as "90.00,-45.00,10.00,0,0,0\n" |
| OpenTrackSending.ZeroMessage | BudsHeadTrackingBridge/OpenTrackUdpSender.cs:44 | in the model the zero pose is sent as "0.00,0.00,0.00,0,0,0\n" |
| OpenTrackSending.Message | BudsHeadTrackingBridge/OpenTrackUdpSender.cs:44 | the line is the three numerals plus exactly nine characters: the two separating commas and ",0,0,0\n" |
| OpenTrackSending.MessageSingleLine | BudsHeadTrackingBridge/OpenTrackUdpSender.cs:44 | the line ends with the zero position ",0,0,0\n" and its only newline is the final one |
| OpenTrackSending.Payload | BudsHeadTrackingBridge/OpenTrackUdpSender.cs:44-45 | one byte per character of the line |
| OpenTrackSending.PayloadRoundTrip | BudsHeadTrackingBridge/OpenTrackUdpSender.cs:44-47 | a receiver recovers the rounded yaw, pitch and roll from the bytes sent, and the timestamp is not sent |
| OpenTrackSending.SpacingAccumulates | BudsHeadTrackingBridge/OpenTrackUdpSender.cs:35-38 | datagrams j - i apart in the sequence are at least (j - i) intervals apart in time |
| OpenTrackSending.OpenTrackUdpSender.constructor | BudsHeadTrackingBridge/OpenTrackUdpSender.cs:19-27 | the endpoint is stored, the interval derived from the rate, the stopwatch started at now, nothing sent |
| OpenTrackSending.OpenTrackUdpSender.SendPose | BudsHeadTrackingBridge/OpenTrackUdpSender.cs:32-57 | true exactly when the interval has elapsed and the socket accepts; then the pose's line is sent and the stopwatch restarts; otherwise nothing is sent and the stopwatch keeps running; the spacing invariant is kept |
| OpenTrackSending.OpenTrackUdpSender.Dispose | BudsHeadTrackingBridge/OpenTrackUdpSender.cs:59-63 | the socket is closed and every later send fails |
| OpenTrackSending.ThrottleBoundsRate | BudsHeadTrackingBridge/OpenTrackUdpSender.cs:32-50 | the n-th datagram leaves at least n intervals after the sender was created |
| Bridging.MainWindow.constructor | BudsHeadTrackingBridge/MainWindow.axaml.cs:19-26 | a new window is not running, has nothing pending, no mapper or sender, and has sent nothing |
| Bridging.MainWindow.RequestRecenter | BudsHeadTrackingBridge/MainWindow.axaml.cs:176-180 | the re-centre is only flagged and nothing else changes |
| Bridging.MainWindow.OnKeyDown | BudsHeadTrackingBridge/MainWindow.axaml.cs:182-202 | nothing happens unless running; R flags a re-centre, C clears the calibration at once, Q closes and keeps what was sent and the stopwatch, M and other keys change nothing |
| Bridging.MainWindow.OnButtonClick | BudsHeadTrackingBridge/MainWindow.axaml.cs:87-103 | the action buttons act whether or not a mode is running: Recenter flags a re-centre, Clear clears the calibration, Quit closes, Cycle Axis changes nothing |
| Bridging.MainWindow.Close | BudsHeadTrackingBridge/MainWindow.axaml.cs:316-322 | running stops and the sender is disposed |
| Bridging.MainWindow.StartRealMode | BudsHeadTrackingBridge/MainWindow.axaml.cs:215-280 | ignored while running; otherwise a new mapper and a 200 Hz sender to 127.0.0.1:4242, running exactly when the connection succeeds |
| Bridging.MainWindow.StartTestMode | BudsHeadTrackingBridge/MainWindow.axaml.cs:226-235 | ignored while running; otherwise the datagrams are exactly TestSent of the clock readings and socket outcomes for a fresh, open 100 Hz sender started at `start`: test-step datagrams at least 10 ms apart; the window's real-mode state is untouched |
| Bridging.MainWindow.OnQuaternionReceived | BudsHeadTrackingBridge/MainWindow.axaml.cs:282-314 | nothing changes without mapper and sender; otherwise a pending re-centre is applied to this sample and cleared, the pose is offered to the sender, which sends it exactly when the interval has elapsed, the socket accepts and it is open, and then restarts its stopwatch; sentCount grows by one exactly when a datagram is sent |
| Bridging.ProcessSample | BudsHeadTrackingBridge/MainWindow.axaml.cs:286-295 | re-centre if pending, then convert and send, with the sender's throttle rule: sent exactly when due, accepted and open, and the stopwatch restarts on a send only |
| Bridging.RecenteredSampleSendsZero | BudsHeadTrackingBridge/MainWindow.axaml.cs:286-295 | in the model, the sample a re-centre is applied to is sent as the zero line "0.00,0.00,0.00,0,0,0\n" when the primitives are exact at the identity |
| Bridging.TestAngleClosedForm | BudsHeadTrackingBridge/MainWindow.axaml.cs:333-340 | after n steps the angle is 0.5 * ((n - 1) mod 720 + 1), so it stays in (0, 360] and wraps after 360 to 0.5 |
| Bridging.TestPose | BudsHeadTrackingBridge/MainWindow.axaml.cs:342-347 | the test pose has level pitch and roll and a yaw in (0, 360] |
| Bridging.TestStep | BudsHeadTrackingBridge/MainWindow.axaml.cs:339-349 | one step advances the angle as the reference definition does and sends that step's pose exactly when the sender is due at the step's clock reading, the socket accepts and the sender is open; the stopwatch restarts exactly on a send |
| Bridging.RunTestSession | BudsHeadTrackingBridge/MainWindow.axaml.cs:324-363 | a fresh 100 Hz sender started at `start` sends exactly TestSent of the readings and outcomes: test-step datagrams, no more than the steps, at least 10 ms apart, the first at least 10 ms after `start` |
| Bridging.RunTestMode | BudsHeadTrackingBridge/MainWindow.axaml.cs:324-363 | after the steps the angle is TestAngle of their number; the datagrams added are exactly TestSent of the readings and outcomes from the sender's stopwatch, and the stopwatch ends at TestTimer; what was sent before is kept; the count equals the datagrams added, each one a test-step datagram |
| Bridging.TestSentFromSteps | BudsHeadTrackingBridge/MainWindow.axaml.cs:336-360 | n test steps send at most n datagrams, each the datagram of one of those steps |
| Bridging.DisposedTestSendsNothing | BudsHeadTrackingBridge/OpenTrackUdpSender.cs:32-57 | a disposed sender sends no test datagram |
| Bridging.UnthrottledTestSendsEveryStep | BudsHeadTrackingBridge/MainWindow.axaml.cs:336-360 | when every send is accepted and the clock readings are an interval apart (the first an interval after the start), every step sends its own datagram, in order, and the stopwatch ends at the last reading |
| Bridging.TestDatagramDecodes | BudsHeadTrackingBridge/MainWindow.axaml.cs:342-349 | every test-mode datagram decodes to a step's angle with zero pitch and roll |
| Bridging.DebugLinesHidden | BudsHeadTrackingBridge/MainWindow.axaml.cs:391 | a line containing "[DEBUG]" or "[TRACE]" never reaches the window |
| Bridging.PlainLinesShown | BudsHeadTrackingBridge/MainWindow.axaml.cs:391 | a non-null line without '[' always reaches the window |
| Bridging.WindowConsoleWriter.constructor | BudsHeadTrackingBridge/MainWindow.axaml.cs:381-385 | the writer starts from the given console and window text |
| Bridging.WindowConsoleWriter.WriteLine | BudsHeadTrackingBridge/MainWindow.axaml.cs:387-395 | the line always reaches the original writer (null as empty); it reaches the window, with a newline, exactly when not null and free of "[TRACE]" and "[DEBUG]" |
| Bridging.WindowConsoleWriter.Write | BudsHeadTrackingBridge/MainWindow.axaml.cs:397-401 | the text reaches both, unfiltered, and null writes nothing |

## Left out

- Floating point: quaternion components, poses and angles are exact reals. Single-precision rounding of the polynomials, the angles and `ToDegrees` (`180f / (float)Math.PI`) is not modelled. The test-mode angles are multiples of 0.5 up to 360.5, which single precision holds exactly.
- Formatting.FormatF2: it formats values already rounded to hundredths. The rounding itself is the `hundredths` parameter. A small negative value that .NET prints as "-0.00" is printed here as "0.00". Over reals the sign of zero is lost too: negative zero, which .NET (Core 3.0 and later) also prints as "-0.00", is plain 0 here. The program's `-pitchDeg` (CoordinateMapper.cs:39) turns every exactly level pitch into negative zero, so the program prints such a pitch as "-0.00" where the model prints "0.00". The culture is taken as the invariant one ('.' separator).
- CoordinateMapping.CoordinateMapper.Recenter: requires a nonzero quaternion. The source accepts the zero quaternion, and its `Quaternion.Inverse` then divides by zero and yields NaN components. NaN is not modelled.
- Bridging.MainWindow.OnQuaternionReceived: requires a nonzero sample while a re-centre is pending, because that sample goes to `Recenter` (see the line above). The source accepts any sample.
- Bridging.ProcessSample: requires a nonzero sample when asked to re-centre, for the same reason. The source accepts any sample.
- Bridging.RecenteredSampleSendsZero: holds in the model only. With primitives exact at the identity the program sends the re-centred sample as "0.00,-0.00,0.00,0,0,0\n", because the negated level pitch is negative zero (see the FormatF2 line).
- OpenTrackSending.OpenTrackUdpSender.constructor: excludes a target rate of 0, for which the source throws `DivideByZeroException`. A host string that `IPAddress.Parse` rejects, which would throw, is not modelled. A port outside 0..65535, for which `IPEndPoint` throws `ArgumentOutOfRangeException`, is not modelled either: the constructor accepts and stores any port (every caller passes 4242).
- Integer widths: `_sentCount` (32 bits) and the millisecond clock (64 bits) are unbounded integers, so wrap-around is not modelled.
- `CycleMapping`: the M key and the Cycle button call it, but it is not defined in `CoordinateMapper`. The model makes M change nothing and invents no remap modes.
- The action panel's visibility is not modelled. The panel appears on the first start and is never hidden again, even after a failed connection. `OnButtonClick` therefore accepts a click in any state.
- Log messages: all `Console.WriteLine` calls write text that is not modelled. That covers the window's, the mapper's, and the sender's messages on initialisation, on a send error and on dispose. The Hz statistics (elapsed time, `[DEBUG]` lines every 10th or 100th send) are omitted. `WindowConsoleWriter` is modelled on its own, and `DebugLinesHidden` shows the statistics lines stay out of the window.
- `MainWindow.AppendText` posts to the UI dispatcher. The model appends synchronously, in call order. Scrolling and the UI layout are not modelled.
- Concurrency: samples, key presses and timer ticks are modelled as calls that run one at a time.
- The Bluetooth manager (`ConnectAsync`, `StartHeadTracking`, events, `Dispose`) is not part of this model. Its outcome is the `connectOk` input.
- The keep-alive loop with `Task.Delay(1000)` is not modelled. Real mode ends only through `Close`.
- Bridging.RunTestMode: the source loop never ends. The model runs a given number of steps, with `Task.Delay(10)` replaced by the supplied clock readings.
- The `finally` that disposes the test sender is never reached in the source, so it is left out.
- `UdpListener/Program.cs`, `Program.cs`, `App.cs` and `GalaxyBudsClient/Constants.cs` are not part of this model.
