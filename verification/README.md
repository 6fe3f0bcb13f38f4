# Person-and-phone alert relay: the per-frame decision step

The service receives a browser's video over WebRTC, runs every frame through
an object detector, draws the detections and sends the frame back. When a
person and a phone are seen together it posts one webhook notification per
such episode. Four HTTP setters change a process-wide configuration record
(`detect`, `mode`, `alerts`, `confidence`).

This project models the logic that is original to the service, all of it in
`main.py`:

- `Config` (config.dfy): the configuration record, its defaults, the four
  setters and `GET /config`.
- `Detection` (detection.dfy): counting class ids 0 (person) and 67 (phone),
  and the `detect` filter applied after counting.
- `Decimal` and `Notifier` (decimal.dfy, notifier.dfy): `send_event`. The
  alert gate and the exact `question` text `persons=<N>, phones=<M>`, with a
  parser that shows the text carries both counts.
- `Annotator` (annotator.dfy): one `YOLOStream.recv` call as the pure function
  `Step(config, triggered, classIds)`. It returns the new `event_triggered`
  flag, whether `send_event` was called and with which counts, the payload
  actually posted, and whether the frame came back annotated or untouched.
- `Trace` (trace.dfy): `Process`, a stream over a sequence of frames. The
  configuration may differ from frame to frame. Lemmas tie the notifications
  to the rising edges of the co-occurrence condition.
- `Sessions` (sessions.dfy): the per-stream flags. `on_track` attaches a
  stream with a cleared flag, and any interleaving of frames across streams
  leaves each stream's flag as if it had run alone.

The detector is replaced by its output: the list of class ids for the frame.
A notification is an emitted value, not an HTTP request.

Behaviour of the code worth stating up front:

- The setters do no validation: `set-detect` and `set-mode` store the
  supplied value verbatim (main.py:148, main.py:153). An unrecognised
  `detect` value acts like `both` only because the filter tests just
  `"person"` and `"phone"` (main.py:91-94). An unrecognised `mode` acts like
  paused, because only the exact string `"active"` runs detection
  (main.py:73).
- With alerts off, a co-occurrence still sets `event_triggered`
  (main.py:99-101). The episode is therefore consumed without a
  notification. Turning alerts on during the same episode sends nothing
  until the condition has dropped and risen again.
- `event_triggered` is declared as a class attribute (main.py:63), but every
  write goes to the instance (main.py:101, main.py:104). Each stream
  therefore has its own flag, starting false.

## Model

| member | source | states |
|---|---|---|
| Config.SetDetect | main.py:146-149 | Replies ok with the stored value. That value is the supplied one, verbatim, or "both" when the key is missing. No other field changes. |
| Config.SetMode | main.py:151-154 | Replies ok with the stored value. That value is the supplied one, verbatim, or "active" when the key is missing. No other field changes. |
| Config.SetSensitivity | main.py:156-159 | Replies ok with the stored confidence: the supplied one, or 0.5 when missing. No other field changes. |
| Config.SetAlerts | main.py:161-164 | Replies ok with the stored alerts flag: the supplied one, or true when missing. No other field changes. |
| Config.GetConfig | main.py:142-144 | The snapshot is a JSON object with exactly the keys detect, mode, alerts and confidence, each holding that field's current value. |
| Config.SnapshotDeterminesConfig | main.py:142-144 | Two configurations with the same snapshot are equal: the snapshot shows every field. |
| Config.SetThenGet | main.py:142-164 | The snapshot read after any setter shows the value the setter reported, and the other three fields unchanged. |
| Config.SettersCommuteAndAreIdempotent | main.py:146-154 | Setting detect and mode commutes. Repeating a setter with the same body changes nothing further. |
| Detection.Count | main.py:79-87 | persons is the number of occurrences of class 0 and phones the number of class 67. Other ids are ignored, so persons + phones is at most the number of detections. |
| Detection.ApplyTarget | main.py:89-94 | "person" zeroes phones and "phone" zeroes persons. Any other value, unrecognised strings included, keeps both counts. Both filtered counts are positive iff the target keeps both and both raw counts are positive. |
| Detection.FilteredCountsMatchCoOccurs | main.py:79-94 | The filtered counts are both positive exactly when the target keeps both classes and each class id occurs in the frame. |
| Detection.SingleTargetNeverCoOccurs | main.py:90-94 | With target "person" or "phone" no frame can satisfy the event condition. |
| Decimal.NatToString | main.py:48 | A count is rendered as a non-empty digit string, with no leading zero unless the count is 0. |
| Decimal.NatToStringRoundTrip | main.py:48 | The rendered digits spell the count back. |
| Decimal.CanonicalRoundTrip | main.py:48 | Every decimal spelling without leading zeros is the rendering of the number it spells. Rendering is therefore a bijection onto such spellings. |
| Notifier.Payload | main.py:47-49 | The question text starts with "persons=" and parses back to exactly the counts it was built from. |
| Notifier.ParsePayloadInverse | main.py:47-49 | A text parses to counts (N, M) iff it is exactly "persons=N, phones=M" with both numbers in plain decimal. So the payload is the one text for its counts. |
| Notifier.PayloadInjective | main.py:47-49 | Different counts never produce the same question text. |
| Notifier.SendEvent | main.py:43-55 | Nothing is posted iff alerts are off. Otherwise the posted text is exactly the question text for the given counts. |
| Annotator.Step | main.py:69-108 | A non-"active" mode returns the frame without annotation (frame conversion is under Left out), with no attempt, no post and the flag kept. In active mode the flag becomes the frame's co-occurrence, whatever it was before. send_event is called iff active, co-occurring and the flag was false, and then with the raw counts. A post happens iff there is an attempt and alerts are on, and the posted text is exactly the payload for the attempt's counts. The annotated frame draws all raw detections. |
| Annotator.AlertsDoNotAffectTrigger | main.py:99-101 | The flag and the send_event call are the same with alerts on or off. With alerts off nothing is posted, yet the trigger is consumed. |
| Annotator.PausedIgnoresDetections | main.py:73-75 | In a non-active mode the step result does not depend on the detections at all. |
| Annotator.PersonTargetExample | main.py:90-104 | Target "person" with two persons and three phones decides on (2, 0). Nothing fires and the flag is false. |
| Trace.Process | main.py:69-108 | Each frame yields one result, in arrival order. Its output is annotated with that frame's raw detections iff its own configuration is active. An attempt happens only on an active, co-occurring frame and carries that frame's raw counts. A post happens iff there is an attempt and that frame's configuration has alerts on. |
| Trace.FlagIsLastCondition | main.py:99-104 | After any frame sequence, the flag equals the co-occurrence of the last active frame, or its starting value if no frame was active. |
| Trace.FiresOnRisingEdge | main.py:99-104 | Frame i calls send_event iff it is active, co-occurring, and the last earlier active frame was not co-occurring (or none was and the start flag is false). |
| Trace.AttemptsAreRisingEdges | main.py:99-104 | The number of send_event calls over a sequence equals the number of rising edges of the co-occurrence condition over its active frames. |
| Trace.SentWithinAttempts | main.py:43-45 | Posts are at most the attempts. There are none when every frame has alerts off, and all of them are posted when every frame has alerts on. |
| Trace.RisingEdgeExample | main.py:99-104 | Counts (1,1),(1,1),(1,1),(0,1),(1,1) from a fresh stream call send_event at frames 0 and 4 only. |
| Sessions.AttachTrack | main.py:119-122 | A video track adds one stream whose flag is false. Other track kinds add nothing. Existing flags are kept. |
| Sessions.Recv | main.py:99-104 | A frame on one stream changes only that stream's flag. In active mode the new flag is the frame's co-occurrence; otherwise it is kept. It fires iff that stream's flag was false and the frame is active and co-occurring. It posts iff it fires and alerts are on. |
| Sessions.Interleave | main.py:119-122 | After any attaches and frames, there is one more stream per video track. A stream that received no frame keeps its flag. |
| Sessions.StreamsAreIndependent | main.py:61-108 | After any interleaving of attaches and frames, every stream's flag is what processing its own frames alone would give. A stream attached on the way starts from a cleared flag. |

## Left out

- YOLO inference and drawing (`model(...)`, `results.plot()`). The detector's
  output is an input list of class ids. `int(box.cls[0])` is taken as already
  an integer. The drawn frame is represented only by the ids it draws.
- Frame conversion via numpy/cv2 (`to_ndarray`, `from_ndarray`). A passed-through
  frame is the constructor `Passthrough`.
- WebRTC negotiation in `/offer` (peer connection, SDP), apart from the
  `on_track` callback that creates a stream.
- The HTTP POST to the webhook URL and the swallowed delivery exceptions. Only
  the decision to post and the payload text are modelled.
- FastAPI routing, CORS, static files, and the `print` logging.
- Concurrency and async suspension. Each frame reads one consistent
  configuration snapshot, although the code re-reads the shared dict several
  times within one frame.
- Config.SetSensitivity: Python's `float()` coercion, and the errors it raises
  on non-numeric input, are not modelled. Confidence is an opaque number
  stored as supplied.
- Config.SetAlerts: Python's `bool()` truthiness coercion of arbitrary JSON is
  not modelled. The request value is already a boolean.
- Config.SetDetect: request values that are not strings (numbers, null,
  lists) are not modelled. The code would store them too, and they would act
  like an unrecognised string.
- Config.SetMode: non-string request values are not modelled, as for SetDetect.
