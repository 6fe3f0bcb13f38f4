/** One call of `YOLOStream.recv`: the mode gate, counting, the target
    filter and the edge-triggered notification on the stream's
    `event_triggered` flag. The detector is replaced by the list of class
    ids it would report for the frame. */
module Annotator {
  import opened Wrappers
  import opened Config
  import opened Detection
  import opened Notifier

  /** The frame handed back: returned without annotation, or with the boxes
      of every raw detection drawn in (whatever the target filter). */
  datatype Output = Passthrough | Annotated(boxes: seq<int>)

  /** What one frame does: the flag afterwards, the counts `send_event` was
      called with (None if it was not called), the payload actually posted
      (None if nothing went out), and the returned frame. */
  datatype StepResult = StepResult(triggered: bool, attempt: Option<Counts>, sent: Option<string>, output: Output)

  /** Only the exact string "active" runs detection. */
  predicate Active(cfg: Config) {
    cfg.mode == "active"
  }

  /** The counts as both occur among `ids`, computed from the multiset. */
  function RawCounts(ids: seq<int>): (c: Counts) {
    Counts(multiset(ids)[PersonClass], multiset(ids)[PhoneClass])
  }

  function Step(cfg: Config, triggered: bool, ids: seq<int>): (r: StepResult)
    // mode gate: nothing is counted, sent or drawn, and the flag is kept
    ensures !Active(cfg) ==>
      r.triggered == triggered && r.attempt.None? && r.sent.None? && r.output.Passthrough?
    // post-state: the flag is the frame's co-occurrence, whatever it was before
    ensures Active(cfg) ==> r.triggered == CoOccurs(cfg.detect, ids)
    // edge trigger: send_event is called exactly on a rising edge
    ensures r.attempt.Some? <==> Active(cfg) && CoOccurs(cfg.detect, ids) && !triggered
    ensures r.attempt.Some? ==> r.attempt.value == RawCounts(ids)
    // alert gate: a payload goes out only when alerts are on, and carries the counts
    ensures r.sent.Some? <==> r.attempt.Some? && cfg.alerts
    ensures r.sent.Some? ==> r.sent.value == Payload(r.attempt.value)
    ensures r.sent.Some? ==> ParsePayload(r.sent.value) == r.attempt
    // the drawn boxes are the raw detections, independent of the filter
    ensures Active(cfg) ==> r.output == Annotated(ids)
  {
    if !Active(cfg) then StepResult(triggered, None, None, Passthrough)
    else
      var c := ApplyTarget(cfg.detect, Count(ids));
      FilteredCountsMatchCoOccurs(cfg.detect, ids);
      var fire := c.persons > 0 && c.phones > 0 && !triggered;
      var armed := if fire then true else triggered;
      var rearmed := if c.persons == 0 || c.phones == 0 then false else armed;
      StepResult(rearmed,
                 if fire then Some(c) else None,
                 if fire then SendEvent(cfg.alerts, c) else None,
                 Annotated(ids))
  }

  /** The alert setting decides only whether the payload is posted: the
      flag and the call of `send_event` are the same either way, so with
      alerts off a co-occurrence still consumes the trigger. */
  lemma AlertsDoNotAffectTrigger(cfg: Config, triggered: bool, ids: seq<int>)
    ensures Step(cfg.(alerts := false), triggered, ids).triggered == Step(cfg.(alerts := true), triggered, ids).triggered
    ensures Step(cfg.(alerts := false), triggered, ids).attempt == Step(cfg.(alerts := true), triggered, ids).attempt
    ensures Step(cfg.(alerts := false), triggered, ids).sent.None?
  {
  }

  /** A paused frame does not look at the detections at all. */
  lemma PausedIgnoresDetections(cfg: Config, triggered: bool, ids: seq<int>, other: seq<int>)
    requires !Active(cfg)
    ensures Step(cfg, triggered, ids) == Step(cfg, triggered, other)
  {
  }

  /** Filter after counting: with target "person", two persons and three
      phones are decided on (2, 0), so nothing fires. */
  lemma PersonTargetExample()
    ensures Step(Initial.(detect := "person"), false, [0, 67, 0, 67, 67]).attempt.None?
    ensures Step(Initial.(detect := "person"), false, [0, 67, 0, 67, 67]).triggered == false
  {
  }
}
