/** A stream over a sequence of frames. Each frame is read under the
    configuration current when it arrives, so the record may change between
    frames. */
module Trace {
  import opened Wrappers
  import opened Config
  import opened Detection
  import opened Annotator

  /** One inbound frame: the configuration it is processed under and the
      class ids the detector reports for it. */
  datatype Tick = Tick(cfg: Config, ids: seq<int>)

  /** The stream's flag after the frames, and one result per frame. */
  datatype Run = Run(triggered: bool, steps: seq<StepResult>)

  /** The co-occurrence condition of one active frame. */
  predicate Condition(t: Tick) {
    CoOccurs(t.cfg.detect, t.ids)
  }

  /** Reference for the flag: the condition of the last active frame, or the
      starting value when no frame was active. */
  function LastCondition(start: bool, ticks: seq<Tick>): (b: bool)
    decreases |ticks|
  {
    if |ticks| == 0 then start
    else
      var last := ticks[|ticks| - 1];
      if Active(last.cfg) then Condition(last) else LastCondition(start, ticks[..|ticks| - 1])
  }

  /** Reference for notifications: the number of active frames whose
      condition holds while the previous active frame's did not. */
  function RisingEdges(prev: bool, ticks: seq<Tick>): (n: nat)
    decreases |ticks|
  {
    if |ticks| == 0 then 0
    else if !Active(ticks[0].cfg) then RisingEdges(prev, ticks[1..])
    else
      var now := Condition(ticks[0]);
      (if now && !prev then 1 else 0) + RisingEdges(now, ticks[1..])
  }

  /** Frames in order, threading the flag from one to the next. Every frame
      yields exactly one result, in arrival order, made from that frame and
      the configuration it arrived under. */
  function Process(triggered: bool, ticks: seq<Tick>): (r: Run)
    ensures |r.steps| == |ticks|
    ensures forall i :: 0 <= i < |ticks| ==>
      r.steps[i].output == (if Active(ticks[i].cfg) then Annotated(ticks[i].ids) else Passthrough)
    ensures forall i :: 0 <= i < |ticks| && r.steps[i].attempt.Some? ==>
      Active(ticks[i].cfg) && Condition(ticks[i]) && r.steps[i].attempt.value == RawCounts(ticks[i].ids)
    ensures forall i :: 0 <= i < |ticks| ==>
      (r.steps[i].sent.Some? <==> r.steps[i].attempt.Some? && ticks[i].cfg.alerts)
    decreases |ticks|
  {
    if |ticks| == 0 then Run(triggered, [])
    else
      var s := Step(ticks[0].cfg, triggered, ticks[0].ids);
      var rest := Process(s.triggered, ticks[1..]);
      assert forall i :: 1 <= i < |ticks| ==> ticks[i] == ticks[1..][i - 1];
      Run(rest.triggered, [s] + rest.steps)
  }

  /** Number of frames on which `send_event` was called. */
  function Attempts(steps: seq<StepResult>): (n: nat) {
    if |steps| == 0 then 0 else (if steps[0].attempt.Some? then 1 else 0) + Attempts(steps[1..])
  }

  /** Number of payloads actually posted. */
  function Sent(steps: seq<StepResult>): (n: nat) {
    if |steps| == 0 then 0 else (if steps[0].sent.Some? then 1 else 0) + Sent(steps[1..])
  }

  /** Indices of the frames on which `send_event` was called. */
  function FiredAt(steps: seq<StepResult>, from: nat): (r: seq<nat>) {
    if |steps| == 0 then []
    else (if steps[0].attempt.Some? then [from] else []) + FiredAt(steps[1..], from + 1)
  }

  /** Processing a longer sequence first processes its prefix. */
  lemma {:induction false} ProcessSnoc(start: bool, ticks: seq<Tick>, t: Tick)
    ensures var p := Process(start, ticks);
      var s := Step(t.cfg, p.triggered, t.ids);
      Process(start, ticks + [t]) == Run(s.triggered, p.steps + [s])
    decreases |ticks|
  {
    if |ticks| == 0 {
      assert ([] + [t])[1..] == [];
    } else {
      assert (ticks + [t])[0] == ticks[0];
      assert (ticks + [t])[1..] == ticks[1..] + [t];
      var s0 := Step(ticks[0].cfg, start, ticks[0].ids);
      ProcessSnoc(s0.triggered, ticks[1..], t);
    }
  }

  /** After any frames, the flag is the condition of the last active frame
      (or unchanged when none was active). */
  lemma {:induction false} FlagIsLastCondition(start: bool, ticks: seq<Tick>)
    ensures Process(start, ticks).triggered == LastCondition(start, ticks)
    decreases |ticks|
  {
    if |ticks| > 0 {
      var front := ticks[..|ticks| - 1];
      var last := ticks[|ticks| - 1];
      assert ticks == front + [last];
      ProcessSnoc(start, front, last);
      FlagIsLastCondition(start, front);
    }
  }

  /** The result of frame `i` is the step taken from the flag the earlier
      frames left behind. */
  lemma {:induction false} StepOfFrame(start: bool, ticks: seq<Tick>, i: nat)
    requires i < |ticks|
    ensures Process(start, ticks).steps[i] == Step(ticks[i].cfg, Process(start, ticks[..i]).triggered, ticks[i].ids)
    decreases |ticks|
  {
    var front := ticks[..|ticks| - 1];
    var last := ticks[|ticks| - 1];
    assert ticks == front + [last];
    ProcessSnoc(start, front, last);
    if i < |ticks| - 1 {
      StepOfFrame(start, front, i);
      assert front[..i] == ticks[..i];
    } else {
      assert front == ticks[..i];
    }
  }

  /** Frame `i` calls `send_event` exactly when it is active, its condition
      holds, and the last earlier active frame's condition did not. */
  lemma FiresOnRisingEdge(start: bool, ticks: seq<Tick>, i: nat)
    requires i < |ticks|
    ensures Process(start, ticks).steps[i].attempt.Some? <==>
      Active(ticks[i].cfg) && Condition(ticks[i]) && !LastCondition(start, ticks[..i])
  {
    StepOfFrame(start, ticks, i);
    FlagIsLastCondition(start, ticks[..i]);
  }

  /** Over a whole sequence, the number of `send_event` calls equals the
      number of rising edges of the condition. */
  lemma {:induction false} AttemptsAreRisingEdges(start: bool, ticks: seq<Tick>)
    ensures Attempts(Process(start, ticks).steps) == RisingEdges(start, ticks)
    decreases |ticks|
  {
    if |ticks| > 0 {
      var s := Step(ticks[0].cfg, start, ticks[0].ids);
      AttemptsAreRisingEdges(s.triggered, ticks[1..]);
    }
  }

  /** Payloads go out on a subset of the attempts: all of them when every
      frame has alerts on, none when every frame has them off. */
  lemma {:induction false} SentWithinAttempts(start: bool, ticks: seq<Tick>)
    ensures Sent(Process(start, ticks).steps) <= Attempts(Process(start, ticks).steps)
    ensures (forall i :: 0 <= i < |ticks| ==> !ticks[i].cfg.alerts) ==> Sent(Process(start, ticks).steps) == 0
    ensures (forall i :: 0 <= i < |ticks| ==> ticks[i].cfg.alerts) ==>
      Sent(Process(start, ticks).steps) == Attempts(Process(start, ticks).steps)
    decreases |ticks|
  {
    if |ticks| > 0 {
      var s := Step(ticks[0].cfg, start, ticks[0].ids);
      SentWithinAttempts(s.triggered, ticks[1..]);
      assert forall i :: 0 <= i < |ticks| - 1 ==> ticks[1..][i] == ticks[i + 1];
    }
  }

  /** The frames of the sequence (1,1), (1,1), (1,1), (0,1), (1,1) under the
      initial configuration call `send_event` at frames 0 and 4 only. */
  lemma RisingEdgeExample()
    ensures var both := Tick(Initial, [0, 67]);
      var phoneOnly := Tick(Initial, [67]);
      FiredAt(Process(false, [both, both, both, phoneOnly, both]).steps, 0) == [0, 4]
  {
    var both := Tick(Initial, [0, 67]);
    var phoneOnly := Tick(Initial, [67]);
    assert Condition(both) by {
      assert multiset([0, 67])[PersonClass] == 1;
      assert multiset([0, 67])[PhoneClass] == 1;
    }
    assert !Condition(phoneOnly) by {
      assert multiset([67])[PersonClass] == 0;
    }
    var ticks := [both, both, both, phoneOnly, both];
    var s0 := Step(Initial, false, [0, 67]);
    var s1 := Step(Initial, s0.triggered, [0, 67]);
    var s3 := Step(Initial, true, [67]);
    var s4 := Step(Initial, s3.triggered, [0, 67]);
    assert s0.attempt.Some? && s0.triggered;
    assert s1.attempt.None? && s1.triggered;
    assert s3.attempt.None? && !s3.triggered;
    assert s4.attempt.Some?;
    assert [both][1..] == [];
    assert [phoneOnly, both][1..] == [both];
    assert [both, phoneOnly, both][1..] == [phoneOnly, both];
    assert [both, both, phoneOnly, both][1..] == [both, phoneOnly, both];
    assert ticks[1..] == [both, both, phoneOnly, both];
    var p4 := Process(s3.triggered, [both]);
    assert p4.steps == [s4];
    var p3 := Process(s1.triggered, [phoneOnly, both]);
    assert p3.steps == [s3, s4];
    var p2 := Process(s1.triggered, [both, phoneOnly, both]);
    assert p2.steps == [s1, s3, s4];
    var p1 := Process(s0.triggered, [both, both, phoneOnly, both]);
    assert p1.steps == [s1, s1, s3, s4];
    var steps := Process(false, ticks).steps;
    assert steps == [s0, s1, s1, s3, s4];
    assert steps[1..] == [s1, s1, s3, s4];
    assert steps[1..][1..] == [s1, s3, s4];
    assert steps[1..][1..][1..] == [s3, s4];
    assert steps[1..][1..][1..][1..] == [s4];
    assert FiredAt([s4], 4) == [4];
    assert FiredAt([s3, s4], 3) == [4];
    assert FiredAt([s1, s3, s4], 2) == [4];
    assert FiredAt([s1, s1, s3, s4], 1) == [4];
    assert FiredAt(steps, 0) == [0, 4];
  }
}
