/** The `event_triggered` flags of all live streams. The `/offer` handler
    wraps every incoming video track in a new stream, whose flag starts
    false; a frame on one stream reads and writes that stream's flag only. */
module Sessions {
  import opened Config
  import opened Annotator
  import opened Trace

  /** Flag of each stream, indexed in the order the streams were attached. */
  type Streams = seq<bool>

  /** The `on_track` callback: a video track gets a new stream with the flag
      cleared, any other kind of track is ignored. */
  function AttachTrack(streams: Streams, kind: string): (r: Streams)
    ensures kind == "video" ==> |r| == |streams| + 1 && r[|streams|] == false
    ensures kind != "video" ==> |r| == |streams|
    ensures forall i :: 0 <= i < |streams| ==> i < |r| && r[i] == streams[i]
  {
    if kind == "video" then streams + [false] else streams
  }

  /** One `recv` on stream `id`: the step result, and the flags afterwards. */
  function Recv(streams: Streams, id: nat, t: Tick): (r: (Streams, StepResult))
    requires id < |streams|
    ensures |r.0| == |streams|
    ensures forall j :: 0 <= j < |streams| && j != id ==> r.0[j] == streams[j]
    ensures r.0[id] == r.1.triggered
    ensures Active(t.cfg) ==> r.0[id] == Condition(t)
    ensures !Active(t.cfg) ==> r.0[id] == streams[id]
    ensures r.1.attempt.Some? <==> Active(t.cfg) && Condition(t) && !streams[id]
    ensures r.1.sent.Some? <==> r.1.attempt.Some? && t.cfg.alerts
  {
    var s := Step(t.cfg, streams[id], t.ids);
    (streams[id := s.triggered], s)
  }

  /** What can happen to the set of streams: a track arrives, or a frame is
      received on an existing stream. */
  datatype Event = Attach(kind: string) | Frame(stream: nat, tick: Tick)

  /** Every frame event names a stream attached by then. */
  predicate WellFormed(count: nat, events: seq<Event>)
    decreases |events|
  {
    if |events| == 0 then true
    else match events[0]
      case Attach(kind) => WellFormed(if kind == "video" then count + 1 else count, events[1..])
      case Frame(id, _) => id < count && WellFormed(count, events[1..])
  }

  /** Number of video tracks among the events. */
  function VideoTracks(events: seq<Event>): (n: nat)
    decreases |events|
  {
    if |events| == 0 then 0
    else (if events[0].Attach? && events[0].kind == "video" then 1 else 0) + VideoTracks(events[1..])
  }

  /** The flags after the events, in order: one new stream per video track,
      and a stream that receives no frame keeps its flag. */
  function Interleave(streams: Streams, events: seq<Event>): (r: Streams)
    requires WellFormed(|streams|, events)
    ensures |r| == |streams| + VideoTracks(events)
    ensures forall s :: 0 <= s < |streams| && FramesOf(events, s) == [] ==> r[s] == streams[s]
    decreases |events|
  {
    if |events| == 0 then streams
    else match events[0]
      case Attach(kind) => Interleave(AttachTrack(streams, kind), events[1..])
      case Frame(id, t) => Interleave(Recv(streams, id, t).0, events[1..])
  }

  /** The frames stream `s` receives, in order. */
  function FramesOf(events: seq<Event>, s: nat): (r: seq<Tick>)
    decreases |events|
  {
    if |events| == 0 then []
    else match events[0]
      case Frame(id, t) => (if id == s then [t] else []) + FramesOf(events[1..], s)
      case Attach(_) => FramesOf(events[1..], s)
  }

  /** The flag a stream holds before the events: its current flag, or the
      cleared flag of a stream that a later track creates. */
  function InitialFlag(streams: Streams, s: nat): (b: bool) {
    if s < |streams| then streams[s] else false
  }

  /** A stream's flag after any interleaving of events is what processing
      its own frames alone gives, starting from its flag before the events
      (false for a stream attached on the way): other streams' frames and
      new tracks never touch it. */
  lemma {:induction false} StreamsAreIndependent(streams: Streams, events: seq<Event>, s: nat)
    requires WellFormed(|streams|, events)
    requires s < |Interleave(streams, events)|
    ensures Interleave(streams, events)[s] == Process(InitialFlag(streams, s), FramesOf(events, s)).triggered
    decreases |events|
  {
    if |events| > 0 {
      match events[0]
      case Attach(kind) =>
        var next := AttachTrack(streams, kind);
        StreamsAreIndependent(next, events[1..], s);
        assert InitialFlag(next, s) == InitialFlag(streams, s);
      case Frame(id, t) =>
        var next := Recv(streams, id, t).0;
        StreamsAreIndependent(next, events[1..], s);
        var rest := FramesOf(events[1..], s);
        if id == s {
          var mine := [t] + rest;
          assert FramesOf(events, s) == mine;
          assert mine[0] == t && mine[1..] == rest;
          assert next[s] == Step(t.cfg, streams[s], t.ids).triggered;
        } else {
          assert FramesOf(events, s) == rest;
          assert InitialFlag(next, s) == InitialFlag(streams, s);
        }
    }
  }
}
