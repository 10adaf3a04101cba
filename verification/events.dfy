/**
 * Server-sent events: the seven event types, the event records that carry
 * them, and their wire framing. Every event but the heartbeat is framed as an
 * `event:` line, a `data:` line holding the JSON text of the payload, and a
 * blank line; the heartbeat is framed as an SSE comment. Turning a payload into
 * JSON text is the parameter `dumps`.
 */
module Events {
  import opened Outcomes
  import opened Text
  import opened JsonValue

  datatype EventType = PhaseStart | PhaseComplete | GatheringProgress | Heartbeat | Complete | Error | PhaseWarning

  /** The wire name of each event type. */
  function Label(t: EventType): (r: string)
    ensures |r| > 0 && '\n' !in r
  {
    match t
    case PhaseStart => "phase_start"
    case PhaseComplete => "phase_complete"
    case GatheringProgress => "gathering_progress"
    case Heartbeat => "heartbeat"
    case Complete => "complete"
    case Error => "error"
    case PhaseWarning => "phase_warning"
  }

  /** Reading a wire name back (`SSEEventType(value)`); unknown names are rejected. */
  function LabelToType(s: string): (r: Option<EventType>)
    ensures r.Some? ==> Label(r.value) == s
  {
    if s == "phase_start" then Some(PhaseStart)
    else if s == "phase_complete" then Some(PhaseComplete)
    else if s == "gathering_progress" then Some(GatheringProgress)
    else if s == "heartbeat" then Some(Heartbeat)
    else if s == "complete" then Some(Complete)
    else if s == "error" then Some(Error)
    else if s == "phase_warning" then Some(PhaseWarning)
    else None
  }

  /** Every type's name reads back as that type, so no two types share a name. */
  lemma LabelRoundTrip(t: EventType)
    ensures LabelToType(Label(t)) == Some(t)
  {
  }

  lemma LabelInjective(a: EventType, b: EventType)
    requires Label(a) == Label(b)
    ensures a == b
  {
    LabelRoundTrip(a);
    LabelRoundTrip(b);
  }

  /** The event class an event was built as: the base class or one of its seven subclasses. */
  datatype EventClass =
    | BaseEvent
    | PhaseStartEvent
    | PhaseCompleteEvent
    | GatheringProgressEvent
    | HeartbeatEvent
    | CompleteEvent
    | ErrorEvent
    | PhaseWarningEvent

  datatype SseEvent = SseEvent(cls: EventClass, kind: EventType, data: map<string, Json>)

  /** The event type each subclass sets by default. */
  function DefaultType(cls: EventClass): (r: Option<EventType>)
    ensures r.None? <==> cls == BaseEvent
  {
    match cls
    case BaseEvent => None
    case PhaseStartEvent => Some(PhaseStart)
    case PhaseCompleteEvent => Some(PhaseComplete)
    case GatheringProgressEvent => Some(GatheringProgress)
    case HeartbeatEvent => Some(Heartbeat)
    case CompleteEvent => Some(Complete)
    case ErrorEvent => Some(Error)
    case PhaseWarningEvent => Some(PhaseWarning)
  }

  /** Phase-start, error and warning payloads are `dict[str, str]`. */
  predicate StringPayload(cls: EventClass) {
    cls == PhaseStartEvent || cls == ErrorEvent || cls == PhaseWarningEvent
  }

  /**
   * Building a subclass event with its default type. A string-valued payload
   * that holds anything but strings is rejected.
   */
  function NewEvent(cls: EventClass, data: map<string, Json>): (r: Option<SseEvent>)
    requires cls != BaseEvent
    ensures r.Some? ==> r.value.cls == cls && Some(r.value.kind) == DefaultType(cls) && r.value.data == data
    ensures r.None? <==> StringPayload(cls) && exists k :: k in data && !data[k].JStr?
  {
    if StringPayload(cls) && exists k :: k in data && !data[k].JStr? then None
    else Some(SseEvent(cls, DefaultType(cls).value, data))
  }

  /** A heartbeat's payload defaults to the empty dictionary. */
  function NewHeartbeat(): (r: SseEvent)
    ensures r.cls == HeartbeatEvent && r.kind == Heartbeat && r.data == map[]
  {
    SseEvent(HeartbeatEvent, Heartbeat, map[])
  }

  /** `ErrorEvent(data={"error": ..., "error_type": ..., "phase": ...})`. */
  function NewError(error: string, errorType: string, phase: string): (r: SseEvent)
    ensures r.cls == ErrorEvent && r.kind == Error
    ensures r.data.Keys == {"error", "error_type", "phase"}
    ensures r.data["error"] == JStr(error) && r.data["error_type"] == JStr(errorType) && r.data["phase"] == JStr(phase)
  {
    SseEvent(ErrorEvent, Error, map["error" := JStr(error), "error_type" := JStr(errorType), "phase" := JStr(phase)])
  }

  /** `PhaseStartEvent(data={"phase": phase})`. */
  function NewPhaseStart(phase: string): (r: SseEvent)
    ensures r.cls == PhaseStartEvent && r.kind == PhaseStart && r.data == map["phase" := JStr(phase)]
  {
    SseEvent(PhaseStartEvent, PhaseStart, map["phase" := JStr(phase)])
  }

  /** `PhaseCompleteEvent(data={"phase": phase, "duration_ms": ms})`. */
  function NewPhaseComplete(phase: string, durationMs: int): (r: SseEvent)
    ensures r.cls == PhaseCompleteEvent && r.kind == PhaseComplete
    ensures r.data == map["phase" := JStr(phase), "duration_ms" := JInt(durationMs)]
  {
    SseEvent(PhaseCompleteEvent, PhaseComplete, map["phase" := JStr(phase), "duration_ms" := JInt(durationMs)])
  }

  function NewComplete(data: map<string, Json>): (r: SseEvent)
    ensures r.cls == CompleteEvent && r.kind == Complete && r.data == data
  {
    SseEvent(CompleteEvent, Complete, data)
  }

  /** The comment frame a heartbeat is sent as. */
  const KeepAlive: string := ": keepalive\n\n"

  /** The parts of a named frame, one per line. */
  function FrameLines(kind: EventType, payload: string): seq<string> {
    ["event: " + Label(kind), "data: " + payload, "", ""]
  }

  /**
   * `event.format()`: only the heartbeat class overrides the framing; an event
   * built from the base class with the heartbeat type is framed like any other.
   */
  function Format(e: SseEvent, dumps: Json -> string): (r: string)
    ensures e.cls == HeartbeatEvent ==> r == KeepAlive
    ensures e.cls != HeartbeatEvent ==> "event: " + Label(e.kind) + "\n" <= r
    ensures e.cls != HeartbeatEvent ==> r == Join(FrameLines(e.kind, dumps(JObj(e.data))), "\n")
  {
    if e.cls == HeartbeatEvent then KeepAlive
    else
      var lines := FrameLines(e.kind, dumps(JObj(e.data)));
      var r := "event: " + Label(e.kind) + "\ndata: " + dumps(JObj(e.data)) + "\n\n";
      assert Join(lines[3..], "\n") == "";
      assert Join(lines[2..], "\n") == "" + "\n" + "";
      assert Join(lines[1..], "\n") == lines[1] + "\n" + "\n";
      assert r == Join(lines, "\n");
      r
  }

  /** What a client reads from one frame. */
  datatype Frame = Comment(text: string) | Named(kind: EventType, payload: string)

  /** A client's reading of one frame: a comment, or an event line and a data line. */
  function ParseFrame(s: string): (r: Option<Frame>)
  {
    if |s| >= 3 && s[0] == ':' && s[|s| - 2..] == "\n\n" && '\n' !in s[..|s| - 2] then
      Some(Comment(if |s| >= 4 && s[1] == ' ' then s[2..|s| - 2] else s[1..|s| - 2]))
    else
      var lines := Split(s, '\n');
      if |lines| == 4 && lines[2] == "" && lines[3] == ""
         && "event: " <= lines[0] && "data: " <= lines[1]
         && LabelToType(lines[0][7..]).Some? then
        Some(Named(LabelToType(lines[0][7..]).value, lines[1][6..]))
      else None
  }

  /**
   * A client reads back the type and the payload text of every named frame,
   * provided the payload's JSON text is on one line (as `json.dumps` writes
   * it); a heartbeat reads back as the "keepalive" comment.
   */
  lemma FormatParseRoundTrip(e: SseEvent, dumps: Json -> string)
    requires '\n' !in dumps(JObj(e.data))
    ensures e.cls == HeartbeatEvent ==> ParseFrame(Format(e, dumps)) == Some(Comment("keepalive"))
    ensures e.cls != HeartbeatEvent ==>
              ParseFrame(Format(e, dumps)) == Some(Named(e.kind, dumps(JObj(e.data))))
  {
    if e.cls != HeartbeatEvent {
      NamedFrameParses(e.kind, dumps(JObj(e.data)));
    } else {
      KeepAliveParses();
    }
  }

  lemma KeepAliveParses()
    ensures ParseFrame(KeepAlive) == Some(Comment("keepalive"))
  {
    assert KeepAlive == ": " + "keepalive" + "\n\n";
    CommentFrameParses("keepalive");
  }

  /** A one-line comment frame reads back as that comment. */
  lemma CommentFrameParses(text: string)
    requires '\n' !in text
    ensures ParseFrame(": " + text + "\n\n") == Some(Comment(text))
  {
    var s := ": " + text + "\n\n";
    assert s[..|s| - 2] == ": " + text;
    assert s[|s| - 2..] == "\n\n";
    assert s[2..|s| - 2] == text;
  }

  /** The lines of a named frame with a one-line payload read back as that frame. */
  lemma NamedFrameParses(kind: EventType, payload: string)
    requires '\n' !in payload
    ensures ParseFrame(Join(FrameLines(kind, payload), "\n")) == Some(Named(kind, payload))
  {
    var lines := FrameLines(kind, payload);
    var s := Join(lines, "\n");
    FrameLinesSplit(kind, payload);
    assert s[0] == 'e' by {
      assert s == lines[0] + "\n" + Join(lines[1..], "\n");
    }
    assert lines[0][7..] == Label(kind);
    assert lines[1][6..] == payload;
    LabelRoundTrip(kind);
  }

  /** Splitting a named frame at line breaks gives back its lines. */
  lemma FrameLinesSplit(kind: EventType, payload: string)
    requires '\n' !in payload
    ensures Split(Join(FrameLines(kind, payload), "\n"), '\n') == FrameLines(kind, payload)
  {
    var lines := FrameLines(kind, payload);
    forall i | 0 <= i < |lines| ensures '\n' !in lines[i] {
      if i == 0 {
        NotInConcat("event: ", Label(kind), '\n');
      } else if i == 1 {
        NotInConcat("data: ", payload, '\n');
      }
    }
    SplitJoin(lines, '\n');
  }
}
