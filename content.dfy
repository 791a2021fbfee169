/**
  The tagged content model of OpenCode messages: message parts (discriminated
  by `type`), the state of a tool invocation (discriminated by `status`) with
  its queries, and the session status (discriminated by `type`), each with
  the decoder that serde derives for it.
 */
module Content {
  import opened Json
  import opened Serde

  /** Timing of a message or part. The two instants are JSON numbers kept as
      received; no arithmetic is done on them. */
  datatype TimeSpan = TimeSpan(start: Option<Json>, end: Option<Json>)

  /** Both instants are optional numbers. */
  function DecodeTimeSpan(j: Json): (r: Decoded<TimeSpan>)
    ensures r.Ok? <==> j.Obj? && OptionalDecodes(j.members, "start", AsNumber) &&
                       OptionalDecodes(j.members, "end", AsNumber)
    ensures r.Ok? ==> OptionalValueIs(j.members, "start", r.value.start) &&
                      OptionalValueIs(j.members, "end", r.value.end)
  {
    var m :- AsObject(j);
    var start :- Optional(m, "start", AsNumber);
    var end :- Optional(m, "end", AsNumber);
    Ok(TimeSpan(start, end))
  }

  /** The message summary carried by `message.updated`. */
  datatype MessageInfo = MessageInfo(id: string, role: string, sessionId: Option<string>, time: Option<TimeSpan>)

  /** `id` and `role` are required strings; `sessionID` and `time` are
      optional. */
  function DecodeMessageInfo(j: Json): (r: Decoded<MessageInfo>)
    ensures r.Ok? <==> j.Obj? && HasString(j.members, "id") && HasString(j.members, "role") &&
                       OptionalStringOk(j.members, "sessionID") && OptionalDecodes(j.members, "time", DecodeTimeSpan)
    ensures r.Ok? ==> Lookup(j.members, "id") == Some(Str(r.value.id)) &&
                      Lookup(j.members, "role") == Some(Str(r.value.role)) &&
                      OptionalStringIs(j.members, "sessionID", r.value.sessionId) &&
                      OptionalIs(j.members, "time", DecodeTimeSpan, r.value.time)
  {
    var m :- AsObject(j);
    var id :- Required(m, "id", AsString);
    var role :- Required(m, "role", AsString);
    var sessionId :- Optional(m, "sessionID", AsString);
    var time :- Optional(m, "time", DecodeTimeSpan);
    Ok(MessageInfo(id, role, sessionId, time))
  }

  // -- Tool execution state --

  /** The wire labels of the four tool states. */
  const ToolStatusLabels: set<string> := {"pending", "running", "completed", "error"}

  /** The progress of one tool invocation; each state carries only its own
      payload. `input` and `metadata` are opaque JSON. */
  datatype ToolState =
    | Pending(input: Option<Json>)
    | Running(input: Option<Json>, title: Option<string>, metadata: Option<seq<Member>>)
    | Completed(input: Option<Json>, output: Option<string>, title: Option<string>, metadata: Option<seq<Member>>)
    | Error(input: Option<Json>, error: Option<string>)
  {
    predicate IsRunning() { Running? }

    predicate IsCompleted() { Completed? }

    predicate IsError() { Error? }

    /** The display label of the state: one of the four wire labels, and the
        one that each query answers for. */
    function StatusStr(): (status: string)
      ensures status in ToolStatusLabels
      ensures status == "pending" <==> Pending?
      ensures status == "running" <==> IsRunning()
      ensures status == "completed" <==> IsCompleted()
      ensures status == "error" <==> IsError()
    {
      match this
      case Pending(_) => "pending"
      case Running(_, _, _) => "running"
      case Completed(_, _, _, _) => "completed"
      case Error(_, _) => "error"
    }
  }

  /** At most one query holds of a state, and none holds exactly of `Pending`. */
  lemma StatusQueriesExclusive(s: ToolState)
    ensures !(s.IsRunning() && s.IsCompleted())
    ensures !(s.IsRunning() && s.IsError())
    ensures !(s.IsCompleted() && s.IsError())
    ensures !s.IsRunning() && !s.IsCompleted() && !s.IsError() <==> s.Pending?
  {
  }

  /** `ToolState`, tagged by `status`. A decoded state's display label is
      the `status` it was decoded from, and each payload field is read from
      its key; a label other than the four fails: it is not mapped to any
      known state. */
  function DecodeToolState(j: Json): (r: Decoded<ToolState>)
    ensures r.Ok? ==> j.Obj? && Lookup(j.members, "status") == Some(Str(r.value.StatusStr()))
    ensures r.Ok? <==> j.Obj? && HasString(j.members, "status") &&
                       (var t := Lookup(j.members, "status").value.s;
                        t in ToolStatusLabels &&
                        (t in {"running", "completed"} ==>
                           OptionalStringOk(j.members, "title") && OptionalDecodes(j.members, "metadata", AsObject)) &&
                        (t == "completed" ==> OptionalStringOk(j.members, "output")) &&
                        (t == "error" ==> OptionalStringOk(j.members, "error")))
    ensures r.Ok? ==> OptionalValueIs(j.members, "input", r.value.input)
    ensures r.Ok? && (r.value.Running? || r.value.Completed?) ==>
              OptionalStringIs(j.members, "title", r.value.title) &&
              OptionalIs(j.members, "metadata", AsObject, r.value.metadata)
    ensures r.Ok? && r.value.Completed? ==> OptionalStringIs(j.members, "output", r.value.output)
    ensures r.Ok? && r.value.Error? ==> OptionalStringIs(j.members, "error", r.value.error)
  {
    var tagged :- Tagged(j, "status");
    var m := tagged.0;
    match tagged.1
    case "pending" =>
      var input := Optional(m, "input", AsValue).value;
      Ok(Pending(input))
    case "running" =>
      var input := Optional(m, "input", AsValue).value;
      var title :- Optional(m, "title", AsString);
      var metadata :- Optional(m, "metadata", AsObject);
      Ok(Running(input, title, metadata))
    case "completed" =>
      var input := Optional(m, "input", AsValue).value;
      var output :- Optional(m, "output", AsString);
      var title :- Optional(m, "title", AsString);
      var metadata :- Optional(m, "metadata", AsObject);
      Ok(Completed(input, output, title, metadata))
    case "error" =>
      var input := Optional(m, "input", AsValue).value;
      var error :- Optional(m, "error", AsString);
      Ok(Error(input, error))
    case _ => Fail
  }

  // -- Message parts --

  /** The `type` labels that select a specific part variant. */
  const KnownPartTypes: set<string> := {"text", "tool", "step-start", "step-finish"}

  /** A fragment of a message. `Other` stands for every part type this client
      does not process. */
  datatype Part =
    | Text(id: string, sessionId: Option<string>, messageId: Option<string>, text: string, time: Option<TimeSpan>)
    | Tool(id: string, sessionId: Option<string>, messageId: Option<string>, callId: Option<string>,
           tool: Option<string>, state: Option<ToolState>)
    | StepStart(id: string, sessionId: Option<string>)
    | StepFinish(id: string, sessionId: Option<string>, reason: Option<string>)
    | Other

  /** The `type` label of a specific part variant. */
  function PartTag(p: Part): string
    requires !p.Other?
  {
    match p
    case Text(_, _, _, _, _) => "text"
    case Tool(_, _, _, _, _, _) => "tool"
    case StepStart(_, _) => "step-start"
    case StepFinish(_, _, _) => "step-finish"
  }

  /** `Part`, tagged by `type`. A tool part's `state` is an `Option` field:
      missing or `null` gives `None`, and a present state that does not
      decode fails the whole part. */
  function DecodePart(j: Json): (r: Decoded<Part>)
    ensures r.Ok? ==> j.Obj? && HasString(j.members, "type")
    ensures r.Ok? && !r.value.Other? ==> Lookup(j.members, "type") == Some(Str(PartTag(r.value)))
    ensures r.Ok? && r.value.Other? ==> Lookup(j.members, "type").value.s !in KnownPartTypes
    ensures j.Obj? && Lookup(j.members, "type") == Some(Str("text")) ==> r == DecodeTextPart(j.members)
    ensures j.Obj? && Lookup(j.members, "type") == Some(Str("tool")) ==> r == DecodeToolPart(j.members)
    ensures j.Obj? && Lookup(j.members, "type") == Some(Str("step-start")) ==> r == DecodeStepStartPart(j.members)
    ensures j.Obj? && Lookup(j.members, "type") == Some(Str("step-finish")) ==> r == DecodeStepFinishPart(j.members)
  {
    var tagged :- Tagged(j, "type");
    match tagged.1
    case "text" => DecodeTextPart(tagged.0)
    case "tool" => DecodeToolPart(tagged.0)
    case "step-start" => DecodeStepStartPart(tagged.0)
    case "step-finish" => DecodeStepFinishPart(tagged.0)
    case _ => Ok(Other)
  }

  /** The fields of a text part: a required `id`, optional ids and time,
      and a `text` that is empty when missing. */
  function DecodeTextPart(m: seq<Member>): (r: Decoded<Part>)
    ensures r.Ok? <==> HasString(m, "id") && OptionalStringOk(m, "sessionID") && OptionalStringOk(m, "messageID") &&
                       (Lookup(m, "text").None? || HasString(m, "text")) && OptionalDecodes(m, "time", DecodeTimeSpan)
    ensures r.Ok? ==> r.value.Text? && Lookup(m, "id") == Some(Str(r.value.id)) &&
                      OptionalStringIs(m, "sessionID", r.value.sessionId) &&
                      OptionalStringIs(m, "messageID", r.value.messageId) &&
                      (if Lookup(m, "text").None? then r.value.text == "" else Lookup(m, "text") == Some(Str(r.value.text))) &&
                      OptionalIs(m, "time", DecodeTimeSpan, r.value.time)
  {
    var id :- Required(m, "id", AsString);
    var sessionId :- Optional(m, "sessionID", AsString);
    var messageId :- Optional(m, "messageID", AsString);
    var text :- Defaulted(m, "text", AsString, "");
    var time :- Optional(m, "time", DecodeTimeSpan);
    Ok(Text(id, sessionId, messageId, text, time))
  }

  /** The fields of a tool part: a required `id`, and optional ids, tool
      name and state. */
  function DecodeToolPart(m: seq<Member>): (r: Decoded<Part>)
    ensures r.Ok? <==> HasString(m, "id") && OptionalStringOk(m, "sessionID") && OptionalStringOk(m, "messageID") &&
                       OptionalStringOk(m, "callID") && OptionalStringOk(m, "tool") &&
                       OptionalDecodes(m, "state", DecodeToolState)
    ensures r.Ok? ==> r.value.Tool? && Lookup(m, "id") == Some(Str(r.value.id)) &&
                      OptionalStringIs(m, "sessionID", r.value.sessionId) &&
                      OptionalStringIs(m, "messageID", r.value.messageId) &&
                      OptionalStringIs(m, "callID", r.value.callId) && OptionalStringIs(m, "tool", r.value.tool) &&
                      OptionalIs(m, "state", DecodeToolState, r.value.state)
  {
    var id :- Required(m, "id", AsString);
    var sessionId :- Optional(m, "sessionID", AsString);
    var messageId :- Optional(m, "messageID", AsString);
    var callId :- Optional(m, "callID", AsString);
    var tool :- Optional(m, "tool", AsString);
    var state :- Optional(m, "state", DecodeToolState);
    Ok(Tool(id, sessionId, messageId, callId, tool, state))
  }

  /** The fields of a step start: a required `id` and an optional session. */
  function DecodeStepStartPart(m: seq<Member>): (r: Decoded<Part>)
    ensures r.Ok? <==> HasString(m, "id") && OptionalStringOk(m, "sessionID")
    ensures r.Ok? ==> r.value.StepStart? && Lookup(m, "id") == Some(Str(r.value.id)) &&
                      OptionalStringIs(m, "sessionID", r.value.sessionId)
  {
    var id :- Required(m, "id", AsString);
    var sessionId :- Optional(m, "sessionID", AsString);
    Ok(StepStart(id, sessionId))
  }

  /** The fields of a step finish: a required `id`, and an optional session
      and reason. */
  function DecodeStepFinishPart(m: seq<Member>): (r: Decoded<Part>)
    ensures r.Ok? <==> HasString(m, "id") && OptionalStringOk(m, "sessionID") && OptionalStringOk(m, "reason")
    ensures r.Ok? ==> r.value.StepFinish? && Lookup(m, "id") == Some(Str(r.value.id)) &&
                      OptionalStringIs(m, "sessionID", r.value.sessionId) &&
                      OptionalStringIs(m, "reason", r.value.reason)
  {
    var id :- Required(m, "id", AsString);
    var sessionId :- Optional(m, "sessionID", AsString);
    var reason :- Optional(m, "reason", AsString);
    Ok(StepFinish(id, sessionId, reason))
  }

  /** Any string `type` other than the four known labels decodes to `Other`,
      whatever else the object holds. */
  lemma UnknownPartTypeIsOther(m: seq<Member>, t: string)
    requires Lookup(m, "type") == Some(Str(t))
    requires t !in KnownPartTypes
    ensures DecodePart(Obj(m)) == Ok(Other)
  {
  }

  /** A part with a known `type` but no string `id` fails to decode. */
  lemma KnownPartNeedsId(m: seq<Member>, t: string)
    requires Lookup(m, "type") == Some(Str(t))
    requires t in KnownPartTypes
    requires Lookup(m, "id").None? || !Lookup(m, "id").value.Str?
    ensures DecodePart(Obj(m)) == Fail
  {
  }

  /** A decoded tool part has no state exactly when `state` was missing or
      `null`; a present state, even a bare `{"status": "pending"}`, gives
      `Some`. */
  lemma ToolStateAbsence(m: seq<Member>)
    requires Lookup(m, "type") == Some(Str("tool"))
    requires DecodePart(Obj(m)).Ok?
    ensures DecodePart(Obj(m)).value.Tool?
    ensures DecodePart(Obj(m)).value.state.None? <==> Lookup(m, "state") in {None, Some(Null)}
    ensures forall v | Lookup(m, "state") == Some(v) && v != Null ::
              DecodePart(Obj(m)).value.state == Some(DecodeToolState(v).value)
  {
    var state := Optional(m, "state", DecodeToolState);
    assert state.Ok? && DecodePart(Obj(m)).value.state == state.value;
    OptionalLaw(m, "state", DecodeToolState);
  }

  /** A tool part copies its `id`, its tool name and its decoded state. */
  lemma ToolPartFields(m: seq<Member>, id: string, tool: string, state: Json)
    requires Lookup(m, "type") == Some(Str("tool"))
    requires Lookup(m, "id") == Some(Str(id)) && Lookup(m, "tool") == Some(Str(tool))
    requires Lookup(m, "sessionID").None? && Lookup(m, "messageID").None? && Lookup(m, "callID").None?
    requires Lookup(m, "state") == Some(state) && state != Null && DecodeToolState(state).Ok?
    ensures DecodePart(Obj(m)) == Ok(Tool(id, None, None, None, Some(tool), Some(DecodeToolState(state).value)))
  {
    var st := DecodeToolState(state);
    assert Optional(m, "state", DecodeToolState) == Ok(Some(st.value));
    assert Optional(m, "tool", AsString) == Ok(Some(tool));
  }

  /** A tool part whose `state` carries a `status` outside the four labels
      fails as a whole: the unknown status is not coerced, and the state is
      not dropped. */
  lemma UnknownToolStatusFailsPart(m: seq<Member>, state: seq<Member>, status: string)
    requires Lookup(m, "type") == Some(Str("tool"))
    requires Lookup(m, "state") == Some(Obj(state))
    requires Lookup(state, "status") == Some(Str(status))
    requires status !in ToolStatusLabels
    ensures DecodePart(Obj(m)) == Fail
  {
    assert DecodeToolState(Obj(state)) == Fail;
  }

  // -- Session status --

  /** Session liveness as the server reports it. */
  datatype SessionStatusPayload = Idle | Busy | Retry(attempt: u32, message: Option<string>)

  /** `SessionStatusPayload`, tagged by `type`. */
  function DecodeSessionStatus(j: Json): (r: Decoded<SessionStatusPayload>)
    ensures r.Ok? ==> j.Obj? && Lookup(j.members, "type") == Some(Str(match r.value
                                                                      case Idle => "idle"
                                                                      case Busy => "busy"
                                                                      case Retry(_, _) => "retry"))
    ensures r.Ok? && r.value.Retry? ==>
              (if Lookup(j.members, "attempt").None? then r.value.attempt == 0
               else Lookup(j.members, "attempt") == Some(Int(r.value.attempt as int))) &&
              OptionalStringIs(j.members, "message", r.value.message)
    ensures j.Obj? && Lookup(j.members, "type") == Some(Str("retry")) ==>
              (r.Ok? <==> (Lookup(j.members, "attempt").None? || AsU32(Lookup(j.members, "attempt").value).Ok?) &&
                          OptionalStringOk(j.members, "message"))
  {
    var tagged :- Tagged(j, "type");
    var m := tagged.0;
    match tagged.1
    case "idle" => Ok(Idle)
    case "busy" => Ok(Busy)
    case "retry" =>
      var attempt :- Defaulted(m, "attempt", AsU32, 0);
      var message :- Optional(m, "message", AsString);
      Ok(Retry(attempt, message))
    case _ => Fail
  }

  /** How each status label decodes: `idle` and `busy` ignore every other
      key, a bare `retry` is attempt 0 with no message, a given `attempt` is
      kept when it fits in 32 bits, and any other label fails. */
  lemma SessionStatusCases(m: seq<Member>, t: string)
    requires Lookup(m, "type") == Some(Str(t))
    ensures t == "idle" ==> DecodeSessionStatus(Obj(m)) == Ok(Idle)
    ensures t == "busy" ==> DecodeSessionStatus(Obj(m)) == Ok(Busy)
    ensures t == "retry" && Lookup(m, "attempt").None? && Lookup(m, "message").None? ==>
              DecodeSessionStatus(Obj(m)) == Ok(Retry(0, None))
    ensures forall n | t == "retry" && Lookup(m, "attempt") == Some(Int(n)) && Lookup(m, "message").None? ::
              DecodeSessionStatus(Obj(m)) == (if 0 <= n < 0x1_0000_0000 then Ok(Retry(n as u32, None)) else Fail)
    ensures t !in {"idle", "busy", "retry"} ==> DecodeSessionStatus(Obj(m)) == Fail
  {
  }
}
