/**
  The envelope dispatcher: every server-sent event arrives as
  `{"type": ..., "properties": ...}`, and `FromEnvelope` turns it into one
  typed `SseEvent`, falling back to `Unknown` instead of failing.
 */
module Events {
  import opened Json
  import opened Serde
  import opened Content
  import opened Correlation

  /** The raw envelope: its discriminant and its still untyped properties. */
  datatype Envelope = Envelope(eventType: string, properties: Json)

  /** `type` is required; missing `properties` are `null`. */
  function DecodeEnvelope(j: Json): (r: Decoded<Envelope>)
    ensures r.Ok? <==> j.Obj? && HasString(j.members, "type")
    ensures r.Ok? ==> Lookup(j.members, "type") == Some(Str(r.value.eventType)) &&
                      (if Lookup(j.members, "properties").None? then r.value.properties == Null
                       else Lookup(j.members, "properties") == Some(r.value.properties))
  {
    var m :- AsObject(j);
    var eventType :- Required(m, "type", AsString);
    var properties := Defaulted(m, "properties", AsValue, Null).value;
    Ok(Envelope(eventType, properties))
  }

  /** The typed event, one variant per recognised discriminant, plus
      `Unknown` for everything this client cannot classify. */
  datatype SseEvent =
    | MessageUpdated(info: Option<MessageInfo>)
    | MessagePartUpdated(part: Part, delta: Option<string>)
    | SessionIdle(sessionId: string)
    | SessionError(errorSessionId: Option<string>, error: Option<Json>)
    | SessionStatus(sessionId: string, status: SessionStatusPayload)
    | PermissionAsked(permissionRequest: PermissionRequest)
    | PermissionReplied(sessionId: string, requestId: string, reply: string)
    | QuestionAsked(questionRequest: QuestionRequest)
    | QuestionReplied(sessionId: string, requestId: string)
    | Unknown(eventType: string)

  /** The nine discriminants the dispatcher recognises. */
  const KnownEventTypes: set<string> := {
    "message.updated", "message.part.updated", "session.idle", "session.error", "session.status",
    "permission.asked", "permission.replied", "question.asked", "question.replied"
  }

  /** The recognised discriminants whose malformed properties give a
      parse-error `Unknown`; the other two fall back to default payloads. */
  const FallibleEventTypes: set<string> := KnownEventTypes - {"message.updated", "session.error"}

  /** The label of the `Unknown` event for malformed properties of `t`. */
  function ParseError(t: string): string
  {
    t + " (parse error)"
  }

  /** The wire discriminant that each typed variant stands for. */
  function Discriminant(ev: SseEvent): string
  {
    match ev
    case MessageUpdated(_) => "message.updated"
    case MessagePartUpdated(_, _) => "message.part.updated"
    case SessionIdle(_) => "session.idle"
    case SessionError(_, _) => "session.error"
    case SessionStatus(_, _) => "session.status"
    case PermissionAsked(_) => "permission.asked"
    case PermissionReplied(_, _, _) => "permission.replied"
    case QuestionAsked(_) => "question.asked"
    case QuestionReplied(_, _) => "question.replied"
    case Unknown(t) => t
  }

  // -- The per-discriminant property schemas --

  datatype MessageUpdatedProps = MessageUpdatedProps(info: Option<MessageInfo>)

  datatype MessagePartUpdatedProps = MessagePartUpdatedProps(part: Part, delta: Option<string>)

  datatype SessionIdProps = SessionIdProps(sessionId: string)

  datatype SessionErrorProps = SessionErrorProps(sessionId: Option<string>, error: Option<Json>)

  datatype SessionStatusProps = SessionStatusProps(sessionId: string, status: SessionStatusPayload)

  datatype PermissionRepliedProps = PermissionRepliedProps(sessionId: string, requestId: string, reply: string)

  datatype QuestionRepliedProps = QuestionRepliedProps(sessionId: string, requestId: string)

  function DecodeMessageUpdatedProps(j: Json): (r: Decoded<MessageUpdatedProps>)
    ensures r.Ok? <==> j.Obj? && OptionalDecodes(j.members, "info", DecodeMessageInfo)
    ensures r.Ok? ==> OptionalIs(j.members, "info", DecodeMessageInfo, r.value.info)
  {
    var m :- AsObject(j);
    var info :- Optional(m, "info", DecodeMessageInfo);
    Ok(MessageUpdatedProps(info))
  }

  function DecodeMessagePartUpdatedProps(j: Json): (r: Decoded<MessagePartUpdatedProps>)
    ensures r.Ok? <==> j.Obj? && Lookup(j.members, "part").Some? && DecodePart(Lookup(j.members, "part").value).Ok? &&
                       OptionalStringOk(j.members, "delta")
    ensures r.Ok? ==> DecodePart(Lookup(j.members, "part").value) == Ok(r.value.part) &&
                      OptionalStringIs(j.members, "delta", r.value.delta)
  {
    var m :- AsObject(j);
    var part :- Required(m, "part", DecodePart);
    var delta :- Optional(m, "delta", AsString);
    Ok(MessagePartUpdatedProps(part, delta))
  }

  function DecodeSessionIdProps(j: Json): (r: Decoded<SessionIdProps>)
    ensures r.Ok? <==> j.Obj? && HasString(j.members, "sessionID")
    ensures r.Ok? ==> Lookup(j.members, "sessionID") == Some(Str(r.value.sessionId))
  {
    var m :- AsObject(j);
    var sessionId :- Required(m, "sessionID", AsString);
    Ok(SessionIdProps(sessionId))
  }

  function DecodeSessionErrorProps(j: Json): (r: Decoded<SessionErrorProps>)
    ensures r.Ok? <==> j.Obj? && OptionalStringOk(j.members, "sessionID")
    ensures r.Ok? ==> OptionalStringIs(j.members, "sessionID", r.value.sessionId) &&
                      OptionalValueIs(j.members, "error", r.value.error)
  {
    var m :- AsObject(j);
    var sessionId :- Optional(m, "sessionID", AsString);
    var error := Optional(m, "error", AsValue).value;
    Ok(SessionErrorProps(sessionId, error))
  }

  function DecodeSessionStatusProps(j: Json): (r: Decoded<SessionStatusProps>)
    ensures r.Ok? <==> j.Obj? && HasString(j.members, "sessionID") && Lookup(j.members, "status").Some? &&
                       DecodeSessionStatus(Lookup(j.members, "status").value).Ok?
    ensures r.Ok? ==> Lookup(j.members, "sessionID") == Some(Str(r.value.sessionId)) &&
                      DecodeSessionStatus(Lookup(j.members, "status").value) == Ok(r.value.status)
  {
    var m :- AsObject(j);
    var sessionId :- Required(m, "sessionID", AsString);
    var status :- Required(m, "status", DecodeSessionStatus);
    Ok(SessionStatusProps(sessionId, status))
  }

  function DecodePermissionRepliedProps(j: Json): (r: Decoded<PermissionRepliedProps>)
    ensures r.Ok? <==> j.Obj? && HasString(j.members, "sessionID") && HasString(j.members, "requestID") &&
                       HasString(j.members, "reply")
    ensures r.Ok? ==> Lookup(j.members, "sessionID") == Some(Str(r.value.sessionId)) &&
                      Lookup(j.members, "requestID") == Some(Str(r.value.requestId)) &&
                      Lookup(j.members, "reply") == Some(Str(r.value.reply))
  {
    var m :- AsObject(j);
    var sessionId :- Required(m, "sessionID", AsString);
    var requestId :- Required(m, "requestID", AsString);
    var reply :- Required(m, "reply", AsString);
    Ok(PermissionRepliedProps(sessionId, requestId, reply))
  }

  function DecodeQuestionRepliedProps(j: Json): (r: Decoded<QuestionRepliedProps>)
    ensures r.Ok? <==> j.Obj? && HasString(j.members, "sessionID") && HasString(j.members, "requestID")
    ensures r.Ok? ==> Lookup(j.members, "sessionID") == Some(Str(r.value.sessionId)) &&
                      Lookup(j.members, "requestID") == Some(Str(r.value.requestId))
  {
    var m :- AsObject(j);
    var sessionId :- Required(m, "sessionID", AsString);
    var requestId :- Required(m, "requestID", AsString);
    Ok(QuestionRepliedProps(sessionId, requestId))
  }

  // -- The dispatcher --

  /** Classifies one envelope. Total: an unrecognised discriminant is kept
      verbatim in `Unknown`; a recognised one gives its own variant, or, when
      its properties are malformed, the parse-error `Unknown` (for seven
      discriminants) or a default payload (for `message.updated` and
      `session.error`). */
  function FromEnvelope(e: Envelope): (ev: SseEvent)
    ensures e.eventType !in KnownEventTypes ==> ev == Unknown(e.eventType)
    ensures e.eventType in KnownEventTypes && ev.Unknown? ==>
              e.eventType in FallibleEventTypes && ev == Unknown(ParseError(e.eventType))
    ensures e.eventType in KnownEventTypes && !ev.Unknown? ==> Discriminant(ev) == e.eventType
  {
    var props := e.properties;
    match e.eventType
    case "message.updated" =>
      var info := match DecodeMessageUpdatedProps(props)
        case Ok(p) => p.info
        case Fail => None;
      MessageUpdated(info)
    case "message.part.updated" =>
      (match DecodeMessagePartUpdatedProps(props)
       case Ok(p) => MessagePartUpdated(p.part, p.delta)
       case Fail => Unknown(ParseError("message.part.updated")))
    case "session.idle" =>
      (match DecodeSessionIdProps(props)
       case Ok(p) => SessionIdle(p.sessionId)
       case Fail => Unknown(ParseError("session.idle")))
    case "session.error" =>
      var p := match DecodeSessionErrorProps(props)
        case Ok(p) => p
        case Fail => SessionErrorProps(None, None);
      SessionError(p.sessionId, p.error)
    case "session.status" =>
      (match DecodeSessionStatusProps(props)
       case Ok(p) => SessionStatus(p.sessionId, p.status)
       case Fail => Unknown(ParseError("session.status")))
    case "permission.asked" =>
      (match DecodePermissionRequest(props)
       case Ok(p) => PermissionAsked(p)
       case Fail => Unknown(ParseError("permission.asked")))
    case "permission.replied" =>
      (match DecodePermissionRepliedProps(props)
       case Ok(p) => PermissionReplied(p.sessionId, p.requestId, p.reply)
       case Fail => Unknown(ParseError("permission.replied")))
    case "question.asked" =>
      (match DecodeQuestionRequest(props)
       case Ok(p) => QuestionAsked(p)
       case Fail => Unknown(ParseError("question.asked")))
    case "question.replied" =>
      (match DecodeQuestionRepliedProps(props)
       case Ok(p) => QuestionReplied(p.sessionId, p.requestId)
       case Fail => Unknown(ParseError("question.replied")))
    case other => Unknown(other)
  }

  // -- What the dispatcher promises, per discriminant --

  /** `message.updated` never gives `Unknown`: it carries the decoded `info`
      when the properties are an object whose `info` decodes, and no info in
      every other case, malformed ones included. */
  lemma MessageUpdatedNeverFails(props: Json)
    ensures FromEnvelope(Envelope("message.updated", props)) ==
              MessageUpdated(
                if props.Obj? && Lookup(props.members, "info").Some? &&
                   DecodeMessageInfo(Lookup(props.members, "info").value).Ok?
                then Some(DecodeMessageInfo(Lookup(props.members, "info").value).value)
                else None)
  {
  }

  /** `session.error` never gives `Unknown`. Its session id and error are
      taken from an object whose `sessionID` is a string, `null` or absent;
      otherwise (not an object, or a `sessionID` of another type) both are
      dropped, the error value included. */
  lemma SessionErrorNeverFails(props: Json)
    ensures FromEnvelope(Envelope("session.error", props)).SessionError?
    ensures !props.Obj? ==> FromEnvelope(Envelope("session.error", props)) == SessionError(None, None)
    ensures props.Obj? ==>
              var sid := Lookup(props.members, "sessionID");
              var err := Lookup(props.members, "error");
              FromEnvelope(Envelope("session.error", props)) ==
                if sid.Some? && sid.value != Null && !sid.value.Str? then SessionError(None, None)
                else SessionError(if sid.Some? && sid.value.Str? then Some(sid.value.s) else None,
                                  if err.Some? && err.value != Null then Some(err.value) else None)
  {
  }

  /** `session.idle` copies a string `sessionID` unchanged, and is a parse
      error exactly when there is none. */
  lemma SessionIdleCopiesId(props: Json)
    ensures FromEnvelope(Envelope("session.idle", props)) ==
              if props.Obj? && Lookup(props.members, "sessionID").Some? && Lookup(props.members, "sessionID").value.Str?
              then SessionIdle(Lookup(props.members, "sessionID").value.s)
              else Unknown("session.idle (parse error)")
  {
  }

  /** `permission.replied` copies the three strings unchanged, and is a
      parse error exactly when the properties are not an object or one of
      the three is missing or not a string. */
  lemma PermissionRepliedCopiesIds(props: Json)
    ensures FromEnvelope(Envelope("permission.replied", props)) ==
              if props.Obj? && HasString(props.members, "sessionID") && HasString(props.members, "requestID") &&
                 HasString(props.members, "reply")
              then PermissionReplied(Lookup(props.members, "sessionID").value.s,
                                     Lookup(props.members, "requestID").value.s, Lookup(props.members, "reply").value.s)
              else Unknown("permission.replied (parse error)")
  {
    var d := DecodePermissionRepliedProps(props);
    assert FromEnvelope(Envelope("permission.replied", props)) ==
             if d.Ok? then PermissionReplied(d.value.sessionId, d.value.requestId, d.value.reply)
             else Unknown(ParseError("permission.replied"));
  }

  /** `question.replied` copies both strings unchanged, and is a parse error
      exactly when the properties are not an object or one of the two is
      missing or not a string. */
  lemma QuestionRepliedCopiesIds(props: Json)
    ensures FromEnvelope(Envelope("question.replied", props)) ==
              if props.Obj? && HasString(props.members, "sessionID") && HasString(props.members, "requestID")
              then QuestionReplied(Lookup(props.members, "sessionID").value.s, Lookup(props.members, "requestID").value.s)
              else Unknown("question.replied (parse error)")
  {
  }

  /** `permission.asked` carries the decoded request, and is a parse error
      exactly when the request does not decode. */
  lemma PermissionAskedDispatch(props: Json)
    ensures FromEnvelope(Envelope("permission.asked", props)) ==
              if DecodePermissionRequest(props).Ok? then PermissionAsked(DecodePermissionRequest(props).value)
              else Unknown("permission.asked (parse error)")
  {
  }

  /** `question.asked` carries the decoded request, and is a parse error
      exactly when the request does not decode. */
  lemma QuestionAskedDispatch(props: Json)
    ensures FromEnvelope(Envelope("question.asked", props)) ==
              if DecodeQuestionRequest(props).Ok? then QuestionAsked(DecodeQuestionRequest(props).value)
              else Unknown("question.asked (parse error)")
  {
  }

  /** `session.status` copies a string `sessionID` and carries the decoded
      status; it is a parse error exactly when the properties are not an
      object, `sessionID` is missing or not a string, or `status` is missing
      or does not decode (an unknown `type` among them). */
  lemma SessionStatusDispatch(props: Json)
    ensures FromEnvelope(Envelope("session.status", props)) ==
              if props.Obj? && HasString(props.members, "sessionID") && Lookup(props.members, "status").Some? &&
                 DecodeSessionStatus(Lookup(props.members, "status").value).Ok?
              then SessionStatus(Lookup(props.members, "sessionID").value.s,
                                 DecodeSessionStatus(Lookup(props.members, "status").value).value)
              else Unknown("session.status (parse error)")
  {
  }

  /** A bare `{"type": "retry"}` status is attempt 0 with no message. */
  lemma SessionStatusBareRetry(m: seq<Member>, sessionId: string)
    requires Lookup(m, "sessionID") == Some(Str(sessionId))
    requires Lookup(m, "status") == Some(Obj([Member("type", Str("retry"))]))
    ensures FromEnvelope(Envelope("session.status", Obj(m))) == SessionStatus(sessionId, Retry(0, None))
  {
    SessionStatusDispatch(Obj(m));
  }

  /** `message.part.updated` is a parse error exactly when its properties
      are not an object, `part` is missing or does not decode, or `delta` is
      neither absent, `null` nor a string; otherwise the event carries the
      decoded part and the wire `delta`. */
  lemma PartUpdatedDispatch(props: Json)
    ensures var ev := FromEnvelope(Envelope("message.part.updated", props));
            ev.Unknown? <==>
              !props.Obj? || Lookup(props.members, "part").None? ||
              DecodePart(Lookup(props.members, "part").value).Fail? ||
              (Lookup(props.members, "delta").Some? && Lookup(props.members, "delta").value != Null &&
               !Lookup(props.members, "delta").value.Str?)
    ensures var ev := FromEnvelope(Envelope("message.part.updated", props));
            ev.MessagePartUpdated? ==>
              (var p := Lookup(props.members, "part");
               p.Some? && DecodePart(p.value) == Ok(ev.part))
    ensures var ev := FromEnvelope(Envelope("message.part.updated", props));
            ev.MessagePartUpdated? ==> props.Obj? && OptionalStringIs(props.members, "delta", ev.delta)
  {
  }

  /** A tool part whose state has a `status` outside the four labels drops
      the whole `message.part.updated` event to its parse-error `Unknown`. */
  lemma UnknownToolStatusDropsEvent(m: seq<Member>, part: seq<Member>, state: seq<Member>, status: string)
    requires Lookup(m, "part") == Some(Obj(part))
    requires Lookup(part, "type") == Some(Str("tool"))
    requires Lookup(part, "state") == Some(Obj(state))
    requires Lookup(state, "status") == Some(Str(status))
    requires status !in ToolStatusLabels
    ensures FromEnvelope(Envelope("message.part.updated", Obj(m))) == Unknown("message.part.updated (parse error)")
  {
    UnknownToolStatusFailsPart(part, state, status);
    PartUpdatedDispatch(Obj(m));
  }

  // -- Request/reply correlation --

  /** A permission reply answers a permission request exactly when the
      reply's `requestID` equals the request's `id` on the wire: both are
      copied unchanged, so identifier equality is preserved both ways. */
  lemma PermissionReplyCorrelates(asked: seq<Member>, replied: seq<Member>)
    requires FromEnvelope(Envelope("permission.asked", Obj(asked))).PermissionAsked?
    requires FromEnvelope(Envelope("permission.replied", Obj(replied))).PermissionReplied?
    ensures FromEnvelope(Envelope("permission.asked", Obj(asked))).permissionRequest.id ==
            FromEnvelope(Envelope("permission.replied", Obj(replied))).requestId
            <==> Lookup(asked, "id") == Lookup(replied, "requestID")
  {
    assert DecodePermissionRequest(Obj(asked)).Ok?;
    assert FromEnvelope(Envelope("permission.asked", Obj(asked))).permissionRequest ==
           DecodePermissionRequest(Obj(asked)).value;
    PermissionRepliedCopiesIds(Obj(replied));
  }

  /** The same correlation for question requests and their replies. */
  lemma QuestionReplyCorrelates(asked: seq<Member>, replied: seq<Member>)
    requires FromEnvelope(Envelope("question.asked", Obj(asked))).QuestionAsked?
    requires FromEnvelope(Envelope("question.replied", Obj(replied))).QuestionReplied?
    ensures FromEnvelope(Envelope("question.asked", Obj(asked))).questionRequest.id ==
            FromEnvelope(Envelope("question.replied", Obj(replied))).requestId
            <==> Lookup(asked, "id") == Lookup(replied, "requestID")
  {
    QuestionRepliedCopiesIds(Obj(replied));
  }

  /** The `Unknown` label alone does not tell an unrecognised discriminant
      from a malformed recognised one: a server type that happens to read
      "session.idle (parse error)" is classified like a malformed
      `session.idle`. */
  lemma UnknownLabelIsAmbiguous()
    ensures FromEnvelope(Envelope("session.idle (parse error)", Obj([]))) ==
            FromEnvelope(Envelope("session.idle", Obj([])))
  {
    var t := "session.idle (parse error)";
    assert t !in KnownEventTypes by { assert |t| == 26; }
    SessionIdleCopiesId(Obj([]));
  }

  // -- Worked examples --

  lemma ExampleSessionIdle()
    ensures FromEnvelope(Envelope("session.idle", Obj([Member("sessionID", Str("s1"))]))) == SessionIdle("s1")
  {
  }

  /** A running tool part in the shape documented for `ToolState`: a
      `running` status with a title, under a part tagged `tool`. */
  const ExampleState: seq<Member> := [Member("status", Str("running")), Member("title", Str("ls"))]
  const ExamplePart: seq<Member> :=
    [Member("type", Str("tool")), Member("id", Str("p1")), Member("tool", Str("bash")), Member("state", Obj(ExampleState))]

  lemma ExamplePartLookups()
    ensures Lookup(ExamplePart, "type") == Some(Str("tool"))
    ensures Lookup(ExamplePart, "id") == Some(Str("p1"))
    ensures Lookup(ExamplePart, "sessionID").None? && Lookup(ExamplePart, "messageID").None?
    ensures Lookup(ExamplePart, "callID").None?
    ensures Lookup(ExamplePart, "tool") == Some(Str("bash"))
    ensures Lookup(ExamplePart, "state") == Some(Obj(ExampleState))
  {
    var pm := ExamplePart;
    assert pm[1..] == [Member("id", Str("p1")), Member("tool", Str("bash")), Member("state", Obj(ExampleState))];
    assert pm[1..][1..] == [Member("tool", Str("bash")), Member("state", Obj(ExampleState))];
    assert pm[1..][1..][1..] == [Member("state", Obj(ExampleState))];
    assert "type"[1] != "tool"[1];
    assert Lookup(pm, "tool") == Lookup(pm[1..], "tool") == Lookup(pm[1..][1..], "tool");
    assert Lookup(pm, "state") == Lookup(pm[1..], "state") == Lookup(pm[1..][1..], "state")
        == Lookup(pm[1..][1..][1..], "state");
    LookupFindsFirst(pm, "sessionID");
    LookupFindsFirst(pm, "messageID");
    LookupFindsFirst(pm, "callID");
  }

  lemma ExamplePartDecodes()
    ensures DecodePart(Obj(ExamplePart)) ==
              Ok(Tool("p1", None, None, None, Some("bash"), Some(Running(None, Some("ls"), None))))
  {
    assert ExampleState[1..] == [Member("title", Str("ls"))];
    assert DecodeToolState(Obj(ExampleState)) == Ok(Running(None, Some("ls"), None));
    ExamplePartLookups();
    ToolPartFields(ExamplePart, "p1", "bash", Obj(ExampleState));
  }

  lemma ExampleRunningTool()
    ensures FromEnvelope(Envelope("message.part.updated",
                                  Obj([Member("part", Obj(ExamplePart)), Member("delta", Null)]))) ==
              MessagePartUpdated(Tool("p1", None, None, None, Some("bash"), Some(Running(None, Some("ls"), None))), None)
  {
    ExamplePartDecodes();
    var m := [Member("part", Obj(ExamplePart)), Member("delta", Null)];
    assert m[1..] == [Member("delta", Null)];
    assert Lookup(m, "part") == Some(Obj(ExamplePart));
    assert Lookup(m, "delta") == Lookup(m[1..], "delta") == Some(Null);
    PartUpdatedDispatch(Obj(m));
  }

  lemma ExampleUnrecognised()
    ensures FromEnvelope(Envelope("foo.bar", Obj([]))) == Unknown("foo.bar")
  {
  }

  lemma ExampleRetry()
    ensures var status := Obj([Member("type", Str("retry")), Member("attempt", Int(3))]);
            FromEnvelope(Envelope("session.status", Obj([Member("sessionID", Str("s2")), Member("status", status)]))) ==
              SessionStatus("s2", Retry(3, None))
  {
  }
}
