/**
  Outbound request bodies: session creation, prompt submission, and replies
  to permission and question requests. Serialisation leaves out every
  absent optional field (`skip_serializing_if = "Option::is_none"`) instead
  of writing `null`. Where the source also derives deserialisation, the
  decoder is given and shown to invert the encoder.
 */
module Requests {
  import opened Json
  import opened Serde

  /** Body of `POST /session`. */
  datatype CreateSessionRequest = CreateSessionRequest(title: Option<string>)

  /** One part of a prompt, tagged by `type` (`text` or `file`). */
  datatype PartInput =
    | Text(text: string, synthetic: Option<bool>)
    | File(mime: string, url: string, filename: Option<string>)

  /** Which backend model handles a prompt; both names are opaque. */
  datatype ModelParam = ModelParam(providerId: string, modelId: string)

  /** Body of `POST /session/{id}/message`. */
  datatype SendPromptRequest = SendPromptRequest(
    parts: seq<PartInput>,
    system: Option<string>,
    model: Option<ModelParam>,
    agent: Option<string>)

  datatype PermissionReply = Once | Always | Reject

  /** Body of `POST /permission/{id}/reply`. */
  datatype PermissionReplyRequest = PermissionReplyRequest(reply: PermissionReply, message: Option<string>)

  /** One answer to a question. */
  datatype QuestionAnswer = QuestionAnswer(labelText: string, description: Option<string>)

  /** Body of `POST /question/{id}/reply`. */
  datatype QuestionReplyRequest = QuestionReplyRequest(answers: seq<QuestionAnswer>)

  // -- Encoding --

  /** A skippable optional field: one member when present, none when absent. */
  function OmitIfNone<T>(key: string, o: Option<T>, enc: T -> Json): seq<Member>
  {
    match o
    case None => []
    case Some(v) => [Member(key, enc(v))]
  }

  /** The keys `OmitIfNone` contributes. */
  function KeyIfSome<T>(key: string, o: Option<T>): seq<string>
  {
    if o.Some? then [key] else []
  }

  /** A key written only by `OmitIfNone`, between members that lack it,
      holds the encoded value when one is given and is missing otherwise. */
  lemma OmittedLookup<T>(front: seq<Member>, back: seq<Member>, key: string, o: Option<T>, enc: T -> Json)
    requires Lookup(front, key).None? && Lookup(back, key).None?
    ensures Lookup(front + OmitIfNone(key, o, enc) + back, key) == if o.Some? then Some(enc(o.value)) else None
  {
    LookupAppend(front + OmitIfNone(key, o, enc), back, key);
    LookupAppend(front, OmitIfNone(key, o, enc), key);
  }

  function EncodeString(s: string): Json { Str(s) }

  function EncodeBool(b: bool): Json { Bool(b) }

  function EncodeCreateSession(r: CreateSessionRequest): (j: Json)
    ensures j.Obj? && Keys(j.members) == KeyIfSome("title", r.title)
    ensures NullFree(j)
    ensures Lookup(j.members, "title") == if r.title.Some? then Some(Str(r.title.value)) else None
  {
    Obj(OmitIfNone("title", r.title, EncodeString))
  }

  function EncodePartInput(p: PartInput): (j: Json)
    ensures j.Obj? && NullFree(j)
    ensures Keys(j.members) == match p
      case Text(_, synthetic) => ["type", "text"] + KeyIfSome("synthetic", synthetic)
      case File(_, _, filename) => ["type", "mime", "url"] + KeyIfSome("filename", filename)
  {
    match p
    case Text(text, synthetic) =>
      Obj([Member("type", Str("text")), Member("text", Str(text))] + OmitIfNone("synthetic", synthetic, EncodeBool))
    case File(mime, url, filename) =>
      Obj([Member("type", Str("file")), Member("mime", Str(mime)), Member("url", Str(url))] +
          OmitIfNone("filename", filename, EncodeString))
  }

  function EncodeModelParam(m: ModelParam): (j: Json)
    ensures j.Obj? && NullFree(j) && Keys(j.members) == ["providerId", "modelId"]
  {
    Obj([Member("providerId", Str(m.providerId)), Member("modelId", Str(m.modelId))])
  }

  /** Encodes each element of a list in order. */
  function EncodeList<T>(xs: seq<T>, enc: T -> Json): (items: seq<Json>)
    ensures |items| == |xs| && forall i | 0 <= i < |xs| :: items[i] == enc(xs[i])
  {
    seq(|xs|, i requires 0 <= i < |xs| => enc(xs[i]))
  }

  function EncodeSendPrompt(r: SendPromptRequest): (j: Json)
    ensures j.Obj? && NullFree(j)
    ensures Keys(j.members) ==
              ["parts"] + KeyIfSome("system", r.system) + KeyIfSome("model", r.model) + KeyIfSome("agent", r.agent)
    ensures Lookup(j.members, "system") == if r.system.Some? then Some(Str(r.system.value)) else None
    ensures Lookup(j.members, "model") == if r.model.Some? then Some(EncodeModelParam(r.model.value)) else None
    ensures Lookup(j.members, "agent") == if r.agent.Some? then Some(Str(r.agent.value)) else None
  {
    var parts := [Member("parts", Arr(EncodeList(r.parts, EncodePartInput)))];
    var system := OmitIfNone("system", r.system, EncodeString);
    var model := OmitIfNone("model", r.model, EncodeModelParam);
    var agent := OmitIfNone("agent", r.agent, EncodeString);
    KeysAppend4(parts, system, model, agent);
    PromptFieldLookups(r, parts);
    PromptNullFree(r, parts);
    Obj(parts + system + model + agent)
  }

  /** The optional prompt fields, appended after members that lack their
      keys, each hold the given value or are missing. */
  lemma PromptFieldLookups(r: SendPromptRequest, parts: seq<Member>)
    requires Lookup(parts, "system").None? && Lookup(parts, "model").None? && Lookup(parts, "agent").None?
    ensures var m := parts + OmitIfNone("system", r.system, EncodeString) +
                     OmitIfNone("model", r.model, EncodeModelParam) + OmitIfNone("agent", r.agent, EncodeString);
            Lookup(m, "system") == (if r.system.Some? then Some(Str(r.system.value)) else None) &&
            Lookup(m, "model") == (if r.model.Some? then Some(EncodeModelParam(r.model.value)) else None) &&
            Lookup(m, "agent") == (if r.agent.Some? then Some(Str(r.agent.value)) else None)
  {
    var system := OmitIfNone("system", r.system, EncodeString);
    var model := OmitIfNone("model", r.model, EncodeModelParam);
    var agent := OmitIfNone("agent", r.agent, EncodeString);
    assert "system"[0] != "model"[0] && "system"[0] != "agent"[0] && "model"[0] != "agent"[0];
    assert parts + system + model + agent == parts + system + (model + agent);
    LookupAppend(model, agent, "system");
    OmittedLookup(parts, model + agent, "system", r.system, EncodeString);
    LookupAppend(parts, system, "model");
    OmittedLookup(parts + system, agent, "model", r.model, EncodeModelParam);
    assert parts + system + model + agent == parts + system + model + agent + [];
    LookupAppend(parts, system, "agent");
    LookupAppend(parts + system, model, "agent");
    OmittedLookup(parts + system + model, [], "agent", r.agent, EncodeString);
  }

  /** The prompt fields add no `null` to null-free members before them. */
  lemma PromptNullFree(r: SendPromptRequest, parts: seq<Member>)
    requires NullFree(Obj(parts))
    ensures NullFree(Obj(parts + OmitIfNone("system", r.system, EncodeString) +
                         OmitIfNone("model", r.model, EncodeModelParam) + OmitIfNone("agent", r.agent, EncodeString)))
  {
    var system := OmitIfNone("system", r.system, EncodeString);
    var model := OmitIfNone("model", r.model, EncodeModelParam);
    var agent := OmitIfNone("agent", r.agent, EncodeString);
    NullFreeAppend(parts, system);
    NullFreeAppend(parts + system, model);
    NullFreeAppend(parts + system + model, agent);
  }

  /** The wire label of a permission reply. */
  function ReplyLabel(r: PermissionReply): (wire: string)
    ensures wire in {"once", "always", "reject"}
    ensures wire == "once" <==> r == Once
    ensures wire == "always" <==> r == Always
    ensures wire == "reject" <==> r == Reject
  {
    match r
    case Once => "once"
    case Always => "always"
    case Reject => "reject"
  }

  /** Distinct replies have distinct labels. */
  lemma ReplyLabelInjective(r1: PermissionReply, r2: PermissionReply)
    ensures ReplyLabel(r1) == ReplyLabel(r2) ==> r1 == r2
  {
    assert "once" != "always" && "once" != "reject" && "always" != "reject";
  }

  function EncodePermissionReply(r: PermissionReply): Json
  {
    Str(ReplyLabel(r))
  }

  function EncodePermissionReplyRequest(r: PermissionReplyRequest): (j: Json)
    ensures j.Obj? && NullFree(j) && Keys(j.members) == ["reply"] + KeyIfSome("message", r.message)
    ensures Lookup(j.members, "reply") == Some(Str(ReplyLabel(r.reply)))
    ensures Lookup(j.members, "message") == if r.message.Some? then Some(Str(r.message.value)) else None
  {
    var front := [Member("reply", EncodePermissionReply(r.reply))];
    var back := OmitIfNone("message", r.message, EncodeString);
    LookupAppend(front, back, "message");
    Obj(front + back)
  }

  function EncodeQuestionAnswer(a: QuestionAnswer): (j: Json)
    ensures j.Obj? && NullFree(j) && Keys(j.members) == ["label"] + KeyIfSome("description", a.description)
  {
    Obj([Member("label", Str(a.labelText))] + OmitIfNone("description", a.description, EncodeString))
  }

  function EncodeQuestionReply(r: QuestionReplyRequest): (j: Json)
    ensures j.Obj? && NullFree(j) && Keys(j.members) == ["answers"]
  {
    Obj([Member("answers", Arr(EncodeList(r.answers, EncodeQuestionAnswer)))])
  }

  lemma KeysAppend4(a: seq<Member>, b: seq<Member>, c: seq<Member>, d: seq<Member>)
    ensures Keys(a + b + c + d) == Keys(a) + Keys(b) + Keys(c) + Keys(d)
  {
    KeysAppend(a, b);
    KeysAppend(a + b, c);
    KeysAppend(a + b + c, d);
  }

  // -- Decoding, where the source derives it --

  /** A text part needs `text`, a file part `mime` and `url`; any other
      `type` fails. */
  function DecodePartInput(j: Json): (r: Decoded<PartInput>)
    ensures r.Ok? ==> j.Obj? && Lookup(j.members, "type") == Some(Str(if r.value.Text? then "text" else "file"))
    ensures r.Ok? && r.value.Text? ==>
              Lookup(j.members, "text") == Some(Str(r.value.text)) &&
              OptionalIs(j.members, "synthetic", AsBool, r.value.synthetic)
    ensures r.Ok? && r.value.File? ==>
              Lookup(j.members, "mime") == Some(Str(r.value.mime)) && Lookup(j.members, "url") == Some(Str(r.value.url)) &&
              OptionalStringIs(j.members, "filename", r.value.filename)
  {
    var tagged :- Tagged(j, "type");
    match tagged.1
    case "text" => DecodeTextInput(tagged.0)
    case "file" => DecodeFileInput(tagged.0)
    case _ => Fail
  }

  function DecodeTextInput(m: seq<Member>): Decoded<PartInput>
  {
    var text :- Required(m, "text", AsString);
    var synthetic :- Optional(m, "synthetic", AsBool);
    Ok(Text(text, synthetic))
  }

  function DecodeFileInput(m: seq<Member>): Decoded<PartInput>
  {
    var mime :- Required(m, "mime", AsString);
    var url :- Required(m, "url", AsString);
    var filename :- Optional(m, "filename", AsString);
    Ok(File(mime, url, filename))
  }

  function DecodeModelParam(j: Json): (r: Decoded<ModelParam>)
    ensures r.Ok? <==> j.Obj? && HasString(j.members, "providerId") && HasString(j.members, "modelId")
    ensures r.Ok? ==> Lookup(j.members, "providerId") == Some(Str(r.value.providerId)) &&
                      Lookup(j.members, "modelId") == Some(Str(r.value.modelId))
  {
    var m :- AsObject(j);
    var providerId :- Required(m, "providerId", AsString);
    var modelId :- Required(m, "modelId", AsString);
    Ok(ModelParam(providerId, modelId))
  }

  /** A unit variant: its label as a string, or an object holding only the
      label mapped to `null`. */
  function DecodePermissionReply(j: Json): (r: Decoded<PermissionReply>)
    ensures r.Ok? ==> j == Str(ReplyLabel(r.value)) || j == Obj([Member(ReplyLabel(r.value), Null)])
  {
    var name :-
      if j.Str? then Ok(j.s)
      else if j.Obj? && |j.members| == 1 && j.members[0].value == Null then Ok(j.members[0].key)
      else Fail;
    match name
    case "once" => Ok(Once)
    case "always" => Ok(Always)
    case "reject" => Ok(Reject)
    case _ => Fail
  }

  function DecodeQuestionAnswer(j: Json): (r: Decoded<QuestionAnswer>)
    ensures r.Ok? <==> j.Obj? && HasString(j.members, "label") && OptionalStringOk(j.members, "description")
    ensures r.Ok? ==> Lookup(j.members, "label") == Some(Str(r.value.labelText)) &&
                      OptionalStringIs(j.members, "description", r.value.description)
  {
    var m :- AsObject(j);
    var labelText :- Required(m, "label", AsString);
    var description :- Optional(m, "description", AsString);
    Ok(QuestionAnswer(labelText, description))
  }

  // -- Round trips --

  /** Decoding the encoding of a prompt part gives the part back. */
  lemma PartInputRoundTrip(p: PartInput)
    ensures DecodePartInput(EncodePartInput(p)) == Ok(p)
  {
    match p
    case Text(text, synthetic) =>
      var front := [Member("type", Str("text")), Member("text", Str(text))];
      var back := OmitIfNone("synthetic", synthetic, EncodeBool);
      var m := front + back;
      LookupAppend(front, back, "type");
      LookupAppend(front, back, "text");
      LookupAppend(front, back, "synthetic");
      LookupFindsFirst(front, "synthetic");
      assert Tagged(Obj(m), "type") == Ok((m, "text"));
    case File(mime, url, filename) =>
      var front := [Member("type", Str("file")), Member("mime", Str(mime)), Member("url", Str(url))];
      var back := OmitIfNone("filename", filename, EncodeString);
      var m := front + back;
      LookupAppend(front, back, "type");
      LookupAppend(front, back, "mime");
      LookupAppend(front, back, "url");
      LookupAppend(front, back, "filename");
      LookupFindsFirst(front, "filename");
      assert front[1..] == [Member("mime", Str(mime)), Member("url", Str(url))];
      assert Lookup(front, "url") == Lookup(front[1..], "url") == Lookup(front[1..][1..], "url");
      assert Tagged(Obj(m), "type") == Ok((m, "file"));
      assert "file" != "text" by { assert "file"[0] != "text"[0]; }
  }

  /** Decoding the encoding of a model selection gives it back. */
  lemma ModelParamRoundTrip(m: ModelParam)
    ensures DecodeModelParam(EncodeModelParam(m)) == Ok(m)
  {
    var members := EncodeModelParam(m).members;
    assert Lookup(members, "modelId") == Lookup(members[1..], "modelId") == Some(Str(m.modelId));
  }

  /** Decoding the label of a permission reply gives the reply back. */
  lemma PermissionReplyRoundTrip(r: PermissionReply)
    ensures DecodePermissionReply(EncodePermissionReply(r)) == Ok(r)
  {
  }

  /** Decoding the encoding of an answer gives the answer back. */
  lemma QuestionAnswerRoundTrip(a: QuestionAnswer)
    ensures DecodeQuestionAnswer(EncodeQuestionAnswer(a)) == Ok(a)
  {
    var front := [Member("label", Str(a.labelText))];
    var back := OmitIfNone("description", a.description, EncodeString);
    LookupAppend(front, back, "label");
    LookupAppend(front, back, "description");
  }

  /** The `parts` of an encoded prompt decode, in order, to the prompt's
      parts. */
  lemma SendPromptPartsRoundTrip(r: SendPromptRequest)
    ensures EncodeSendPrompt(r).members[0] == Member("parts", Arr(EncodeList(r.parts, EncodePartInput)))
    ensures DecodeAll(EncodeList(r.parts, EncodePartInput), DecodePartInput) == Ok(r.parts)
  {
    forall p | p in r.parts ensures DecodePartInput(EncodePartInput(p)) == Ok(p) {
      PartInputRoundTrip(p);
    }
    DecodeAllRoundTrip(r.parts, EncodePartInput, DecodePartInput);
  }

  /** The `answers` of an encoded question reply decode, in order, to the
      reply's answers. */
  lemma QuestionReplyRoundTrip(r: QuestionReplyRequest)
    ensures Lookup(EncodeQuestionReply(r).members, "answers") == Some(Arr(EncodeList(r.answers, EncodeQuestionAnswer)))
    ensures AsList(Lookup(EncodeQuestionReply(r).members, "answers").value, DecodeQuestionAnswer) == Ok(r.answers)
  {
    forall a | a in r.answers ensures DecodeQuestionAnswer(EncodeQuestionAnswer(a)) == Ok(a) {
      QuestionAnswerRoundTrip(a);
    }
    DecodeAllRoundTrip(r.answers, EncodeQuestionAnswer, DecodeQuestionAnswer);
  }
}
