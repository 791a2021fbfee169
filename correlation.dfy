/**
  Permission and question requests announced by the server. Each carries an
  `id` that a later `*.replied` event repeats as its `requestID`.
 */
module Correlation {
  import opened Json
  import opened Serde

  /** A request for permission to run a tool. `metadata` is opaque JSON. */
  datatype PermissionRequest = PermissionRequest(
    id: string,
    sessionId: string,
    permission: Option<string>,
    patterns: seq<string>,
    metadata: seq<Member>)

  /** One option offered by a question. */
  datatype QuestionOption = QuestionOption(labelText: string, description: Option<string>)

  /** One question within a question request. */
  datatype QuestionInfo = QuestionInfo(question: Option<string>, header: Option<string>, options: seq<QuestionOption>)

  /** A request for the user to answer one or more questions. */
  datatype QuestionRequest = QuestionRequest(id: string, sessionId: string, questions: seq<QuestionInfo>)

  /** An array of strings: what a `Vec<String>` accepts. */
  predicate StringArray(j: Json)
  {
    j.Arr? && forall i | 0 <= i < |j.items| :: j.items[i].Str?
  }

  /** The array on the wire holds exactly the strings `xs`, in order. */
  predicate ArrayOfStrings(j: Json, xs: seq<string>)
  {
    j.Arr? && |j.items| == |xs| && forall i | 0 <= i < |xs| :: j.items[i] == Str(xs[i])
  }

  /** `id` and `sessionID` are required; a missing `patterns` or `metadata`
      is empty, and the request fails on a field of the wrong type. */
  function DecodePermissionRequest(j: Json): (r: Decoded<PermissionRequest>)
    ensures r.Ok? <==> j.Obj? && HasString(j.members, "id") && HasString(j.members, "sessionID") &&
                       OptionalStringOk(j.members, "permission") &&
                       (Lookup(j.members, "patterns").None? || StringArray(Lookup(j.members, "patterns").value)) &&
                       (Lookup(j.members, "metadata").None? || Lookup(j.members, "metadata").value.Obj?)
    ensures r.Ok? ==> Lookup(j.members, "id") == Some(Str(r.value.id)) &&
                      Lookup(j.members, "sessionID") == Some(Str(r.value.sessionId)) &&
                      OptionalStringIs(j.members, "permission", r.value.permission) &&
                      (if Lookup(j.members, "patterns").None? then r.value.patterns == []
                       else ArrayOfStrings(Lookup(j.members, "patterns").value, r.value.patterns)) &&
                      (if Lookup(j.members, "metadata").None? then r.value.metadata == []
                       else Lookup(j.members, "metadata") == Some(Obj(r.value.metadata)))
  {
    var m :- AsObject(j);
    var id :- Required(m, "id", AsString);
    var sessionId :- Required(m, "sessionID", AsString);
    var permission :- Optional(m, "permission", AsString);
    var patterns :- Defaulted(m, "patterns", (p: Json) => AsList(p, AsString), []);
    var metadata :- Defaulted(m, "metadata", AsObject, []);
    Ok(PermissionRequest(id, sessionId, permission, patterns, metadata))
  }

  /** `label` is required and `description` optional. */
  function DecodeQuestionOption(j: Json): (r: Decoded<QuestionOption>)
    ensures r.Ok? <==> j.Obj? && HasString(j.members, "label") && OptionalStringOk(j.members, "description")
    ensures r.Ok? ==> Lookup(j.members, "label") == Some(Str(r.value.labelText)) &&
                      OptionalStringIs(j.members, "description", r.value.description)
  {
    var m :- AsObject(j);
    var labelText :- Required(m, "label", AsString);
    var description :- Optional(m, "description", AsString);
    Ok(QuestionOption(labelText, description))
  }

  /** Every field is optional; a missing `options` is empty. */
  function DecodeQuestionInfo(j: Json): (r: Decoded<QuestionInfo>)
    ensures r.Ok? <==> j.Obj? && OptionalStringOk(j.members, "question") && OptionalStringOk(j.members, "header") &&
                       (Lookup(j.members, "options").None? ||
                        AsList(Lookup(j.members, "options").value, DecodeQuestionOption).Ok?)
    ensures r.Ok? ==> OptionalStringIs(j.members, "question", r.value.question) &&
                      OptionalStringIs(j.members, "header", r.value.header) &&
                      (Lookup(j.members, "options").None? ==> r.value.options == []) &&
                      (Lookup(j.members, "options").Some? ==>
                         AsList(Lookup(j.members, "options").value, DecodeQuestionOption) == Ok(r.value.options))
  {
    var m :- AsObject(j);
    var question :- Optional(m, "question", AsString);
    var header :- Optional(m, "header", AsString);
    var options :- Defaulted(m, "options", (o: Json) => AsList(o, DecodeQuestionOption), []);
    Ok(QuestionInfo(question, header, options))
  }

  /** `id` and `sessionID` are required; a missing `questions` is empty. */
  function DecodeQuestionRequest(j: Json): (r: Decoded<QuestionRequest>)
    ensures r.Ok? <==> j.Obj? && HasString(j.members, "id") && HasString(j.members, "sessionID") &&
                       (Lookup(j.members, "questions").None? ||
                        AsList(Lookup(j.members, "questions").value, DecodeQuestionInfo).Ok?)
    ensures r.Ok? ==> Lookup(j.members, "id") == Some(Str(r.value.id)) &&
                      Lookup(j.members, "sessionID") == Some(Str(r.value.sessionId)) &&
                      (Lookup(j.members, "questions").None? ==> r.value.questions == []) &&
                      (Lookup(j.members, "questions").Some? ==>
                         AsList(Lookup(j.members, "questions").value, DecodeQuestionInfo) == Ok(r.value.questions))
  {
    var m :- AsObject(j);
    var id :- Required(m, "id", AsString);
    var sessionId :- Required(m, "sessionID", AsString);
    var questions :- Defaulted(m, "questions", (q: Json) => AsList(q, DecodeQuestionInfo), []);
    Ok(QuestionRequest(id, sessionId, questions))
  }

  /** With only `id` and `sessionID` given, a permission request decodes
      with no permission name, no patterns and no metadata. */
  lemma MinimalPermissionRequest(m: seq<Member>, id: string, sessionId: string)
    requires Lookup(m, "id") == Some(Str(id)) && Lookup(m, "sessionID") == Some(Str(sessionId))
    requires Lookup(m, "permission").None? && Lookup(m, "patterns").None? && Lookup(m, "metadata").None?
    ensures DecodePermissionRequest(Obj(m)) == Ok(PermissionRequest(id, sessionId, None, [], []))
  {
  }

  /** Every question of a decoded request is the decoding of the element at
      the same position of `questions`, and a single malformed question
      fails the whole request. */
  lemma QuestionRequestElements(m: seq<Member>, items: seq<Json>)
    requires Lookup(m, "questions") == Some(Arr(items))
    ensures DecodeQuestionRequest(Obj(m)).Ok? ==>
              |DecodeQuestionRequest(Obj(m)).value.questions| == |items| &&
              forall i | 0 <= i < |items| ::
                DecodeQuestionInfo(items[i]) == Ok(DecodeQuestionRequest(Obj(m)).value.questions[i])
    ensures (exists i | 0 <= i < |items| :: DecodeQuestionInfo(items[i]).Fail?) ==>
              DecodeQuestionRequest(Obj(m)) == Fail
  {
    var questions := Defaulted(m, "questions", (q: Json) => AsList(q, DecodeQuestionInfo), []);
    assert questions == DecodeAll(items, DecodeQuestionInfo);
  }
}
