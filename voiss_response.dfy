/** Reading the VOISS dialogue backend's JSON answers: the opening message of
    `initialize` and the reply of `chat`. */
module VoissResponse {
  import opened Wrappers
  import opened Json

  /** `data.unit_results[last].conversation_logs[last].content` */
  const LastLogContentPath: seq<Step> :=
    [Key("data"), Key("unit_results"), Last, Key("conversation_logs"), Last, Key("content")]

  /** `data.message` */
  const DataMessagePath: seq<Step> := [Key("data"), Key("message")]

  /** The opening message of an `initialize` answer, read the way the handler reads it:
      the last log of the last unit when its `content` is a string; when that
      leaves the message unset or empty, `data.message` if that is a string.
      `body` is `None` when the body was not JSON (`res.json()` rejected). */
  function OpeningMessage(body: Option<Json>): (r: Option<string>)
    ensures r.Some? ==> r == AsString(Walk(body, LastLogContentPath))
                        || r == AsString(Walk(body, DataMessagePath))
  {
    var dataRoot := Field(body, "data");
    var lastUnit := LastItem(Field(dataRoot, "unit_results"));
    var lastLog := LastItem(Field(lastUnit, "conversation_logs"));
    var fromLogs := if Truthy(lastLog) then AsString(Field(lastLog, "content")) else None;
    var fromData := AsString(Field(dataRoot, "message"));
    OpeningContentWalk(body);
    if (fromLogs.None? || fromLogs == Some("")) && fromData.Some? then fromData else fromLogs
  }

  /** The nested reads above follow the two paths; the `lastLog &&` guard
      never changes the outcome, since a falsy value has no `content`. */
  lemma {:induction false} OpeningContentWalk(body: Option<Json>)
    ensures var lastLog := LastItem(Field(LastItem(Field(Field(body, "data"), "unit_results")), "conversation_logs"));
            Walk(body, LastLogContentPath) == Field(lastLog, "content")
            && (Truthy(lastLog) || Field(lastLog, "content").None?)
    ensures Walk(body, DataMessagePath) == Field(Field(body, "data"), "message")
  {}

  /** What the handler promises about the opening message, case by case. */
  lemma OpeningMessageCases(body: Option<Json>)
    ensures var fromLogs := AsString(Walk(body, LastLogContentPath));
            var fromData := AsString(Walk(body, DataMessagePath));
            && (fromLogs.Some? && fromLogs.value != "" ==> OpeningMessage(body) == fromLogs)
            && (fromLogs.None? && fromData.None? ==> OpeningMessage(body) == None)
            && (fromLogs == Some("") && fromData.None? ==> OpeningMessage(body) == Some(""))
            && (fromLogs.None? && fromData.Some? ==> OpeningMessage(body) == fromData)
            && (fromLogs == Some("") && fromData.Some? ==> OpeningMessage(body) == fromData)
  {}

  /** `json?.data?.message`, taken as it is: the handler casts it to a string
      without checking its type. */
  function ChatReply(body: Option<Json>): (r: Option<Json>)
    ensures r == Walk(body, DataMessagePath)
  {
    OpeningContentWalk(body);
    Field(Field(body, "data"), "message")
  }

  function Obj1(k: string, v: Json): Json { JObj(map[k := v]) }

  /** `{data: {unit_results: [{conversation_logs: [{content: "hi"}]}]}}` opens with "hi". */
  lemma OpeningFromLastLog()
    ensures OpeningMessage(Some(Obj1("data", Obj1("unit_results",
              JArr([Obj1("conversation_logs", JArr([Obj1("content", JStr("hi"))]))]))))) == Some("hi")
  {}

  /** `{data: {message: "hello"}}` opens with "hello". */
  lemma OpeningFromDataMessage()
    ensures OpeningMessage(Some(Obj1("data", Obj1("message", JStr("hello"))))) == Some("hello")
  {}

  /** A later unit or log wins over an earlier one. */
  lemma OpeningUsesLastUnitAndLog()
    ensures OpeningMessage(Some(Obj1("data", Obj1("unit_results", JArr([
              Obj1("conversation_logs", JArr([Obj1("content", JStr("first"))])),
              Obj1("conversation_logs", JArr([Obj1("content", JStr("a")), Obj1("content", JStr("b"))]))])))))
            == Some("b")
  {}

  /** An empty content and no string `data.message` leave the message `""`, not absent. */
  lemma OpeningEmptyContentKept()
    ensures OpeningMessage(Some(Obj1("data", Obj1("unit_results",
              JArr([Obj1("conversation_logs", JArr([Obj1("content", JStr(""))]))]))))) == Some("")
  {}

  /** A body that is not JSON, or has neither field, gives no opening message. */
  lemma OpeningAbsent()
    ensures OpeningMessage(None) == None
    ensures OpeningMessage(Some(JNull)) == None
    ensures OpeningMessage(Some(Obj1("data", JArr([])))) == None
  {}
}
