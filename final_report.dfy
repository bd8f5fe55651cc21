/**
 * app/api/final-report/route.ts: build a transcript from the stored chat
 * messages of a session, ask a language model for a JSON summary, and
 * store the parsed summary as the session's final report.
 *
 * The model's reply and JSON.parse are parameters: `completion` is what
 * the model call produced (a reply whose message content may be missing,
 * or the message of the error it threw), `parse` is JSON.parse as a
 * partial function.
 */
module FinalReport {
  import opened Wrappers
  import opened JsonData
  import opened Text
  import opened Http
  import opened Schema

  const ChatIdRequired := "chatId is required"
  const NoConversation := "No conversation found"
  const InternalError := "Internal Server Error"
  const EmptyReport := "{}"

  /**
   * The stored messages of a chat, in table order: every row of that chat
   * as often as it is stored, and no other row.
   */
  function MessagesOf(rows: seq<ConversationRow>, chatId: string): (r: seq<ConversationRow>)
    ensures |r| <= |rows|
    ensures forall i :: 0 <= i < |r| ==> r[i].chatId == chatId && r[i] in rows
    ensures forall i :: 0 <= i < |rows| && rows[i].chatId == chatId ==> rows[i] in r
  {
    if rows == [] then []
    else
      var init := MessagesOf(rows[..|rows| - 1], chatId);
      var last := rows[|rows| - 1];
      assert forall i :: 0 <= i < |rows| - 1 ==> rows[..|rows| - 1][i] == rows[i];
      if last.chatId == chatId then init + [last] else init
  }

  /**
   * The selection keeps table order: the messages of a table split in two
   * are those of the first part followed by those of the second.
   */
  lemma {:induction false} MessagesOfAppend(a: seq<ConversationRow>, b: seq<ConversationRow>, chatId: string)
    ensures MessagesOf(a + b, chatId) == MessagesOf(a, chatId) + MessagesOf(b, chatId)
  {
    if b != [] {
      var b' := b[..|b| - 1];
      assert (a + b)[..|a + b| - 1] == a + b';
      assert (a + b)[|a + b| - 1] == b[|b| - 1];
      MessagesOfAppend(a, b', chatId);
    } else {
      assert a + b == a;
    }
  }

  /** Every row of the chat is selected as often as it is stored, and no other row. */
  lemma {:induction false} MessagesOfCount(rows: seq<ConversationRow>, chatId: string)
    ensures forall x :: multiset(MessagesOf(rows, chatId))[x]
                        == if x.chatId == chatId then multiset(rows)[x] else 0
  {
    if rows != [] {
      var init := rows[..|rows| - 1];
      MessagesOfCount(init, chatId);
      assert rows == init + [rows[|rows| - 1]];
    }
  }

  /** A single row is kept exactly when it belongs to the chat. */
  lemma MessagesOfSingle(row: ConversationRow, chatId: string)
    ensures MessagesOf([row], chatId) == if row.chatId == chatId then [row] else []
  {
    assert [row][..0] == [];
  }

  /** One transcript line: `SENDER: message`. */
  function Line(row: ConversationRow): string {
    Upper(row.sender) + ": " + row.message
  }

  function Lines(rows: seq<ConversationRow>): (r: seq<string>)
    ensures |r| == |rows|
    ensures forall i :: 0 <= i < |rows| ==> r[i] == Line(rows[i])
  {
    seq(|rows|, i requires 0 <= i < |rows| => Line(rows[i]))
  }

  /** The conversation text sent to the model. */
  function Transcript(rows: seq<ConversationRow>): string {
    Join(Lines(rows), "\n")
  }

  /** `completion.choices[0]?.message?.content || "{}"` */
  function RawOutput(content: Option<string>): (r: string)
    ensures r != ""
    ensures content.Some? && content.value != "" ==> r == content.value
  {
    if content.Some? && content.value != "" then content.value else EmptyReport
  }

  /** The report: the parsed output, or `{ summary: raw }` when it does not parse. */
  function Report(raw: string, parse: string -> Option<Json>): (r: Json) {
    match parse(raw)
    case Some(j) => j
    case None => JObj([("summary", JStr(raw))])
  }

  /** What the handler did: the outcome and the transcript it sent to the model, if any. */
  datatype Run = Run(outcome: Outcome, transcript: Option<string>)

  /**
   * The handler on tables `t`. A down database (`fault`) makes the first
   * query throw; an error thrown anywhere answers 500 with its message.
   */
  function Handle(t: Tables, req: Request, fault: Option<string>,
                  completion: Result<Option<string>, string>, parse: string -> Option<Json>): Run
  {
    match ReadBody(req)
    case Failure(m) => Run(Outcome(t, ErrorResponse(ServerError, MessageOr(m, InternalError))), None)
    case Success(body) =>
      if !Present(body, "chatId") then
        Run(Outcome(t, ErrorResponse(BadRequest, ChatIdRequired)), None)
      else if fault.Some? then
        Run(Outcome(t, ErrorResponse(ServerError, MessageOr(fault.value, InternalError))), None)
      else if BindText(Field(body, "chatId").value).None? then
        Run(Outcome(t, ErrorResponse(ServerError, ConstraintViolation)), None)
      else
        var chatId := BindText(Field(body, "chatId").value).value;
        var messages := MessagesOf(t.conversations, chatId);
        if |messages| == 0 then
          Run(Outcome(t, ErrorResponse(NotFound, NoConversation)), None)
        else
          var text := Transcript(messages);
          match completion
          case Failure(m) => Run(Outcome(t, ErrorResponse(ServerError, MessageOr(m, InternalError))), Some(text))
          case Success(content) =>
            var report := Report(RawOutput(content), parse);
            Run(Outcome(t.(sessions := UpdateWhereChatId(t.sessions, chatId, FinalReportColumn, report)),
                        Response(OK, JObj([("success", JBool(true)), ("report", report)]))),
                Some(text))
  }

  /** A body without a truthy `chatId` is refused with 400 before any query. */
  lemma MissingChatIdRejected(t: Tables, body: Json, fault: Option<string>,
                              completion: Result<Option<string>, string>, parse: string -> Option<Json>)
    requires body != JNull && !Present(body, "chatId")
    ensures Handle(t, Body(body), fault, completion, parse)
            == Run(Outcome(t, ErrorResponse(BadRequest, ChatIdRequired)), None)
  {
  }

  /** A chat with no stored message answers 404; the model is not asked and nothing is written. */
  lemma NoMessagesNotFound(t: Tables, body: Json, chatId: string,
                           completion: Result<Option<string>, string>, parse: string -> Option<Json>)
    requires body != JNull && Present(body, "chatId")
    requires BindText(Field(body, "chatId").value) == Some(chatId)
    requires forall i :: 0 <= i < |t.conversations| ==> t.conversations[i].chatId != chatId
    ensures Handle(t, Body(body), None, completion, parse)
            == Run(Outcome(t, ErrorResponse(NotFound, NoConversation)), None)
  {
    if MessagesOf(t.conversations, chatId) != [] {
      assert MessagesOf(t.conversations, chatId)[0] in t.conversations;
    }
  }

  /** A line built from a sender and a message without newlines holds no newline. */
  lemma LineWithoutNewline(row: ConversationRow)
    requires '\n' !in row.sender && '\n' !in row.message
    ensures Count(Line(row), '\n') == 0
  {
    var line := Line(row);
    forall i | 0 <= i < |line|
      ensures line[i] != '\n'
    {
      if i < |row.sender| {
        assert line[i] == UpperChar(row.sender[i]);
      } else if i >= |row.sender| + 2 {
        assert line[i] == row.message[i - |row.sender| - 2];
      }
    }
    CountAbsent(line, '\n');
  }

  /**
   * With stored messages, the text sent to the model is the transcript of
   * that chat's messages; when no sender or message holds a newline, it
   * has one line per message.
   */
  lemma TranscriptOfMessages(t: Tables, body: Json, chatId: string, fault: Option<string>,
                             completion: Result<Option<string>, string>, parse: string -> Option<Json>)
    requires body != JNull && Present(body, "chatId") && fault.None?
    requires BindText(Field(body, "chatId").value) == Some(chatId)
    requires exists i :: 0 <= i < |t.conversations| && t.conversations[i].chatId == chatId
    ensures var run := Handle(t, Body(body), fault, completion, parse);
      var messages := MessagesOf(t.conversations, chatId);
      && run.transcript == Some(Transcript(messages))
      && ((forall i :: 0 <= i < |messages| ==> '\n' !in messages[i].sender && '\n' !in messages[i].message)
          ==> Count(run.transcript.value, '\n') == |messages| - 1)
  {
    var i :| 0 <= i < |t.conversations| && t.conversations[i].chatId == chatId;
    var messages := MessagesOf(t.conversations, chatId);
    assert t.conversations[i] in messages;
    if forall k :: 0 <= k < |messages| ==> '\n' !in messages[k].sender && '\n' !in messages[k].message {
      forall k | 0 <= k < |messages|
        ensures Count(Line(messages[k]), '\n') == 0
      {
        LineWithoutNewline(messages[k]);
      }
      TranscriptLineCount(messages);
    }
  }

  /** Lines without a newline in them are separated by exactly one newline each. */
  lemma TranscriptLineCount(rows: seq<ConversationRow>)
    requires |rows| >= 1
    requires forall i :: 0 <= i < |rows| ==> Count(Line(rows[i]), '\n') == 0
    ensures Count(Transcript(rows), '\n') == |rows| - 1
  {
    JoinSeparators(Lines(rows), '\n');
  }

  /**
   * The report stored and returned: the parse of the model's text, where a
   * missing or empty text counts as "{}", and `{ summary: text }` when the
   * text does not parse. Exactly the sessions with this chat id get it in
   * `finalReport`; nothing else changes.
   */
  lemma StoresParsedReport(t: Tables, body: Json, chatId: string,
                           content: Option<string>, parse: string -> Option<Json>)
    requires body != JNull && Present(body, "chatId")
    requires BindText(Field(body, "chatId").value) == Some(chatId)
    requires MessagesOf(t.conversations, chatId) != []
    ensures var out := Handle(t, Body(body), None, Success(content), parse).outcome;
      var raw := if content.Some? && content.value != "" then content.value else "{}";
      var report := if parse(raw).Some? then parse(raw).value else JObj([("summary", JStr(raw))]);
      && out.response == Response(OK, JObj([("success", JBool(true)), ("report", report)]))
      && out.tables == t.(sessions := out.tables.sessions)
      && |out.tables.sessions| == |t.sessions|
      && forall i :: 0 <= i < |t.sessions| ==>
           out.tables.sessions[i] == if t.sessions[i].chatId == chatId
                                     then t.sessions[i].(finalReport := report) else t.sessions[i]
  {
  }

  /**
   * A failing model call writes nothing; once the transcript was sent, the
   * answer is 500 with the call's message.
   */
  lemma UpstreamFailureWritesNothing(t: Tables, req: Request, fault: Option<string>, m: string,
                                     parse: string -> Option<Json>)
    ensures var run := Handle(t, req, fault, Failure(m), parse);
      && run.outcome.tables == t
      && run.outcome.response.status != OK
      && (run.transcript.Some? ==> run.outcome.response == ErrorResponse(ServerError, MessageOr(m, InternalError)))
  {
  }

  lemma HandleKeepsConsistency(t: Tables, req: Request, fault: Option<string>,
                               completion: Result<Option<string>, string>, parse: string -> Option<Json>)
    requires Consistent(t)
    ensures Consistent(Handle(t, req, fault, completion, parse).outcome.tables)
  {
    if req.Body? && req.json != JNull && Present(req.json, "chatId") && fault.None?
       && BindText(Field(req.json, "chatId").value).Some? && completion.Success? {
      var chatId := BindText(Field(req.json, "chatId").value).value;
      var report := Report(RawOutput(completion.value), parse);
      UpdateKeepsKeys(t.sessions, chatId, FinalReportColumn, report);
    }
  }

  /** POST, against the database object; returns the transcript it sent to the model. */
  method Post(db: Database, req: Request, fault: Option<string>,
              completion: Result<Option<string>, string>, parse: string -> Option<Json>)
    returns (resp: Response, ghost transcript: Option<string>)
    requires db.Valid()
    modifies db
    ensures db.Valid()
    ensures Run(Outcome(db.Snapshot(), resp), transcript)
            == Handle(old(db.Snapshot()), req, fault, completion, parse)
  {
    transcript := None;
    var read := ReadBody(req);
    if read.Failure? {
      return ErrorResponse(ServerError, MessageOr(read.error, InternalError)), None;
    }
    var body := read.value;
    if !Present(body, "chatId") {
      return ErrorResponse(BadRequest, ChatIdRequired), None;
    }
    if fault.Some? {
      return ErrorResponse(ServerError, MessageOr(fault.value, InternalError)), None;
    }
    var bound := BindText(Field(body, "chatId").value);
    if bound.None? {
      return ErrorResponse(ServerError, ConstraintViolation), None;
    }
    var chatId := bound.value;
    var messages := MessagesOf(db.conversations, chatId);
    if |messages| == 0 {
      return ErrorResponse(NotFound, NoConversation), None;
    }
    var conversationText := Transcript(messages);
    transcript := Some(conversationText);
    if completion.Failure? {
      return ErrorResponse(ServerError, MessageOr(completion.error, InternalError)), transcript;
    }
    var rawOutput := RawOutput(completion.value);
    var report := Report(rawOutput, parse);
    UpdateKeepsKeys(db.sessions, chatId, FinalReportColumn, report);
    db.SetSessions(UpdateWhereChatId(db.sessions, chatId, FinalReportColumn, report));
    resp := Response(OK, JObj([("success", JBool(true)), ("report", report)]));
  }
}
