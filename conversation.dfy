/**
 * app/api/conversation/route.ts: store one chat message (chat id, sender,
 * text) in the `conversations` table, from which the final report is built.
 */
module Conversation {
  import opened Wrappers
  import opened JsonData
  import opened Http
  import opened Schema
  import FinalReport

  const MissingFields := "Missing required fields"
  const InternalError := "Internal Server Error"

  /** `{ success: true }` */
  const Stored: Response := Response(OK, JObj([("success", JBool(true))]))

  /** `{ error: error.message || "Internal Server Error" }` with status 500. */
  function Failed(message: string): (r: Response)
    ensures r.status == ServerError
    ensures message != "" ==> r == ErrorResponse(ServerError, message)
    ensures message == "" ==> r == ErrorResponse(ServerError, InternalError)
  {
    ErrorResponse(ServerError, MessageOr(message, InternalError))
  }

  /**
   * The handler on tables `t`, at time `now`. A database that is down
   * (`fault`) makes the insert throw with that message; a value a column
   * refuses makes it throw with a constraint violation.
   */
  function Handle(t: Tables, req: Request, fault: Option<string>, now: Timestamp): Outcome {
    match ReadBody(req)
    case Failure(m) => Outcome(t, Failed(m))
    case Success(body) =>
      if !Present(body, "chatId") || !Present(body, "sender") || !Present(body, "message") then
        Outcome(t, ErrorResponse(BadRequest, MissingFields))
      else if fault.Some? then Outcome(t, Failed(fault.value))
      else
        var chatId := BindVarchar(Field(body, "chatId").value, ChatIdLength);
        var sender := BindVarchar(Field(body, "sender").value, SenderLength);
        var message := BindText(Field(body, "message").value);
        if chatId.None? || sender.None? || message.None? then Outcome(t, Failed(ConstraintViolation))
        else
          var row := ConversationRow(t.nextConversationId, chatId.value, sender.value, message.value, now);
          Outcome(t.(conversations := t.conversations + [row], nextConversationId := t.nextConversationId + 1),
                  Stored)
  }

  /** Any of chatId, sender, message missing or falsy: 400 and nothing is stored. */
  lemma MissingFieldsRejected(t: Tables, body: Json, fault: Option<string>, now: Timestamp)
    requires body != JNull
    requires !Present(body, "chatId") || !Present(body, "sender") || !Present(body, "message")
    ensures Handle(t, Body(body), fault, now) == Outcome(t, ErrorResponse(BadRequest, MissingFields))
  {
  }

  /**
   * With the three fields accepted by their columns, one row is appended
   * holding them as given (the sender is not checked against "user"/"ai").
   */
  lemma AppendsOneRow(t: Tables, body: Json, now: Timestamp, chatId: string, sender: string, message: string)
    requires body != JNull && Present(body, "chatId") && Present(body, "sender") && Present(body, "message")
    requires BindText(Field(body, "chatId").value) == Some(chatId) && |chatId| <= 255
    requires BindText(Field(body, "sender").value) == Some(sender) && |sender| <= 50
    requires BindText(Field(body, "message").value) == Some(message)
    ensures Handle(t, Body(body), None, now)
            == Outcome(t.(conversations := t.conversations + [ConversationRow(t.nextConversationId, chatId, sender, message, now)],
                          nextConversationId := t.nextConversationId + 1),
                       Stored)
  {
  }

  /**
   * `conversations.chat_id` is not unique: the same message posted twice is
   * stored twice, and both rows belong to that chat.
   */
  lemma RepeatedChatIdAccepted(t: Tables, body: Json, now: Timestamp, later: Timestamp)
    requires body != JNull
    requires Handle(t, Body(body), None, now).response == Stored
    ensures var first := Handle(t, Body(body), None, now);
      var second := Handle(first.tables, Body(body), None, later);
      && second.response == Stored
      && |second.tables.conversations| == |t.conversations| + 2
      && second.tables.conversations[|t.conversations|].chatId
         == second.tables.conversations[|t.conversations| + 1].chatId
  {
  }

  /**
   * A stored message becomes the last message of its chat as the final
   * report reads them; other chats are unaffected.
   */
  lemma StoredMessageReachesReport(t: Tables, body: Json, now: Timestamp, chatId: string)
    requires body != JNull
    requires Handle(t, Body(body), None, now).response == Stored
    ensures var out := Handle(t, Body(body), None, now);
      var row := out.tables.conversations[|t.conversations|];
      && FinalReport.MessagesOf(out.tables.conversations, row.chatId)
         == FinalReport.MessagesOf(t.conversations, row.chatId) + [row]
      && (chatId != row.chatId ==>
            FinalReport.MessagesOf(out.tables.conversations, chatId) == FinalReport.MessagesOf(t.conversations, chatId))
  {
    var out := Handle(t, Body(body), None, now);
    var rows := out.tables.conversations;
    assert rows[..|rows| - 1] == t.conversations;
  }

  /** Every error answer leaves the tables as they were. */
  lemma WritesIffStored(t: Tables, req: Request, fault: Option<string>, now: Timestamp)
    ensures var out := Handle(t, req, fault, now);
      && (out.response == Stored <==> out.tables != t)
      && (out.response != Stored ==> out.response.status in {BadRequest, ServerError})
      && (out.response == Stored ==> |out.tables.conversations| == |t.conversations| + 1)
  {
    var out := Handle(t, req, fault, now);
    if out.response == Stored {
      assert |out.tables.conversations| == |t.conversations| + 1;
    }
  }

  lemma HandleKeepsConsistency(t: Tables, req: Request, fault: Option<string>, now: Timestamp)
    requires Consistent(t)
    ensures Consistent(Handle(t, req, fault, now).tables)
  {
    var out := Handle(t, req, fault, now);
    if out.tables != t {
      var row := out.tables.conversations[|t.conversations|];
      assert out.tables.conversations == t.conversations + [row];
      assert ConversationIds(t.conversations + [row]) == ConversationIds(t.conversations) + [row.id];
      IdsBelowAppend(ConversationIds(t.conversations), t.nextConversationId);
    }
  }

  /** POST against the database object. */
  method Post(db: Database, req: Request, fault: Option<string>, now: Timestamp) returns (resp: Response)
    requires db.Valid()
    modifies db
    ensures db.Valid()
    ensures Outcome(db.Snapshot(), resp) == Handle(old(db.Snapshot()), req, fault, now)
  {
    var read := ReadBody(req);
    if read.Failure? {
      return Failed(read.error);
    }
    var body := read.value;
    if !Present(body, "chatId") || !Present(body, "sender") || !Present(body, "message") {
      return ErrorResponse(BadRequest, MissingFields);
    }
    if fault.Some? {
      return Failed(fault.value);
    }
    var chatId := BindVarchar(Field(body, "chatId").value, ChatIdLength);
    var sender := BindVarchar(Field(body, "sender").value, SenderLength);
    var message := BindText(Field(body, "message").value);
    if chatId.None? || sender.None? || message.None? {
      return Failed(ConstraintViolation);
    }
    var _ := db.InsertConversation(chatId.value, sender.value, message.value, now);
    resp := Stored;
  }
}
