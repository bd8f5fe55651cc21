/**
 * app/api/session/updateConversation/route.ts: append one message to the
 * stored conversation of the session whose chat id is `sessionId`.
 */
module UpdateConversation {
  import opened Wrappers
  import opened JsonData
  import opened Http
  import opened Schema

  const MissingData := "Missing required data"
  const SessionNotFound := "Session not found"
  const UpdateFailed := "Failed to update conversation"

  /** `Array.isArray(c) ? c : []`. */
  function PriorMessages(c: Json): (r: seq<Json>)
    ensures c.JArr? ==> r == c.items
    ensures !c.JArr? ==> r == []
  {
    if c.JArr? then c.items else []
  }

  /** `{ success: true }` */
  const Done: Response := Response(OK, JObj([("success", JBool(true))]))

  /**
   * The handler on tables `t`. A database that is down (`fault`) makes the
   * first query throw; a key that cannot be bound to the text column is
   * rejected by the database.
   */
  function Handle(t: Tables, req: Request, fault: Option<string>): Outcome {
    match ReadBody(req)
    case Failure(_) => Outcome(t, ErrorResponse(ServerError, UpdateFailed))
    case Success(body) =>
      if !Present(body, "sessionId") || !Present(body, "newMessage") then
        Outcome(t, ErrorResponse(BadRequest, MissingData))
      else if fault.Some? || BindText(Field(body, "sessionId").value).None? then
        Outcome(t, ErrorResponse(ServerError, UpdateFailed))
      else
        var key := BindText(Field(body, "sessionId").value).value;
        match FindChatId(t.sessions, key)
        case None => Outcome(t, ErrorResponse(NotFound, SessionNotFound))
        case Some(i) =>
          var updated := JArr(PriorMessages(t.sessions[i].conversation) + [Field(body, "newMessage").value]);
          Outcome(t.(sessions := UpdateWhereChatId(t.sessions, key, ConversationColumn, updated)), Done)
  }

  /** A body without a truthy `sessionId` or `newMessage` is refused with 400 and nothing is written. */
  lemma MissingFieldsRejected(t: Tables, body: Json, fault: Option<string>)
    requires body != JNull
    requires !Present(body, "sessionId") || !Present(body, "newMessage")
    ensures Handle(t, Body(body), fault) == Outcome(t, ErrorResponse(BadRequest, MissingData))
  {
  }

  /** No session with that chat id: 404 and the tables are untouched. */
  lemma UnknownSessionNotFound(t: Tables, body: Json, key: string)
    requires body != JNull && Present(body, "sessionId") && Present(body, "newMessage")
    requires BindText(Field(body, "sessionId").value) == Some(key)
    ensures Handle(t, Body(body), None).response.status == NotFound <==> !ChatIdTaken(t.sessions, key)
    ensures !ChatIdTaken(t.sessions, key) ==> Handle(t, Body(body), None).tables == t
  {
  }

  /**
   * On success, the session with that chat id now holds its old messages
   * (none when the stored value was not an array) followed by the new one;
   * every other column and every other row is as before.
   */
  lemma AppendsMessage(t: Tables, body: Json, key: string, i: nat)
    requires body != JNull && Present(body, "sessionId") && Present(body, "newMessage")
    requires BindText(Field(body, "sessionId").value) == Some(key)
    requires UniqueChatIds(t.sessions)
    requires i < |t.sessions| && t.sessions[i].chatId == key
    ensures var out := Handle(t, Body(body), None);
      && out.response == Done
      && out.tables == t.(sessions := out.tables.sessions)
      && |out.tables.sessions| == |t.sessions|
      && out.tables.sessions[i] == t.sessions[i].(conversation := out.tables.sessions[i].conversation)
      && out.tables.sessions[i].conversation
         == JArr(PriorMessages(t.sessions[i].conversation) + [Field(body, "newMessage").value])
      && (!t.sessions[i].conversation.JArr? ==>
            out.tables.sessions[i].conversation == JArr([Field(body, "newMessage").value]))
      && forall j :: 0 <= j < |t.sessions| && j != i ==> out.tables.sessions[j] == t.sessions[j]
  {
    var k := FindChatId(t.sessions, key);
    assert k == Some(i) by {
      if k.value != i {
        assert t.sessions[k.value].chatId == t.sessions[i].chatId;
      }
    }
  }

  /** The handler keeps every schema constraint. */
  lemma HandleKeepsConsistency(t: Tables, req: Request, fault: Option<string>)
    requires Consistent(t)
    ensures Consistent(Handle(t, req, fault).tables)
  {
    if req.Body? && req.json != JNull && Present(req.json, "sessionId") && Present(req.json, "newMessage")
       && fault.None? && BindText(Field(req.json, "sessionId").value).Some? {
      var key := BindText(Field(req.json, "sessionId").value).value;
      if FindChatId(t.sessions, key).Some? {
        var i := FindChatId(t.sessions, key).value;
        var updated := JArr(PriorMessages(t.sessions[i].conversation) + [Field(req.json, "newMessage").value]);
        UpdateKeepsKeys(t.sessions, key, ConversationColumn, updated);
      }
    }
  }

  /** POST: the handler run against the database object. */
  method Post(db: Database, req: Request, fault: Option<string>) returns (resp: Response)
    requires db.Valid()
    modifies db
    ensures db.Valid()
    ensures Outcome(db.Snapshot(), resp) == Handle(old(db.Snapshot()), req, fault)
  {
    var read := ReadBody(req);
    if read.Failure? {
      return ErrorResponse(ServerError, UpdateFailed);
    }
    var body := read.value;
    if !Present(body, "sessionId") || !Present(body, "newMessage") {
      return ErrorResponse(BadRequest, MissingData);
    }
    var sessionId := Field(body, "sessionId").value;
    var newMessage := Field(body, "newMessage").value;
    var bound := BindText(sessionId);
    if fault.Some? || bound.None? {
      return ErrorResponse(ServerError, UpdateFailed);
    }
    var key := bound.value;
    var found := FindChatId(db.sessions, key);
    if found.None? {
      return ErrorResponse(NotFound, SessionNotFound);
    }
    var session := db.sessions[found.value];
    var updated := JArr(PriorMessages(session.conversation) + [newMessage]);
    UpdateKeepsKeys(db.sessions, key, ConversationColumn, updated);
    db.SetSessions(UpdateWhereChatId(db.sessions, key, ConversationColumn, updated));
    resp := Done;
  }
}
