/**
 * app/api/sessions/route.ts: POST opens a consultation session for the
 * signed-in user; GET lists that user's sessions, newest first.
 *
 * The signed-in user's id, the generated chat id, the clock (as a
 * timestamp and as its ISO text) and the ISO rendering of stored
 * timestamps are parameters.
 */
module Sessions {
  import opened Wrappers
  import opened JsonData
  import opened Http
  import opened Schema

  const NotAuthenticated := "User not authenticated"
  const MissingFields := "Missing required fields: notes and suggestedDoctors"
  const SaveFailed := "Failed to save session"
  const FetchFailed := "Failed to fetch sessions"
  const Created := "Session created successfully"
  const SessionStarted := "Medical consultation session started"

  /** Every session is filed under database user 1, whoever is signed in. */
  const DbUserId := 1

  /** One entry of the stored conversation. */
  function Entry(role: string, message: Json, isoNow: string): Json {
    JObj([("role", JStr(role)), ("message", message), ("timestamp", JStr(isoNow))])
  }

  /** The conversation a new session starts with: the system line, then the notes as the user's line. */
  function InitialConversation(notes: Json, isoNow: string): Json {
    JArr([Entry("system", JStr(SessionStarted), isoNow), Entry("user", notes, isoNow)])
  }

  /** `{ error: "Failed to save session", details: message }` with status 500. */
  function SaveError(message: string): (r: Response)
    ensures r.status == ServerError
    ensures Field(r.body, "error") == Some(JStr(SaveFailed))
    ensures Field(r.body, "details") == Some(JStr(message))
  {
    var members := [("error", JStr(SaveFailed)), ("details", JStr(message))];
    LookupUnique(members, 0);
    Response(ServerError, JObj(members))
  }

  function CreatedResponse(row: Session): Response {
    Response(OK, JObj([("success", JBool(true)), ("sessionId", JNat(row.id)),
                       ("chatId", JStr(row.chatId)), ("message", JStr(Created))]))
  }

  /** The row the insert adds, when it is accepted. */
  function NewSession(t: Tables, body: Json, chatId: string, now: Timestamp, isoNow: string): Session
    requires Field(body, "notes").Some?
    requires BindText(Field(body, "notes").value).Some?
  {
    Session(t.nextSessionId, chatId, DbUserId, now, BindText(Field(body, "notes").value).value,
            OrElse(Field(body, "selectedAgentId"), JNull),
            InitialConversation(Field(body, "notes").value, isoNow), JNull, DefaultSessionStatus, now)
  }

  /** Why the insert is refused, if it is: a value the columns do not accept, or a broken key. */
  function InsertRefusal(t: Tables, body: Json, chatId: string): (r: Option<string>)
    requires Field(body, "notes").Some?
    ensures r.None? <==> && BindText(Field(body, "notes").value).Some?
                         && |chatId| <= ChatIdLength && !ChatIdTaken(t.sessions, chatId)
                         && UserExists(t.users, DbUserId)
  {
    if BindText(Field(body, "notes").value).None? || |chatId| > ChatIdLength
       || ChatIdTaken(t.sessions, chatId) || !UserExists(t.users, DbUserId)
    then Some(ConstraintViolation)
    else None
  }

  /** POST on tables `t`. */
  function HandlePost(t: Tables, userId: Option<string>, req: Request, fault: Option<string>,
                      chatId: string, now: Timestamp, isoNow: string): Outcome
  {
    if !SignedIn(userId) then Outcome(t, ErrorResponse(Unauthorized, NotAuthenticated))
    else match ReadBody(req)
    case Failure(m) => Outcome(t, SaveError(m))
    case Success(body) =>
      if !Present(body, "notes") || !Present(body, "suggestedDoctors") then
        Outcome(t, ErrorResponse(BadRequest, MissingFields))
      else if fault.Some? then Outcome(t, SaveError(fault.value))
      else match InsertRefusal(t, body, chatId)
      case Some(m) => Outcome(t, SaveError(m))
      case None =>
        var row := NewSession(t, body, chatId, now, isoNow);
        Outcome(t.(sessions := t.sessions + [row], nextSessionId := t.nextSessionId + 1), CreatedResponse(row))
  }

  /** Only a signed-in user can open a session: 401 otherwise, nothing written. */
  lemma PostNeedsSignIn(t: Tables, userId: Option<string>, req: Request, fault: Option<string>,
                        chatId: string, now: Timestamp, isoNow: string)
    requires !SignedIn(userId)
    ensures HandlePost(t, userId, req, fault, chatId, now, isoNow)
            == Outcome(t, ErrorResponse(Unauthorized, NotAuthenticated))
  {
  }

  /** Missing `notes` or `suggestedDoctors`: 400, nothing written. */
  lemma PostNeedsNotesAndDoctors(t: Tables, userId: Option<string>, body: Json, fault: Option<string>,
                                 chatId: string, now: Timestamp, isoNow: string)
    requires SignedIn(userId) && body != JNull
    requires !Present(body, "notes") || !Present(body, "suggestedDoctors")
    ensures HandlePost(t, userId, Body(body), fault, chatId, now, isoNow)
            == Outcome(t, ErrorResponse(BadRequest, MissingFields))
  {
  }

  /**
   * A successful POST appends exactly one session, filed under user 1,
   * with status "active", `agentId` = `selectedAgentId || null`, no final
   * report, and a conversation of the start line followed by the notes; the
   * answer carries the new row's id as `sessionId`.
   */
  lemma PostCreatesOneSession(t: Tables, userId: Option<string>, body: Json,
                              chatId: string, now: Timestamp, isoNow: string)
    requires SignedIn(userId) && body != JNull
    requires Present(body, "notes") && Present(body, "suggestedDoctors")
    requires InsertRefusal(t, body, chatId).None?
    ensures var out := HandlePost(t, userId, Body(body), None, chatId, now, isoNow);
      && |out.tables.sessions| == |t.sessions| + 1
      && out.tables == t.(sessions := t.sessions + [out.tables.sessions[|t.sessions|]],
                          nextSessionId := t.nextSessionId + 1)
      && var row := out.tables.sessions[|t.sessions|];
         && row.id == t.nextSessionId && row.chatId == chatId
         && row.createdBy == 1 && row.status == "active"
         && row.agentId == (if Truthy(OrElse(Field(body, "selectedAgentId"), JNull))
                            then Field(body, "selectedAgentId").value else JNull)
         && row.finalReport == JNull
         && row.conversation == JArr([Entry("system", JStr("Medical consultation session started"), isoNow),
                                      Entry("user", Field(body, "notes").value, isoNow)])
         && row.notes == BindText(Field(body, "notes").value).value
         && out.response.status == OK
         && Field(out.response.body, "sessionId") == Some(JNat(row.id))
  {
    var row := NewSession(t, body, chatId, now, isoNow);
    var members := [("success", JBool(true)), ("sessionId", JNat(row.id)),
                    ("chatId", JStr(row.chatId)), ("message", JStr(Created))];
    LookupUnique(members, 1);
  }

  /** A POST that is answered 200 has written one row; any other answer has written none. */
  lemma PostWritesIffOk(t: Tables, userId: Option<string>, req: Request, fault: Option<string>,
                        chatId: string, now: Timestamp, isoNow: string)
    ensures var out := HandlePost(t, userId, req, fault, chatId, now, isoNow);
      && (out.response.status == OK ==> |out.tables.sessions| == |t.sessions| + 1)
      && (out.response.status != OK ==> out.tables == t)
  {
  }

  lemma PostKeepsConsistency(t: Tables, userId: Option<string>, req: Request, fault: Option<string>,
                             chatId: string, now: Timestamp, isoNow: string)
    requires Consistent(t)
    ensures Consistent(HandlePost(t, userId, req, fault, chatId, now, isoNow).tables)
  {
    var out := HandlePost(t, userId, req, fault, chatId, now, isoNow);
    if out.tables != t {
      var body := req.json;
      var row := NewSession(t, body, chatId, now, isoNow);
      assert out.tables.sessions == t.sessions + [row];
      assert SessionIds(t.sessions + [row]) == SessionIds(t.sessions) + [row.id];
      IdsBelowAppend(SessionIds(t.sessions), t.nextSessionId);
    }
  }

  /** POST against the database object. */
  method Post(db: Database, userId: Option<string>, req: Request, fault: Option<string>,
              chatId: string, now: Timestamp, isoNow: string) returns (resp: Response)
    requires db.Valid()
    modifies db
    ensures db.Valid()
    ensures Outcome(db.Snapshot(), resp) == HandlePost(old(db.Snapshot()), userId, req, fault, chatId, now, isoNow)
  {
    if !SignedIn(userId) {
      return ErrorResponse(Unauthorized, NotAuthenticated);
    }
    var read := ReadBody(req);
    if read.Failure? {
      return SaveError(read.error);
    }
    var body := read.value;
    if !Present(body, "notes") || !Present(body, "suggestedDoctors") {
      return ErrorResponse(BadRequest, MissingFields);
    }
    if fault.Some? {
      return SaveError(fault.value);
    }
    var refusal := InsertRefusal(db.Snapshot(), body, chatId);
    if refusal.Some? {
      return SaveError(refusal.value);
    }
    var notes := Field(body, "notes").value;
    var agentId := OrElse(Field(body, "selectedAgentId"), JNull);
    var row := db.InsertSession(chatId, DbUserId, BindText(notes).value, agentId,
                                InitialConversation(notes, isoNow), DefaultSessionStatus, now);
    resp := CreatedResponse(row);
  }

  /** The sessions filed under a user, in table order. */
  function CreatedBy(sessions: seq<Session>, user: int): (r: seq<Session>)
    ensures forall i :: 0 <= i < |r| ==> r[i].createdBy == user
  {
    if sessions == [] then []
    else
      var init := CreatedBy(sessions[..|sessions| - 1], user);
      var last := sessions[|sessions| - 1];
      if last.createdBy == user then init + [last] else init
  }

  /** The rows of `sessions` filed under `user`, counted with multiplicity. */
  lemma {:induction false} CreatedByMultiset(sessions: seq<Session>, user: int)
    ensures forall s :: multiset(CreatedBy(sessions, user))[s] ==
                        (if s.createdBy == user then multiset(sessions)[s] else 0)
  {
    if sessions != [] {
      var init := sessions[..|sessions| - 1];
      CreatedByMultiset(init, user);
      assert sessions == init + [sessions[|sessions| - 1]];
    }
  }

  /** Sorted by `createdOn`, latest first. */
  predicate NewestFirstOrdered(s: seq<Session>) {
    forall i, j :: 0 <= i < j < |s| ==> s[i].createdOn >= s[j].createdOn
  }

  /** Place a row before the first one that is not newer. */
  function InsertByCreatedOn(x: Session, s: seq<Session>): seq<Session> {
    if s == [] || x.createdOn >= s[0].createdOn then [x] + s
    else [s[0]] + InsertByCreatedOn(x, s[1..])
  }

  /** ORDER BY created_on DESC; rows with the same `createdOn` keep table order. */
  function NewestFirst(s: seq<Session>): seq<Session> {
    if s == [] then [] else InsertByCreatedOn(s[0], NewestFirst(s[1..]))
  }

  /** Inserting keeps the rows, adding x once. */
  lemma {:induction false} InsertMultiset(x: Session, s: seq<Session>)
    ensures multiset(InsertByCreatedOn(x, s)) == multiset(s) + multiset{x}
  {
    if s != [] && x.createdOn < s[0].createdOn {
      InsertMultiset(x, s[1..]);
      assert s == [s[0]] + s[1..];
    }
  }

  /** No row of the result is newer than a bound that no input row exceeds. */
  lemma {:induction false} InsertBounded(x: Session, s: seq<Session>, bound: Timestamp)
    requires x.createdOn <= bound
    requires forall i :: 0 <= i < |s| ==> s[i].createdOn <= bound
    ensures forall i :: 0 <= i < |InsertByCreatedOn(x, s)| ==> InsertByCreatedOn(x, s)[i].createdOn <= bound
  {
    if s != [] && x.createdOn < s[0].createdOn {
      InsertBounded(x, s[1..], bound);
    }
  }

  lemma {:induction false} InsertKeepsOrder(x: Session, s: seq<Session>)
    requires NewestFirstOrdered(s)
    ensures NewestFirstOrdered(InsertByCreatedOn(x, s))
  {
    if s != [] && x.createdOn < s[0].createdOn {
      InsertKeepsOrder(x, s[1..]);
      InsertBounded(x, s[1..], s[0].createdOn);
    }
  }

  /** The sort returns the same rows, latest first. */
  lemma {:induction false} NewestFirstSorts(s: seq<Session>)
    ensures NewestFirstOrdered(NewestFirst(s))
    ensures multiset(NewestFirst(s)) == multiset(s)
  {
    if s != [] {
      NewestFirstSorts(s[1..]);
      InsertKeepsOrder(s[0], NewestFirst(s[1..]));
      InsertMultiset(s[0], NewestFirst(s[1..]));
      assert s == [s[0]] + s[1..];
    }
  }

  /** A stored session as the response shows it; timestamps through `iso`. */
  function EncodeSession(s: Session, iso: Timestamp -> string): Json {
    JObj([("id", JNat(s.id)), ("chatId", JStr(s.chatId)), ("createdBy", JInt(s.createdBy)),
          ("createdOn", JStr(iso(s.createdOn))), ("notes", JStr(s.notes)), ("agentId", s.agentId),
          ("conversation", s.conversation), ("finalReport", s.finalReport),
          ("status", JStr(s.status)), ("updatedAt", JStr(iso(s.updatedAt)))])
  }

  /** The listed sessions: user 1's, latest first. */
  function Listing(t: Tables): seq<Session> {
    NewestFirst(CreatedBy(t.sessions, DbUserId))
  }

  /** GET on tables `t`; it writes nothing. */
  function HandleGet(t: Tables, userId: Option<string>, fault: Option<string>, iso: Timestamp -> string): Response {
    if !SignedIn(userId) then ErrorResponse(Unauthorized, NotAuthenticated)
    else if fault.Some? then ErrorResponse(ServerError, FetchFailed)
    else
      var rows := Listing(t);
      Response(OK, JObj([("sessions", JArr(seq(|rows|, i requires 0 <= i < |rows| => EncodeSession(rows[i], iso))))]))
  }

  /** Only a signed-in user can list sessions. */
  lemma GetNeedsSignIn(t: Tables, userId: Option<string>, fault: Option<string>, iso: Timestamp -> string)
    requires !SignedIn(userId)
    ensures HandleGet(t, userId, fault, iso) == ErrorResponse(Unauthorized, NotAuthenticated)
  {
  }

  /**
   * The listing holds exactly the sessions filed under user 1, each as
   * often as it is stored, latest `createdOn` first.
   */
  lemma ListingIsUsersSessionsNewestFirst(t: Tables)
    ensures NewestFirstOrdered(Listing(t))
    ensures forall i :: 0 <= i < |Listing(t)| ==> Listing(t)[i].createdBy == 1
    ensures forall s :: multiset(Listing(t))[s] == if s.createdBy == 1 then multiset(t.sessions)[s] else 0
  {
    NewestFirstSorts(CreatedBy(t.sessions, DbUserId));
    CreatedByMultiset(t.sessions, DbUserId);
    forall i | 0 <= i < |Listing(t)|
      ensures Listing(t)[i].createdBy == 1
    {
      assert Listing(t)[i] in multiset(CreatedBy(t.sessions, DbUserId));
    }
  }

  /** GET against the database object: reads the tables and changes nothing. */
  method Get(db: Database, userId: Option<string>, fault: Option<string>, iso: Timestamp -> string)
    returns (resp: Response)
    ensures resp == HandleGet(db.Snapshot(), userId, fault, iso)
  {
    if !SignedIn(userId) {
      return ErrorResponse(Unauthorized, NotAuthenticated);
    }
    if fault.Some? {
      return ErrorResponse(ServerError, FetchFailed);
    }
    var rows := NewestFirst(CreatedBy(db.sessions, DbUserId));
    resp := Response(OK, JObj([("sessions", JArr(seq(|rows|, i requires 0 <= i < |rows| => EncodeSession(rows[i], iso))))]));
  }
}
