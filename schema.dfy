/**
 * The relational tables of config/schema.tsx that the core routes read and
 * write: one record type per table, the column defaults, the uniqueness and
 * length constraints, and a `Database` object holding the rows.
 */
module Schema {
  import opened Wrappers
  import opened JsonData
  import opened Http

  /** An instant, as the database's `now()` or the caller's clock gives it. */
  type Timestamp = int

  /** `users` */
  datatype User = User(id: nat, name: string, email: string, credits: Option<int>)

  /**
   * `sessions`. `agentId` holds the value the handler bound (JNull for SQL
   * NULL); `finalReport` is JNull until a report is written.
   */
  datatype Session = Session(
    id: nat,
    chatId: string,
    createdBy: int,
    createdOn: Timestamp,
    notes: string,
    agentId: Json,
    conversation: Json,
    finalReport: Json,
    status: string,
    updatedAt: Timestamp)

  /** `ambulance_requests` */
  datatype AmbulanceRequest = AmbulanceRequest(
    id: nat, name: string, contact: string, reason: string,
    latitude: string, longitude: string, createdAt: Timestamp)

  /** `sos_alerts` */
  datatype SosAlert = SosAlert(
    id: nat, userEmail: string, emergencyType: string,
    latitude: string, longitude: string, status: string, createdAt: Timestamp)

  /** `conversations`: one chat message; `chatId` is not unique. */
  datatype ConversationRow = ConversationRow(
    id: nat, chatId: string, sender: string, message: string, timestamp: Timestamp)

  /** Column defaults. */
  const DefaultConversation: Json := JArr([])
  const DefaultSessionStatus := "active"
  const DefaultSosStatus := "Pending"

  /** `varchar(n)` limits of the columns the handlers write. */
  const EmailLength := 255
  const NameLength := 255
  const ChatIdLength := 255
  const ContactLength := 20
  const ReasonLength := 255
  const CoordinateLength := 100
  const EmergencyTypeLength := 100
  const SenderLength := 50

  /**
   * Message of the error the database raises when a value breaks a column
   * constraint (unique, length, type). Its exact wording is not modelled.
   */
  const ConstraintViolation := "value violates a column constraint"

  /**
   * The text a JavaScript value becomes when bound to a text column: a
   * string as it is, a number as `String(n)`, a boolean as "true"/"false".
   * Null, arrays and objects are treated as rejected by the database.
   */
  function BindText(v: Json): (r: Option<string>)
    ensures v.JStr? ==> r == Some(v.s)
    ensures r.None? <==> (v.JNull? || v.JArr? || v.JObj?)
  {
    match v
    case JStr(s) => Some(s)
    case JNum(t) => Some(t)
    case JBool(b) => Some(if b then "true" else "false")
    case _ => None
  }

  /** Binding to a `varchar(limit)` column: as BindText, and no longer than limit. */
  function BindVarchar(v: Json, limit: nat): (r: Option<string>)
    ensures r.Some? ==> BindText(v) == r && |r.value| <= limit
    ensures r.None? ==> BindText(v).None? || |BindText(v).value| > limit
  {
    match BindText(v)
    case Some(s) => if |s| <= limit then Some(s) else None
    case None => None
  }

  predicate UniqueEmails(users: seq<User>) {
    forall i, j :: 0 <= i < j < |users| ==> users[i].email != users[j].email
  }

  predicate UniqueChatIds(sessions: seq<Session>) {
    forall i, j :: 0 <= i < j < |sessions| ==> sessions[i].chatId != sessions[j].chatId
  }

  predicate EmailTaken(users: seq<User>, email: string) {
    exists i :: 0 <= i < |users| && users[i].email == email
  }

  predicate ChatIdTaken(sessions: seq<Session>, chatId: string) {
    exists i :: 0 <= i < |sessions| && sessions[i].chatId == chatId
  }

  predicate UserExists(users: seq<User>, id: int) {
    exists i :: 0 <= i < |users| && users[i].id == id
  }

  /** `sessions.created_by` references `users.id`. */
  predicate SessionsReferenceUsers(sessions: seq<Session>, users: seq<User>) {
    forall i :: 0 <= i < |sessions| ==> UserExists(users, sessions[i].createdBy)
  }

  /** Index of the first session with this chat id (SELECT ... WHERE chat_id = ? LIMIT 1). */
  function FindChatId(sessions: seq<Session>, chatId: string): (r: Option<nat>)
    ensures r.None? <==> !ChatIdTaken(sessions, chatId)
    ensures r.Some? ==> r.value < |sessions| && sessions[r.value].chatId == chatId
                        && forall j :: 0 <= j < r.value ==> sessions[j].chatId != chatId
  {
    if sessions == [] then None
    else if sessions[0].chatId == chatId then Some(0)
    else match FindChatId(sessions[1..], chatId)
         case None => None
         case Some(k) => Some(k + 1)
  }

  /** Index of the first user with this email (SELECT ... WHERE email = ?, first row). */
  function FindEmail(users: seq<User>, email: string): (r: Option<nat>)
    ensures r.None? <==> !EmailTaken(users, email)
    ensures r.Some? ==> r.value < |users| && users[r.value].email == email
                        && forall j :: 0 <= j < r.value ==> users[j].email != email
  {
    if users == [] then None
    else if users[0].email == email then Some(0)
    else match FindEmail(users[1..], email)
         case None => None
         case Some(k) => Some(k + 1)
  }

  /** The two json columns the handlers update. */
  datatype JsonColumn = ConversationColumn | FinalReportColumn

  function SetColumn(s: Session, column: JsonColumn, value: Json): Session {
    match column
    case ConversationColumn => s.(conversation := value)
    case FinalReportColumn => s.(finalReport := value)
  }

  /** UPDATE sessions SET column = value WHERE chat_id = chatId. */
  function UpdateWhereChatId(sessions: seq<Session>, chatId: string, column: JsonColumn, value: Json):
    (r: seq<Session>)
    ensures |r| == |sessions|
    ensures forall i :: 0 <= i < |r| ==>
      r[i] == if sessions[i].chatId == chatId then SetColumn(sessions[i], column, value) else sessions[i]
  {
    seq(|sessions|, i requires 0 <= i < |sessions| =>
      if sessions[i].chatId == chatId then SetColumn(sessions[i], column, value) else sessions[i])
  }

  /** Setting a json column keeps every row's id, chat id and creator. */
  lemma UpdateKeepsKeys(sessions: seq<Session>, chatId: string, column: JsonColumn, value: Json)
    ensures SessionIds(UpdateWhereChatId(sessions, chatId, column, value)) == SessionIds(sessions)
    ensures UniqueChatIds(sessions) ==> UniqueChatIds(UpdateWhereChatId(sessions, chatId, column, value))
    ensures forall users :: SessionsReferenceUsers(sessions, users) ==>
              SessionsReferenceUsers(UpdateWhereChatId(sessions, chatId, column, value), users)
  {
    var r := UpdateWhereChatId(sessions, chatId, column, value);
    assert forall i :: 0 <= i < |r| ==> r[i].id == sessions[i].id && r[i].chatId == sessions[i].chatId
                                        && r[i].createdBy == sessions[i].createdBy;
  }

  /** All tables with their identity counters (the next id each will hand out). */
  datatype Tables = Tables(
    users: seq<User>,
    sessions: seq<Session>,
    ambulanceRequests: seq<AmbulanceRequest>,
    sosAlerts: seq<SosAlert>,
    conversations: seq<ConversationRow>,
    nextUserId: nat,
    nextSessionId: nat,
    nextAmbulanceId: nat,
    nextSosId: nat,
    nextConversationId: nat)

  /** Identity ids increase along a table and stay below the counter. */
  predicate IdsBelow(ids: seq<nat>, next: nat) {
    && (forall i, j :: 0 <= i < j < |ids| ==> ids[i] < ids[j])
    && (forall i :: 0 <= i < |ids| ==> 1 <= ids[i] < next)
  }

  function UserIds(s: seq<User>): seq<nat> { seq(|s|, i requires 0 <= i < |s| => s[i].id) }
  function SessionIds(s: seq<Session>): seq<nat> { seq(|s|, i requires 0 <= i < |s| => s[i].id) }
  function AmbulanceIds(s: seq<AmbulanceRequest>): seq<nat> { seq(|s|, i requires 0 <= i < |s| => s[i].id) }
  function SosIds(s: seq<SosAlert>): seq<nat> { seq(|s|, i requires 0 <= i < |s| => s[i].id) }
  function ConversationIds(s: seq<ConversationRow>): seq<nat> { seq(|s|, i requires 0 <= i < |s| => s[i].id) }

  /** The schema's constraints: primary keys, `users.email` and `sessions.chatId` unique. */
  predicate Consistent(t: Tables) {
    && IdsBelow(UserIds(t.users), t.nextUserId)
    && IdsBelow(SessionIds(t.sessions), t.nextSessionId)
    && IdsBelow(AmbulanceIds(t.ambulanceRequests), t.nextAmbulanceId)
    && IdsBelow(SosIds(t.sosAlerts), t.nextSosId)
    && IdsBelow(ConversationIds(t.conversations), t.nextConversationId)
    && UniqueEmails(t.users)
    && UniqueChatIds(t.sessions)
    && SessionsReferenceUsers(t.sessions, t.users)
    && t.nextUserId >= 1 && t.nextSessionId >= 1 && t.nextAmbulanceId >= 1
    && t.nextSosId >= 1 && t.nextConversationId >= 1
  }

  /** What a handler leaves behind: the tables after it ran, and its response. */
  datatype Outcome = Outcome(tables: Tables, response: Response)

  /** Appending a row with the counter's id keeps the ids increasing. */
  lemma IdsBelowAppend(ids: seq<nat>, next: nat)
    requires IdsBelow(ids, next) && next >= 1
    ensures IdsBelow(ids + [next], next + 1)
  {
  }

  /** The database: one field per table, updated in place by the handlers. */
  class Database {
    var users: seq<User>
    var sessions: seq<Session>
    var ambulanceRequests: seq<AmbulanceRequest>
    var sosAlerts: seq<SosAlert>
    var conversations: seq<ConversationRow>
    var nextUserId: nat
    var nextSessionId: nat
    var nextAmbulanceId: nat
    var nextSosId: nat
    var nextConversationId: nat

    /** The current contents of every table. */
    function Snapshot(): Tables
      reads this
    {
      Tables(users, sessions, ambulanceRequests, sosAlerts, conversations,
             nextUserId, nextSessionId, nextAmbulanceId, nextSosId, nextConversationId)
    }

    predicate Valid()
      reads this
    {
      Consistent(Snapshot())
    }

    /** An empty database; identity columns start at 1. */
    constructor ()
      ensures Valid()
      ensures Snapshot() == Tables([], [], [], [], [], 1, 1, 1, 1, 1)
    {
      users, sessions, ambulanceRequests, sosAlerts, conversations := [], [], [], [], [];
      nextUserId, nextSessionId, nextAmbulanceId, nextSosId, nextConversationId := 1, 1, 1, 1, 1;
    }

    /** INSERT INTO users ... RETURNING *. */
    method InsertUser(name: string, email: string, credits: Option<int>) returns (row: User)
      requires Valid() && !EmailTaken(users, email)
      modifies this
      ensures Valid()
      ensures row == User(old(nextUserId), name, email, credits)
      ensures Snapshot() == old(Snapshot()).(users := old(users) + [row], nextUserId := old(nextUserId) + 1)
    {
      row := User(nextUserId, name, email, credits);
      assert UserIds(users + [row]) == UserIds(users) + [row.id];
      assert forall id :: UserExists(users, id) ==> UserExists(users + [row], id) by {
        forall id | UserExists(users, id) ensures UserExists(users + [row], id) {
          var i :| 0 <= i < |users| && users[i].id == id;
          assert (users + [row])[i] == users[i];
        }
      }
      IdsBelowAppend(UserIds(users), nextUserId);
      users := users + [row];
      nextUserId := nextUserId + 1;
    }

    /** INSERT INTO sessions ... RETURNING *. */
    method InsertSession(chatId: string, createdBy: int, notes: string, agentId: Json,
                         conversation: Json, status: string, now: Timestamp) returns (row: Session)
      requires Valid() && !ChatIdTaken(sessions, chatId) && UserExists(users, createdBy)
      modifies this
      ensures Valid()
      ensures row == Session(old(nextSessionId), chatId, createdBy, now, notes, agentId,
                             conversation, JNull, status, now)
      ensures Snapshot() == old(Snapshot()).(sessions := old(sessions) + [row],
                                              nextSessionId := old(nextSessionId) + 1)
    {
      row := Session(nextSessionId, chatId, createdBy, now, notes, agentId, conversation, JNull, status, now);
      assert SessionIds(sessions + [row]) == SessionIds(sessions) + [row.id];
      IdsBelowAppend(SessionIds(sessions), nextSessionId);
      sessions := sessions + [row];
      nextSessionId := nextSessionId + 1;
    }

    /** INSERT INTO ambulance_requests. */
    method InsertAmbulanceRequest(name: string, contact: string, reason: string,
                                  latitude: string, longitude: string, now: Timestamp)
      returns (row: AmbulanceRequest)
      requires Valid()
      modifies this
      ensures Valid()
      ensures row == AmbulanceRequest(old(nextAmbulanceId), name, contact, reason, latitude, longitude, now)
      ensures Snapshot() == old(Snapshot()).(ambulanceRequests := old(ambulanceRequests) + [row],
                                              nextAmbulanceId := old(nextAmbulanceId) + 1)
    {
      row := AmbulanceRequest(nextAmbulanceId, name, contact, reason, latitude, longitude, now);
      assert AmbulanceIds(ambulanceRequests + [row]) == AmbulanceIds(ambulanceRequests) + [row.id];
      IdsBelowAppend(AmbulanceIds(ambulanceRequests), nextAmbulanceId);
      ambulanceRequests := ambulanceRequests + [row];
      nextAmbulanceId := nextAmbulanceId + 1;
    }

    /** INSERT INTO sos_alerts; `status` takes its default. */
    method InsertSosAlert(userEmail: string, emergencyType: string, latitude: string,
                          longitude: string, now: Timestamp) returns (row: SosAlert)
      requires Valid()
      modifies this
      ensures Valid()
      ensures row == SosAlert(old(nextSosId), userEmail, emergencyType, latitude, longitude,
                              DefaultSosStatus, now)
      ensures Snapshot() == old(Snapshot()).(sosAlerts := old(sosAlerts) + [row],
                                              nextSosId := old(nextSosId) + 1)
    {
      row := SosAlert(nextSosId, userEmail, emergencyType, latitude, longitude, DefaultSosStatus, now);
      assert SosIds(sosAlerts + [row]) == SosIds(sosAlerts) + [row.id];
      IdsBelowAppend(SosIds(sosAlerts), nextSosId);
      sosAlerts := sosAlerts + [row];
      nextSosId := nextSosId + 1;
    }

    /** INSERT INTO conversations. */
    method InsertConversation(chatId: string, sender: string, message: string, now: Timestamp)
      returns (row: ConversationRow)
      requires Valid()
      modifies this
      ensures Valid()
      ensures row == ConversationRow(old(nextConversationId), chatId, sender, message, now)
      ensures Snapshot() == old(Snapshot()).(conversations := old(conversations) + [row],
                                              nextConversationId := old(nextConversationId) + 1)
    {
      row := ConversationRow(nextConversationId, chatId, sender, message, now);
      assert ConversationIds(conversations + [row]) == ConversationIds(conversations) + [row.id];
      IdsBelowAppend(ConversationIds(conversations), nextConversationId);
      conversations := conversations + [row];
      nextConversationId := nextConversationId + 1;
    }

    /** UPDATE sessions SET <one column> WHERE chat_id = chatId: replaces the sessions table. */
    method SetSessions(updated: seq<Session>)
      requires Valid()
      requires SessionIds(updated) == SessionIds(sessions)
      requires UniqueChatIds(updated) && SessionsReferenceUsers(updated, users)
      modifies this
      ensures Valid()
      ensures Snapshot() == old(Snapshot()).(sessions := updated)
    {
      sessions := updated;
    }
  }
}
