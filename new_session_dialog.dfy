/**
 * app/_components/AddNewSessionDialog.tsx: the two-step "Consult a Doctor"
 * dialog. Step 1 takes the symptom notes and asks for suggested doctors;
 * step 2 lets the user pick one and starts a session.
 *
 * The component's seven `useState` fields are the fields of `Dialog`; each
 * handler is a method that updates them as the handler does, and is
 * specified by a transition function on the `State` value. How each HTTP
 * request settled is an input (`Reply`).
 */
module NewSessionDialog {
  import opened Wrappers
  import opened JsonData
  import opened Http
  import SuggestDoctor
  import Sessions
  import Schema

  type Step = s: int | s == 1 || s == 2 witness 1

  /** The seven state fields, as one value. */
  datatype State = State(
    note: string,
    loading: bool,
    step: Step,
    suggestedDoctors: Json,
    selectedAgentId: Option<int>,
    error: Json,
    success: string)

  /** The `useState` initial values. */
  const InitialState: State := State("", false, 1, JArr([]), None, JStr(""), "")

  const SuggestFailed := "Failed to get doctor suggestions. Please try again."
  const StartFailed := "Failed to start conversation. Please try again."
  const SessionCreated := "Session created successfully!"
  const AgentPagePrefix := "/dashboard/medical-agent/"

  /**
   * How an axios request settled: resolved with the response data, or
   * rejected, with the response data when a response arrived at all.
   */
  datatype Reply = Resolved(data: Json) | Rejected(response: Option<Json>)

  /** axios resolves on a 2xx status and rejects on any other. */
  function Settle(resp: Response): (r: Reply)
    ensures r.Resolved? <==> 200 <= resp.status < 300
    ensures r.Resolved? ==> r.data == resp.body
    ensures r.Rejected? ==> r.response == Some(resp.body)
  {
    if 200 <= resp.status < 300 then Resolved(resp.body) else Rejected(Some(resp.body))
  }

  /** `a ?? b` where `a` may be `undefined`: only undefined and null are replaced. */
  function Coalesce(a: Option<Json>, b: Json): (r: Json)
    ensures a.Some? && a.value != JNull ==> r == a.value
    ensures a.None? || a.value == JNull ==> r == b
  {
    if a.Some? && a.value != JNull then a.value else b
  }

  /** `a?.key` where `a` may be `undefined`. */
  function Prop(a: Option<Json>, key: string): (r: Option<Json>)
    ensures a.None? ==> r.None?
    ensures a.Some? ==> r == Field(a.value, key)
  {
    if a.Some? then Field(a.value, key) else None
  }

  /**
   * A value as a template literal writes it: `${v}`. Arrays join their
   * elements with commas (null elements write nothing); objects write
   * "[object Object]".
   */
  function TemplateText(v: Option<Json>): string {
    match v
    case None => "undefined"
    case Some(j) => ValueText(j)
  }

  function ValueText(j: Json): string
    decreases j, 1
  {
    match j
    case JNull => "null"
    case JBool(b) => if b then "true" else "false"
    case JNum(t) => t
    case JStr(s) => s
    case JArr(items) => ItemsText(j, items)
    case JObj(_) => "[object Object]"
  }

  function ItemsText(parent: Json, items: seq<Json>): string
    requires forall k :: 0 <= k < |items| ==> items[k] < parent
    decreases parent, 0, |items|
  {
    if items == [] then ""
    else
      var first := if items[0] == JNull then "" else ValueText(items[0]);
      if |items| == 1 then first else first + "," + ItemsText(parent, items[1..])
  }

  /** The page of a new session: `/dashboard/medical-agent/${sessionId}`. */
  function AgentPage(sessionId: Option<Json>): string {
    AgentPagePrefix + TemplateText(sessionId)
  }

  /** Next (lines 30-46): ask for suggestions; nothing happens while the note is empty. */
  function ClickNext(s: State, reply: Reply): State {
    if s.note == "" then s
    else match reply
      case Resolved(data) =>
        s.(loading := false, error := JStr(""),
           suggestedDoctors := Coalesce(Field(data, "content"), JArr([])), step := 2)
      case Rejected(response) =>
        s.(loading := false, error := OrElse(Prop(response, "error"), JStr(SuggestFailed)))
  }

  /**
   * What Start Conversation (lines 48-64) leaves behind: the new state, the
   * page it navigates to, and whether it scheduled a reset of the dialog.
   */
  datatype Started = Started(state: State, navigateTo: Option<string>, resetScheduled: bool)

  /**
   * Start Conversation. Reading `sessionId` off a null response body throws
   * and lands in the catch block as a rejection does.
   */
  function ClickStart(s: State, reply: Reply): Started {
    match reply
    case Resolved(data) =>
      if data == JNull then Started(s.(loading := false, error := JStr(StartFailed)), None, false)
      else Started(s.(loading := false, success := SessionCreated),
                   Some(AgentPage(Field(data, "sessionId"))), true)
    case Rejected(_) => Started(s.(loading := false, error := JStr(StartFailed)), None, false)
  }

  /** The body Start Conversation posts: `{ notes, suggestedDoctors, selectedAgentId }`. */
  function StartRequest(s: State): Json {
    JObj([("notes", JStr(s.note)), ("suggestedDoctors", s.suggestedDoctors),
          ("selectedAgentId", if s.selectedAgentId.Some? then JInt(s.selectedAgentId.value) else JNull)])
  }

  /** Clicking the card at index i (lines 119-127). */
  function SelectCard(s: State, i: nat): State {
    s.(selectedAgentId := Some(i + 1))
  }

  /** Cancel, or the reset scheduled after a session was created (lines 66-74). */
  function Reset(s: State): State {
    s.(step := 1, note := "", suggestedDoctors := JArr([]), selectedAgentId := None,
       error := JStr(""), success := "", loading := false)
  }

  /** The Next button is enabled (line 168). */
  predicate NextEnabled(s: State) {
    s.note != "" && !s.loading
  }

  /** The Start Conversation button is enabled (line 177): `!selectedAgentId` is true for null and 0. */
  predicate StartEnabled(s: State) {
    !s.loading && s.selectedAgentId.Some? && s.selectedAgentId.value != 0
  }

  /**
   * What the handlers keep: step 2 is only reached with a note, and a
   * selected agent is the card number (1-based) of a suggested doctor.
   */
  predicate Reachable(s: State) {
    && (s.step == 2 ==> s.note != "")
    && (s.step == 1 ==> s.selectedAgentId.None?)
    && (s.selectedAgentId.Some? ==>
          s.suggestedDoctors.JArr? && 1 <= s.selectedAgentId.value <= |s.suggestedDoctors.items|)
  }

  lemma InitialReachable()
    ensures Reachable(InitialState)
    ensures !NextEnabled(InitialState) && !StartEnabled(InitialState)
  {
  }

  /** Next with an empty note changes nothing, whatever the server would say. */
  lemma EmptyNoteIgnored(s: State, reply: Reply)
    requires s.note == ""
    ensures ClickNext(s, reply) == s
  {
  }

  /**
   * Next with a note always ends not loading. On success the dialog moves to
   * step 2 with the response's `content` (or [] when missing or null) and no
   * error; on failure it stays where it was, keeps its suggestions, and shows
   * the server's truthy `error` or else the fixed text, so an error is always
   * shown.
   */
  lemma NextOutcome(s: State, reply: Reply)
    requires s.note != ""
    ensures var r := ClickNext(s, reply);
      && !r.loading
      && r.note == s.note && r.selectedAgentId == s.selectedAgentId && r.success == s.success
      && (reply.Resolved? ==>
            && r.step == 2 && r.error == JStr("")
            && r.suggestedDoctors == (if Field(reply.data, "content").Some? && Field(reply.data, "content").value != JNull
                                     then Field(reply.data, "content").value else JArr([])))
      && (reply.Rejected? ==>
            && r.step == s.step && r.suggestedDoctors == s.suggestedDoctors
            && Truthy(r.error)
            && (reply.response.Some? && Present(reply.response.value, "error") ==>
                  r.error == Field(reply.response.value, "error").value)
            && (!(reply.response.Some? && Present(reply.response.value, "error")) ==> r.error == JStr(SuggestFailed)))
  {
  }

  /** Against the suggest-doctor route: its 200 answer shows the one to three suggestions for the note. */
  lemma NextWithSuggestions(s: State)
    requires s.note != ""
    ensures var ok := Response(OK, JObj([("content", SuggestDoctor.EncodeAll(SuggestDoctor.Suggestions(s.note)))]));
      var r := ClickNext(s, Settle(ok));
      && r.step == 2
      && r.suggestedDoctors == SuggestDoctor.EncodeAll(SuggestDoctor.Suggestions(s.note))
      && 1 <= |r.suggestedDoctors.items| <= 3
  {
    SuggestDoctor.SuggestionsShape(s.note);
  }

  /** Against the suggest-doctor route: its 500 answer shows the route's own error text, not the dialog's fallback. */
  lemma NextWithSuggestFailure(s: State, message: string)
    requires s.note != ""
    ensures var members := [("content", JArr([])), ("error", JStr(SuggestDoctor.FailureMessage)), ("details", JStr(message))];
      var r := ClickNext(s, Settle(Response(ServerError, JObj(members))));
      r.step == s.step && r.error == JStr(SuggestDoctor.FailureMessage)
  {
    var members := [("content", JArr([])), ("error", JStr(SuggestDoctor.FailureMessage)), ("details", JStr(message))];
    LookupUnique(members, 1);
  }

  /**
   * Start Conversation always ends not loading. It navigates and schedules
   * a reset exactly when the post resolved with a non-null body; otherwise
   * it shows the fixed failure text and leaves everything else as it was.
   */
  lemma StartOutcome(s: State, reply: Reply)
    ensures var r := ClickStart(s, reply);
      && !r.state.loading
      && r.state.step == s.step && r.state.note == s.note
      && r.state.suggestedDoctors == s.suggestedDoctors && r.state.selectedAgentId == s.selectedAgentId
      && (r.navigateTo.Some? <==> reply.Resolved? && reply.data != JNull)
      && r.resetScheduled == r.navigateTo.Some?
      && (r.navigateTo.Some? ==> r.state.success == SessionCreated && r.state.error == s.error)
      && (r.navigateTo.None? ==> r.state.error == JStr(StartFailed) && r.state.success == s.success)
  {
  }

  /**
   * Against the sessions route: the body posted from step 2 passes its
   * required-field check, since the notes are there and the suggestions are
   * an array.
   */
  lemma StartRequestAccepted(s: State)
    requires Reachable(s) && s.step == 2 && s.suggestedDoctors.JArr?
    ensures Present(StartRequest(s), "notes") && Present(StartRequest(s), "suggestedDoctors")
  {
    var members := StartRequest(s).members;
    LookupUnique(members, 0);
    LookupUnique(members, 1);
  }

  /** Against the sessions route: its success answer sends the user to the page of the new session id. */
  lemma StartNavigatesToSession(s: State, row: Schema.Session)
    ensures ClickStart(s, Settle(Sessions.CreatedResponse(row))).navigateTo
            == Some("/dashboard/medical-agent/" + NatText(row.id))
  {
    var created := Sessions.CreatedResponse(row).body.members;
    LookupUnique(created, 1);
  }

  /** Selecting card i selects agent i + 1, a valid card number, and enables Start unless loading. */
  lemma SelectOutcome(s: State, i: nat)
    requires Reachable(s) && s.step == 2 && s.suggestedDoctors.JArr? && i < |s.suggestedDoctors.items|
    ensures var r := SelectCard(s, i);
      && Reachable(r)
      && r.selectedAgentId == Some(i + 1)
      && (StartEnabled(r) <==> !s.loading)
  {
  }

  /** Reset restores every field's initial value, from any state. */
  lemma ResetRestoresInitial(s: State)
    ensures Reset(s) == InitialState
  {
  }

  /** The buttons: Next needs a note, Start needs a selected agent, neither while loading. */
  lemma ButtonsNeedInput(s: State)
    requires Reachable(s)
    ensures NextEnabled(s) <==> s.note != "" && !s.loading
    ensures StartEnabled(s) <==> s.selectedAgentId.Some? && !s.loading
    ensures s.step == 2 ==> s.note != ""
  {
  }

  /** Every handler keeps the dialog in a reachable state. */
  lemma HandlersKeepReachable(s: State, reply: Reply)
    requires Reachable(s)
    ensures s.step == 1 ==> Reachable(ClickNext(s, reply))
    ensures Reachable(ClickStart(s, reply).state)
    ensures Reachable(Reset(s))
  {
  }

  /** The dialog component and its state. */
  class Dialog {
    var note: string
    var loading: bool
    var step: Step
    var suggestedDoctors: Json
    var selectedAgentId: Option<int>
    var error: Json
    var success: string

    function Snapshot(): State
      reads this
    {
      State(note, loading, step, suggestedDoctors, selectedAgentId, error, success)
    }

    predicate Valid()
      reads this
    {
      Reachable(Snapshot())
    }

    constructor ()
      ensures Valid() && Snapshot() == InitialState
    {
      note, loading, step := "", false, 1;
      suggestedDoctors, selectedAgentId := JArr([]), None;
      error, success := JStr(""), "";
    }

    /** The textarea's change handler (line 98); the textarea is disabled while loading. */
    method SetNote(text: string)
      requires Valid() && step == 1 && !loading
      modifies this
      ensures Valid()
      ensures Snapshot() == old(Snapshot()).(note := text)
    {
      note := text;
    }

    /** OnClickNext; the Next button is only shown in step 1. */
    method OnClickNext(reply: Reply)
      requires Valid() && step == 1
      modifies this
      ensures Valid()
      ensures Snapshot() == ClickNext(old(Snapshot()), reply)
    {
      if note == "" {
        return;
      }
      loading := true;
      error := JStr("");
      match reply {
        case Resolved(data) =>
          suggestedDoctors := Coalesce(Field(data, "content"), JArr([]));
          step := 2;
        case Rejected(response) =>
          error := OrElse(Prop(response, "error"), JStr(SuggestFailed));
      }
      loading := false;
    }

    /** startConversation: returns the page it navigates to and whether it scheduled a reset. */
    method StartConversation(reply: Reply) returns (navigateTo: Option<string>, resetScheduled: bool)
      requires Valid()
      modifies this
      ensures Valid()
      ensures Started(Snapshot(), navigateTo, resetScheduled) == ClickStart(old(Snapshot()), reply)
    {
      navigateTo, resetScheduled := None, false;
      loading := true;
      if reply.Resolved? && reply.data != JNull {
        navigateTo := Some(AgentPage(Field(reply.data, "sessionId")));
        success := SessionCreated;
        resetScheduled := true;
      } else {
        error := JStr(StartFailed);
      }
      loading := false;
    }

    /** Clicking the card at index i; cards are shown in step 2, one per suggested doctor. */
    method SelectAgent(i: nat)
      requires Valid() && step == 2 && suggestedDoctors.JArr? && i < |suggestedDoctors.items|
      modifies this
      ensures Valid()
      ensures Snapshot() == SelectCard(old(Snapshot()), i)
    {
      selectedAgentId := Some(i + 1);
    }

    /** resetDialog */
    method ResetDialog()
      modifies this
      ensures Valid()
      ensures Snapshot() == Reset(old(Snapshot()))
    {
      step := 1;
      note := "";
      suggestedDoctors := JArr([]);
      selectedAgentId := None;
      error := JStr("");
      success := "";
      loading := false;
    }
  }
}
