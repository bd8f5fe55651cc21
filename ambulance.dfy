/**
 * app/api/ambulance/route.ts: store one ambulance request with the
 * caller's name, contact, reason and position.
 */
module Ambulance {
  import opened Wrappers
  import opened JsonData
  import opened Http
  import opened Schema

  const MissingFields := "Missing required fields"
  const SaveFailed := "Failed to save request"

  /** `{ success: true, message: "Ambulance request saved!" }` */
  const Saved: Response :=
    Response(OK, JObj([("success", JBool(true)), ("message", JStr("Ambulance request saved!"))]))

  /** The five fields the handler demands, in the order it tests them. */
  const Required: seq<string> := ["name", "contact", "reason", "latitude", "longitude"]

  predicate AllPresent(body: Json) {
    && Present(body, "name") && Present(body, "contact") && Present(body, "reason")
    && Present(body, "latitude") && Present(body, "longitude")
  }

  /** The column values of a request, as the database binds them. */
  datatype Columns = Columns(name: string, contact: string, reason: string, latitude: string, longitude: string)

  /** Binding the five fields to their columns; None when a column refuses its value. */
  function Bind(body: Json): (r: Option<Columns>)
    requires AllPresent(body)
    ensures r.Some? <==>
      && BindVarchar(Field(body, "name").value, NameLength).Some?
      && BindVarchar(Field(body, "contact").value, ContactLength).Some?
      && BindVarchar(Field(body, "reason").value, ReasonLength).Some?
      && BindVarchar(Field(body, "latitude").value, CoordinateLength).Some?
      && BindVarchar(Field(body, "longitude").value, CoordinateLength).Some?
    ensures r.Some? ==>
      && BindText(Field(body, "name").value) == Some(r.value.name)
      && BindText(Field(body, "contact").value) == Some(r.value.contact)
      && BindText(Field(body, "reason").value) == Some(r.value.reason)
      && BindText(Field(body, "latitude").value) == Some(r.value.latitude)
      && BindText(Field(body, "longitude").value) == Some(r.value.longitude)
      && |r.value.contact| <= ContactLength
  {
    var name := BindVarchar(Field(body, "name").value, NameLength);
    var contact := BindVarchar(Field(body, "contact").value, ContactLength);
    var reason := BindVarchar(Field(body, "reason").value, ReasonLength);
    var latitude := BindVarchar(Field(body, "latitude").value, CoordinateLength);
    var longitude := BindVarchar(Field(body, "longitude").value, CoordinateLength);
    if name.None? || contact.None? || reason.None? || latitude.None? || longitude.None? then None
    else Some(Columns(name.value, contact.value, reason.value, latitude.value, longitude.value))
  }

  /**
   * The handler on tables `t`, at time `now`. A database that is down
   * (`fault`) or a value a column rejects makes the insert throw.
   */
  function Handle(t: Tables, req: Request, fault: Option<string>, now: Timestamp): Outcome {
    match ReadBody(req)
    case Failure(_) => Outcome(t, ErrorResponse(ServerError, SaveFailed))
    case Success(body) =>
      if !AllPresent(body) then Outcome(t, ErrorResponse(BadRequest, MissingFields))
      else
        var columns := Bind(body);
        if fault.Some? || columns.None? then Outcome(t, ErrorResponse(ServerError, SaveFailed))
        else
          var c := columns.value;
          var row := AmbulanceRequest(t.nextAmbulanceId, c.name, c.contact, c.reason, c.latitude, c.longitude, now);
          Outcome(t.(ambulanceRequests := t.ambulanceRequests + [row], nextAmbulanceId := t.nextAmbulanceId + 1), Saved)
  }

  /** Any of the five fields missing or falsy: 400 and nothing is stored. */
  lemma MissingFieldRejected(t: Tables, body: Json, fault: Option<string>, now: Timestamp, k: string)
    requires body != JNull && k in Required && !Present(body, k)
    ensures Handle(t, Body(body), fault, now) == Outcome(t, ErrorResponse(BadRequest, MissingFields))
  {
  }

  /** With all five fields accepted by their columns, exactly that request is appended. */
  lemma InsertsOneRequest(t: Tables, body: Json, now: Timestamp,
                          name: string, contact: string, reason: string, latitude: string, longitude: string)
    requires body != JNull && AllPresent(body)
    requires BindText(Field(body, "name").value) == Some(name) && |name| <= 255
    requires BindText(Field(body, "contact").value) == Some(contact) && |contact| <= 20
    requires BindText(Field(body, "reason").value) == Some(reason) && |reason| <= 255
    requires BindText(Field(body, "latitude").value) == Some(latitude) && |latitude| <= 100
    requires BindText(Field(body, "longitude").value) == Some(longitude) && |longitude| <= 100
    ensures Handle(t, Body(body), None, now)
            == Outcome(t.(ambulanceRequests := t.ambulanceRequests
                            + [AmbulanceRequest(t.nextAmbulanceId, name, contact, reason, latitude, longitude, now)],
                          nextAmbulanceId := t.nextAmbulanceId + 1),
                       Saved)
  {
  }

  /** A contact longer than twenty characters is refused by its column: 500, nothing stored. */
  lemma LongContactRefused(t: Tables, body: Json, now: Timestamp)
    requires body != JNull && AllPresent(body)
    requires BindText(Field(body, "contact").value).Some? && |BindText(Field(body, "contact").value).value| > 20
    ensures Handle(t, Body(body), None, now) == Outcome(t, ErrorResponse(ServerError, "Failed to save request"))
  {
  }

  /**
   * The table changes exactly when the answer is the success message, and
   * then by one appended row; every failure answers 400 or the fixed 500.
   */
  lemma WritesIffSaved(t: Tables, req: Request, fault: Option<string>, now: Timestamp)
    ensures var out := Handle(t, req, fault, now);
      && (out.response == Saved <==> out.tables != t)
      && (out.response == Saved ==>
            |out.tables.ambulanceRequests| == |t.ambulanceRequests| + 1
            && out.tables.ambulanceRequests[..|t.ambulanceRequests|] == t.ambulanceRequests)
      && (out.response != Saved ==>
            out.response in {ErrorResponse(BadRequest, MissingFields), ErrorResponse(ServerError, SaveFailed)})
  {
    var out := Handle(t, req, fault, now);
    if out.response == Saved {
      assert |out.tables.ambulanceRequests| == |t.ambulanceRequests| + 1;
      assert out.tables.ambulanceRequests[..|t.ambulanceRequests|] == t.ambulanceRequests;
    }
  }

  lemma HandleKeepsConsistency(t: Tables, req: Request, fault: Option<string>, now: Timestamp)
    requires Consistent(t)
    ensures Consistent(Handle(t, req, fault, now).tables)
  {
    var out := Handle(t, req, fault, now);
    if out.tables != t {
      var row := out.tables.ambulanceRequests[|t.ambulanceRequests|];
      assert out.tables.ambulanceRequests == t.ambulanceRequests + [row];
      assert AmbulanceIds(t.ambulanceRequests + [row]) == AmbulanceIds(t.ambulanceRequests) + [row.id];
      IdsBelowAppend(AmbulanceIds(t.ambulanceRequests), t.nextAmbulanceId);
    }
  }

  /** POST against the database object. */
  method Post(db: Database, req: Request, fault: Option<string>, now: Timestamp) returns (resp: Response)
    requires db.Valid()
    modifies db
    ensures db.Valid()
    ensures Outcome(db.Snapshot(), resp) == Handle(old(db.Snapshot()), req, fault, now)
  {
    var read := ReadBody(req);
    if read.Failure? {
      return ErrorResponse(ServerError, SaveFailed);
    }
    var body := read.value;
    if !Present(body, "name") || !Present(body, "contact") || !Present(body, "reason")
       || !Present(body, "latitude") || !Present(body, "longitude") {
      return ErrorResponse(BadRequest, MissingFields);
    }
    var columns := Bind(body);
    if fault.Some? || columns.None? {
      return ErrorResponse(ServerError, SaveFailed);
    }
    var c := columns.value;
    var _ := db.InsertAmbulanceRequest(c.name, c.contact, c.reason, c.latitude, c.longitude, now);
    resp := Saved;
  }
}
