/**
 * app/api/sos/route.ts: store one SOS alert with the caller's email,
 * emergency type and position; the alert starts out "Pending".
 */
module Sos {
  import opened Wrappers
  import opened JsonData
  import opened Http
  import opened Schema

  const MissingFields := "Missing required fields"
  const UnknownEmergency := "Unknown"

  /** `{ success: true, message: "SOS alert saved successfully" }` */
  const Saved: Response :=
    Response(OK, JObj([("success", JBool(true)), ("message", JStr("SOS alert saved successfully"))]))

  /** `{ success: false, error: "Database error" }` with status 500: the answer to every thrown error. */
  const DatabaseError: Response :=
    Response(ServerError, JObj([("success", JBool(false)), ("error", JStr("Database error"))]))

  /** `emergencyType || "Unknown"` */
  function EmergencyType(body: Json): (r: Json)
    ensures !Present(body, "emergencyType") ==> r == JStr(UnknownEmergency)
    ensures Present(body, "emergencyType") ==> Some(r) == Field(body, "emergencyType")
  {
    OrElse(Field(body, "emergencyType"), JStr(UnknownEmergency))
  }

  /**
   * The handler on tables `t`, at time `now`. A database that is down
   * (`fault`) or a value a column rejects makes the insert throw.
   */
  function Handle(t: Tables, req: Request, fault: Option<string>, now: Timestamp): Outcome {
    match ReadBody(req)
    case Failure(_) => Outcome(t, DatabaseError)
    case Success(body) =>
      if !Present(body, "userEmail") || !Present(body, "latitude") || !Present(body, "longitude") then
        Outcome(t, ErrorResponse(BadRequest, MissingFields))
      else
        var email := BindVarchar(Field(body, "userEmail").value, EmailLength);
        var kind := BindVarchar(EmergencyType(body), EmergencyTypeLength);
        var latitude := BindVarchar(Field(body, "latitude").value, CoordinateLength);
        var longitude := BindVarchar(Field(body, "longitude").value, CoordinateLength);
        if fault.Some? || email.None? || kind.None? || latitude.None? || longitude.None? then
          Outcome(t, DatabaseError)
        else
          var row := SosAlert(t.nextSosId, email.value, kind.value, latitude.value, longitude.value,
                              DefaultSosStatus, now);
          Outcome(t.(sosAlerts := t.sosAlerts + [row], nextSosId := t.nextSosId + 1), Saved)
  }

  /** A falsy or missing email, latitude or longitude: 400 and nothing is stored. */
  lemma MissingFieldsRejected(t: Tables, body: Json, fault: Option<string>, now: Timestamp)
    requires body != JNull
    requires !Present(body, "userEmail") || !Present(body, "latitude") || !Present(body, "longitude")
    ensures Handle(t, Body(body), fault, now) == Outcome(t, ErrorResponse(BadRequest, MissingFields))
  {
  }

  /**
   * With the required fields there and accepted by their columns, exactly
   * one alert is appended: the given email and position, the given type or
   * "Unknown" when it is missing or falsy, status "Pending", time `now`.
   */
  lemma InsertsOneAlert(t: Tables, body: Json, now: Timestamp,
                        email: string, kind: string, latitude: string, longitude: string)
    requires body != JNull && Present(body, "userEmail") && Present(body, "latitude") && Present(body, "longitude")
    requires BindText(Field(body, "userEmail").value) == Some(email) && |email| <= 255
    requires BindText(Field(body, "latitude").value) == Some(latitude) && |latitude| <= 100
    requires BindText(Field(body, "longitude").value) == Some(longitude) && |longitude| <= 100
    requires BindText(if Present(body, "emergencyType") then Field(body, "emergencyType").value
                      else JStr("Unknown")) == Some(kind) && |kind| <= 100
    ensures var out := Handle(t, Body(body), None, now);
      && out.response == Saved
      && out.tables == t.(sosAlerts := out.tables.sosAlerts, nextSosId := t.nextSosId + 1)
      && out.tables.sosAlerts == t.sosAlerts + [SosAlert(t.nextSosId, email, kind, latitude, longitude, "Pending", now)]
      && (!Present(body, "emergencyType") ==> kind == "Unknown")
  {
  }

  /**
   * The table changes exactly when the answer is the success message, and
   * then by one alert in status "Pending"; every error leaves it as it was.
   */
  lemma WritesIffSaved(t: Tables, req: Request, fault: Option<string>, now: Timestamp)
    ensures var out := Handle(t, req, fault, now);
      && (out.response == Saved <==> out.tables != t)
      && (out.response == Saved ==>
            |out.tables.sosAlerts| == |t.sosAlerts| + 1
            && out.tables.sosAlerts[..|t.sosAlerts|] == t.sosAlerts
            && out.tables.sosAlerts[|t.sosAlerts|].status == DefaultSosStatus)
      && (out.response.status == ServerError ==> out.response == DatabaseError)
      && out.response.status in {OK, BadRequest, ServerError}
  {
    var out := Handle(t, req, fault, now);
    if out.response == Saved {
      assert out.tables.sosAlerts != t.sosAlerts by {
        assert |out.tables.sosAlerts| == |t.sosAlerts| + 1;
      }
      assert out.tables.sosAlerts[..|t.sosAlerts|] == t.sosAlerts;
    }
  }

  lemma HandleKeepsConsistency(t: Tables, req: Request, fault: Option<string>, now: Timestamp)
    requires Consistent(t)
    ensures Consistent(Handle(t, req, fault, now).tables)
  {
    var out := Handle(t, req, fault, now);
    if out.tables != t {
      var row := out.tables.sosAlerts[|t.sosAlerts|];
      assert out.tables.sosAlerts == t.sosAlerts + [row];
      assert SosIds(t.sosAlerts + [row]) == SosIds(t.sosAlerts) + [row.id];
      IdsBelowAppend(SosIds(t.sosAlerts), t.nextSosId);
    }
  }

  /** POST against the database object. */
  method Post(db: Database, req: Request, fault: Option<string>, now: Timestamp) returns (resp: Response)
    requires db.Valid()
    modifies db
    ensures db.Valid()
    ensures Outcome(db.Snapshot(), resp) == Handle(old(db.Snapshot()), req, fault, now)
  {
    var read := ReadBody(req);
    if read.Failure? {
      return DatabaseError;
    }
    var body := read.value;
    if !Present(body, "userEmail") || !Present(body, "latitude") || !Present(body, "longitude") {
      return ErrorResponse(BadRequest, MissingFields);
    }
    var email := BindVarchar(Field(body, "userEmail").value, EmailLength);
    var kind := BindVarchar(EmergencyType(body), EmergencyTypeLength);
    var latitude := BindVarchar(Field(body, "latitude").value, CoordinateLength);
    var longitude := BindVarchar(Field(body, "longitude").value, CoordinateLength);
    if fault.Some? || email.None? || kind.None? || latitude.None? || longitude.None? {
      return DatabaseError;
    }
    var _ := db.InsertSosAlert(email.value, kind.value, latitude.value, longitude.value, now);
    resp := Saved;
  }
}
