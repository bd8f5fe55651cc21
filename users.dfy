/**
 * app/api/users/route.tsx: find the signed-in user's row by email, or
 * create it with ten credits. The signed-in user (as the session provider
 * reports it) is a parameter.
 */
module Users {
  import opened Wrappers
  import opened JsonData
  import opened Http
  import opened Schema

  /** What currentUser() reports: the primary email and the full name, when set. */
  datatype ClerkUser = ClerkUser(email: Option<string>, fullName: Option<string>)

  const NoUser := "No user logged in"
  const NoEmail := "Logged-in user has no email"
  const AnonymousName := "Anonymous"
  const StartingCredits := 10

  /** `user.fullName ?? "Anonymous"`: only a missing name is replaced, an empty one is kept. */
  function NameOf(user: ClerkUser): (r: string)
    ensures user.fullName.Some? ==> r == user.fullName.value
    ensures user.fullName.None? ==> r == AnonymousName
  {
    if user.fullName.Some? then user.fullName.value else AnonymousName
  }

  /** A users row as the response shows it. */
  function EncodeUser(u: User): Json {
    JObj([("id", JNat(u.id)), ("name", JStr(u.name)), ("email", JStr(u.email)),
          ("credits", if u.credits.Some? then JInt(u.credits.value) else JNull)])
  }

  /** POST on tables `t`; a down database (`fault`) makes the first query throw. */
  function Handle(t: Tables, user: Option<ClerkUser>, fault: Option<string>): Outcome {
    if user.None? then Outcome(t, ErrorResponse(Unauthorized, NoUser))
    else if user.value.email.None? || user.value.email.value == "" then
      Outcome(t, ErrorResponse(BadRequest, NoEmail))
    else if fault.Some? then Outcome(t, ErrorResponse(ServerError, fault.value))
    else
      var email := user.value.email.value;
      match FindEmail(t.users, email)
      case Some(i) => Outcome(t, Response(OK, EncodeUser(t.users[i])))
      case None =>
        var name := NameOf(user.value);
        if |name| > NameLength || |email| > EmailLength then
          Outcome(t, ErrorResponse(ServerError, ConstraintViolation))
        else
          var row := User(t.nextUserId, name, email, Some(StartingCredits));
          Outcome(t.(users := t.users + [row], nextUserId := t.nextUserId + 1), Response(OK, EncodeUser(row)))
  }

  /** No signed-in user: 401. A user without an email: 400. Neither writes. */
  lemma RejectsAnonymousCallers(t: Tables, user: Option<ClerkUser>, fault: Option<string>)
    ensures user.None? ==> Handle(t, user, fault) == Outcome(t, ErrorResponse(Unauthorized, NoUser))
    ensures user.Some? && (user.value.email.None? || user.value.email == Some("")) ==>
              Handle(t, user, fault) == Outcome(t, ErrorResponse(BadRequest, NoEmail))
  {
  }

  /** A stored row with that email is returned as it is, and nothing is written. */
  lemma ReturnsExistingRow(t: Tables, user: ClerkUser, i: nat)
    requires UniqueEmails(t.users)
    requires user.email.Some? && user.email.value != ""
    requires i < |t.users| && t.users[i].email == user.email.value
    ensures Handle(t, Some(user), None) == Outcome(t, Response(OK, EncodeUser(t.users[i])))
  {
    var k := FindEmail(t.users, user.email.value);
    assert k == Some(i);
  }

  /**
   * An unknown email is inserted once, with ten credits and the full name
   * (or "Anonymous" when there is none), and the new row is returned.
   */
  lemma CreatesNewUser(t: Tables, user: ClerkUser)
    requires user.email.Some? && user.email.value != "" && !EmailTaken(t.users, user.email.value)
    requires |NameOf(user)| <= NameLength && |user.email.value| <= EmailLength
    ensures var out := Handle(t, Some(user), None);
      var row := User(t.nextUserId, if user.fullName.Some? then user.fullName.value else "Anonymous",
                      user.email.value, Some(10));
      out == Outcome(t.(users := t.users + [row], nextUserId := t.nextUserId + 1), Response(OK, EncodeUser(row)))
  {
  }

  /** After a 200 a row with the user's email is stored. */
  lemma EmailStoredAfterSuccess(t: Tables, user: ClerkUser, fault: Option<string>)
    requires Handle(t, Some(user), fault).response.status == OK
    ensures EmailTaken(Handle(t, Some(user), fault).tables.users, user.email.value)
  {
    var out := Handle(t, Some(user), fault);
    var email := user.email.value;
    if !EmailTaken(t.users, email) {
      assert out.tables.users[|t.users|].email == email;
    }
  }

  /**
   * Find-or-create is idempotent: a second call for the same user writes
   * nothing and answers exactly as the first.
   */
  lemma Idempotent(t: Tables, user: ClerkUser)
    requires Consistent(t)
    ensures var first := Handle(t, Some(user), None);
      Handle(first.tables, Some(user), None) == Outcome(first.tables, first.response)
  {
    var first := Handle(t, Some(user), None);
    if user.email.Some? && user.email.value != "" {
      var email := user.email.value;
      if FindEmail(t.users, email).None? && first.tables != t {
        var row := User(t.nextUserId, NameOf(user), email, Some(StartingCredits));
        var users := t.users + [row];
        assert first.tables.users == users;
        var k := FindEmail(users, email);
        assert users[|t.users|].email == email;
        assert k == Some(|t.users|);
      }
    }
  }

  /** A database error answers 500 with the error's message and writes nothing. */
  lemma DatabaseErrorReported(t: Tables, user: ClerkUser, m: string)
    requires user.email.Some? && user.email.value != ""
    ensures Handle(t, Some(user), Some(m)) == Outcome(t, ErrorResponse(ServerError, m))
  {
  }

  lemma HandleKeepsConsistency(t: Tables, user: Option<ClerkUser>, fault: Option<string>)
    requires Consistent(t)
    ensures Consistent(Handle(t, user, fault).tables)
  {
    var out := Handle(t, user, fault);
    if out.tables != t {
      var email := user.value.email.value;
      var row := User(t.nextUserId, NameOf(user.value), email, Some(StartingCredits));
      assert out.tables.users == t.users + [row];
      assert UserIds(t.users + [row]) == UserIds(t.users) + [row.id];
      IdsBelowAppend(UserIds(t.users), t.nextUserId);
      forall i | 0 <= i < |t.sessions|
        ensures UserExists(t.users + [row], t.sessions[i].createdBy)
      {
        var j :| 0 <= j < |t.users| && t.users[j].id == t.sessions[i].createdBy;
        assert (t.users + [row])[j] == t.users[j];
      }
    }
  }

  /** POST against the database object. */
  method Post(db: Database, user: Option<ClerkUser>, fault: Option<string>) returns (resp: Response)
    requires db.Valid()
    modifies db
    ensures db.Valid()
    ensures Outcome(db.Snapshot(), resp) == Handle(old(db.Snapshot()), user, fault)
  {
    if user.None? {
      return ErrorResponse(Unauthorized, NoUser);
    }
    var email := user.value.email;
    if email.None? || email.value == "" {
      return ErrorResponse(BadRequest, NoEmail);
    }
    if fault.Some? {
      return ErrorResponse(ServerError, fault.value);
    }
    var existing := FindEmail(db.users, email.value);
    if existing.None? {
      var name := NameOf(user.value);
      if |name| > NameLength || |email.value| > EmailLength {
        return ErrorResponse(ServerError, ConstraintViolation);
      }
      var inserted := db.InsertUser(name, email.value, Some(StartingCredits));
      return Response(OK, EncodeUser(inserted));
    }
    resp := Response(OK, EncodeUser(db.users[existing.value]));
  }
}
