/** `/api/auth/resend`. GET finds a user by the base64 `id` and issues or
    rotates that user's session ticket; POST exchanges a live ticket for a
    verification token, deletes the ticket and mails the link. */
module ResendRoute {
  import opened Common
  import opened Entities
  import opened Http
  import opened Base64
  import opened Store

  const SUBJECT: string := "Email Confirmation"

  /** The link in the confirmation mail. */
  function VerifyUrl(appUrl: string, token: Token): (url: string)
    ensures |url| == |appUrl| + 14 + |token|
    ensures url[..|appUrl|] == appUrl && url[|url| - |token|..] == token
  {
    appUrl + "/verify?token=" + token
  }

  // ----------------------------------------------------------------- POST

  /** The live ticket a POST presents, if it presents one: present in the
      table and with `expires >= now` (a ticket expiring at `now` still counts). */
  predicate LiveTicket(t: Tables, token: Option<string>, now: int) {
    Given(token) && token.value in t.sessions && t.sessions[token.value].expires >= now
  }

  /** POST /api/auth/resend?token=... */
  function PostStep(t: Tables, appUrl: string, token: Option<string>, now: int, newToken: Token): (e: Effect)
    ensures e.tables.(sessions := t.sessions, verificationTokens := t.verificationTokens) == t
    ensures e.response.Status() != 200 ==> e.tables == t && e.mail == []
    ensures !Given(token) ==> e.response == Text(400, Literal("Token is missing"))
    ensures Given(token) && token.value !in t.sessions ==> e.response == Text(400, Literal("Invalid Token"))
    ensures Given(token) && token.value in t.sessions && t.sessions[token.value].expires < now ==>
              e.response == Text(400, Literal("Token expired"))
    ensures e.response.Status() == 200 <==>
              LiveTicket(t, token, now) && t.sessions[token.value].userId in t.users &&
              newToken !in t.verificationTokens
  {
    if !Given(token) then Effect(Text(400, Literal("Token is missing")), t, [])
    else if token.value !in t.sessions then Effect(Text(400, Literal("Invalid Token")), t, [])
    else
      var session := t.sessions[token.value];
      if session.expires < now then Effect(Text(400, Literal("Token expired")), t, [])
      else if session.userId !in t.users then Effect(InternalError, t, [])
      else
        var user := t.users[session.userId];
        if newToken in t.verificationTokens then Effect(InternalError, t, [])
        else
          var t' := t.(verificationTokens := t.verificationTokens[newToken := VerificationToken(user.email, now + TTL)],
                       sessions := t.sessions - {token.value});
          Effect(Data(200, Contact(user.fullName, user.email)), t',
                 [Mail(user.email, SUBJECT, user.fullName, VerifyUrl(appUrl, newToken))])
  }

  /** A successful POST answers with the ticket owner's name and address,
      adds exactly one verification token (for that address, living 30
      minutes), deletes exactly the presented ticket, and mails the link
      carrying the new token to that address. */
  lemma PostIssuesToken(t: Tables, appUrl: string, token: Option<string>, now: int, newToken: Token)
    requires PostStep(t, appUrl, token, now, newToken).response.Status() == 200
    ensures var e := PostStep(t, appUrl, token, now, newToken);
            var user := t.users[t.sessions[token.value].userId];
            && e.response == Data(200, Contact(user.fullName, user.email))
            && e.tables.verificationTokens.Keys == t.verificationTokens.Keys + {newToken}
            && e.tables.verificationTokens[newToken] == VerificationToken(user.email, now + TTL)
            && (forall v :: v in t.verificationTokens ==> e.tables.verificationTokens[v] == t.verificationTokens[v])
            && e.tables.sessions.Keys == t.sessions.Keys - {token.value}
            && (forall s :: s in e.tables.sessions ==> e.tables.sessions[s] == t.sessions[s])
            && |e.tables.sessions| == |t.sessions| - 1
            && e.mail == [Mail(user.email, SUBJECT, user.fullName, VerifyUrl(appUrl, newToken))]
  {
    var e := PostStep(t, appUrl, token, now, newToken);
    assert e.tables.sessions == t.sessions - {token.value};
    assert e.tables.sessions.Keys == t.sessions.Keys - {token.value};
  }

  /** POST keeps the auth invariant and never touches a user row. */
  lemma PostKeepsInvariant(t: Tables, appUrl: string, token: Option<string>, now: int, newToken: Token)
    requires AuthInvariant(t)
    ensures var t' := PostStep(t, appUrl, token, now, newToken).tables;
            AuthInvariant(t') && VerifiedKept(t, t') && t'.users == t.users
  {
  }

  method Post(db: Database, token: Option<string>, now: int, newToken: Token) returns (r: Response)
    modifies db
    ensures var e := PostStep(old(db.Snapshot()), db.appUrl, token, now, newToken);
            r == e.response && db.Snapshot() == e.tables && db.outbox == old(db.outbox) + e.mail
    ensures old(db.Valid()) ==> db.Valid() && VerifiedKept(old(db.Snapshot()), db.Snapshot())
  {
    if db.Valid() { PostKeepsInvariant(db.Snapshot(), db.appUrl, token, now, newToken); }
    if !Given(token) { return Text(400, Literal("Token is missing")); }
    var key := token.value;
    if key !in db.sessions { return Text(400, Literal("Invalid Token")); }
    var session := db.sessions[key];
    if session.expires < now { return Text(400, Literal("Token expired")); }
    // the session's owner, read back by email
    if session.userId !in db.users { return InternalError; }
    var user := db.users[session.userId];
    // verificationToken.create fails on a token already in the table
    if newToken in db.verificationTokens { return InternalError; }
    db.verificationTokens := db.verificationTokens[newToken := VerificationToken(user.email, now + TTL)];
    db.sessions := db.sessions - {key};
    // sendEmail is not awaited: its outcome cannot change the answer
    db.outbox := db.outbox + [Mail(user.email, SUBJECT, user.fullName, VerifyUrl(db.appUrl, newToken))];
    r := Data(200, Contact(user.fullName, user.email));
  }

  // ------------------------------------------------------------------ GET

  /** The address a GET asks about: the base64 decoding of `id`. */
  function RequestedEmail(id: Option<string>): (email: Option<string>)
    ensures email.Some? <==> Given(id) && Atob(id.value).Some?
    ensures email.Some? ==> email == Atob(id.value)
  {
    if Given(id) then Atob(id.value) else None
  }

  /** The session table after the ticket for `uid` is issued under the key
      `newToken`: the user's existing session is re-keyed (`session.update`)
      or, when there is none, one is created. None when another user's row
      already holds `newToken`, which the database refuses. */
  function IssueTicket(sessions: map<Token, Session>, uid: UserId, expires: int, newToken: Token)
    : (r: Option<map<Token, Session>>)
    requires OneSessionPerUser(sessions)
    ensures r.None? <==> newToken in sessions && sessions[newToken].userId != uid
    ensures r.Some? ==>
              && OneSessionPerUser(r.value)
              && newToken in r.value && r.value[newToken] == Session(uid, expires)
              && SessionsOf(r.value, uid) == {newToken}
              && (forall s :: s in sessions && sessions[s].userId != uid ==> s in r.value && r.value[s] == sessions[s])
              && (forall s :: s in r.value && s != newToken ==> s in sessions && sessions[s].userId != uid)
              && |r.value| == |sessions| + (if SessionsOf(sessions, uid) == {} then 1 else 0)
  {
    var ticket := Session(uid, expires);
    match SessionOf(sessions, uid)
    case Some(current) =>
      if newToken != current && newToken in sessions then None
      else
        RekeyFacts(sessions, current, newToken, ticket);
        RekeySize(sessions, current, newToken, ticket);
        Some((sessions - {current})[newToken := ticket])
    case None =>
      if newToken in sessions then None
      else
        CreateFacts(sessions, newToken, ticket);
        Some(sessions[newToken := ticket])
  }

  /** Re-keying a user's only session leaves that user with exactly the new key. */
  lemma RekeyFacts(sessions: map<Token, Session>, current: Token, newToken: Token, ticket: Session)
    requires OneSessionPerUser(sessions)
    requires current in sessions && sessions[current].userId == ticket.userId
    requires newToken == current || newToken !in sessions
    ensures var s' := (sessions - {current})[newToken := ticket];
            && OneSessionPerUser(s')
            && SessionsOf(s', ticket.userId) == {newToken}
            && SessionsOf(sessions, ticket.userId) != {}
            && forall s :: s in s' && s != newToken ==> s in sessions && sessions[s].userId != ticket.userId
  {
    var s' := (sessions - {current})[newToken := ticket];
    forall s | s in s' && s != newToken ensures s in sessions && s' [s] == sessions[s] && sessions[s].userId != ticket.userId {
      assert s != current;
    }
    assert current in SessionsOf(sessions, ticket.userId);
  }

  lemma RekeySize(sessions: map<Token, Session>, current: Token, newToken: Token, ticket: Session)
    requires current in sessions
    requires newToken == current || newToken !in sessions
    ensures |(sessions - {current})[newToken := ticket]| == |sessions|
  {
    var s' := (sessions - {current})[newToken := ticket];
    assert s'.Keys == sessions.Keys - {current} + {newToken};
    if newToken == current {
      assert s'.Keys == sessions.Keys;
    } else {
      assert |sessions.Keys - {current}| == |sessions.Keys| - 1;
    }
  }

  /** Adding the first session of a user keeps one session per user. */
  lemma CreateFacts(sessions: map<Token, Session>, newToken: Token, ticket: Session)
    requires OneSessionPerUser(sessions)
    requires newToken !in sessions
    requires forall s :: s in sessions ==> sessions[s].userId != ticket.userId
    ensures var s' := sessions[newToken := ticket];
            && OneSessionPerUser(s')
            && SessionsOf(s', ticket.userId) == {newToken}
            && |s'| == |sessions| + 1
            && SessionsOf(sessions, ticket.userId) == {}
  {
    var s' := sessions[newToken := ticket];
    assert s'.Keys == sessions.Keys + {newToken};
  }

  /** GET /api/auth/resend?id=... */
  function GetStep(t: Tables, id: Option<string>, now: int, newToken: Token): (e: Effect)
    requires EmailsUnique(t.users) && OneSessionPerUser(t.sessions)
    ensures e.mail == [] && e.tables.(sessions := t.sessions) == t
    ensures e.response.Status() != 200 ==> e.tables == t
    ensures !Given(id) ==> e.response == Text(400, Literal("Missing required field"))
    ensures Given(id) && Atob(id.value).None? ==> e.response == Unhandled
    ensures RequestedEmail(id).Some? && (forall u :: u in t.users ==> t.users[u].email != RequestedEmail(id).value) ==>
              e.response == Text(404, Literal("user with email " + RequestedEmail(id).value + " not found"))
    ensures RequestedEmail(id).Some? &&
            (exists u :: u in t.users && t.users[u].email == RequestedEmail(id).value && t.users[u].emailVerified.Some?) ==>
              e.response == Text(400, Literal("Email already verified"))
    ensures e.response.Status() == 200 <==>
              (&& RequestedEmail(id).Some?
               && UserByEmail(t.users, RequestedEmail(id).value).Some?
               && var uid := UserByEmail(t.users, RequestedEmail(id).value).value;
               && t.users[uid].emailVerified.None?
               && IssueTicket(t.sessions, uid, now + TTL, newToken).Some?)
    ensures (&& RequestedEmail(id).Some?
             && UserByEmail(t.users, RequestedEmail(id).value).Some?
             && var uid := UserByEmail(t.users, RequestedEmail(id).value).value;
             && t.users[uid].emailVerified.None?
             && IssueTicket(t.sessions, uid, now + TTL, newToken).None?) ==>
              e.response == InternalError
  {
    if !Given(id) then Effect(Text(400, Literal("Missing required field")), t, [])
    else match Atob(id.value)
      case None => Effect(Unhandled, t, [])
      case Some(email) =>
        match UserByEmail(t.users, email)
        case None => Effect(Text(404, Literal("user with email " + email + " not found")), t, [])
        case Some(uid) =>
          if t.users[uid].emailVerified.Some? then Effect(Text(400, Literal("Email already verified")), t, [])
          else match IssueTicket(t.sessions, uid, now + TTL, newToken)
            case None => Effect(InternalError, t, [])
            case Some(sessions) => Effect(Data(200, Ticket(newToken, email)), t.(sessions := sessions), [])
  }

  /** A successful GET answers with the new token and the address asked
      about; the token is stored, living 30 minutes, for the unverified user
      with that address, as that user's only session. Every other user's
      sessions are untouched; re-keying keeps the number of sessions and
      creating adds one. */
  lemma GetIssuesTicket(t: Tables, id: Option<string>, now: int, newToken: Token)
    requires EmailsUnique(t.users) && OneSessionPerUser(t.sessions)
    requires GetStep(t, id, now, newToken).response.Status() == 200
    ensures var e := GetStep(t, id, now, newToken);
            && RequestedEmail(id).Some?
            && e.response == Data(200, Ticket(newToken, RequestedEmail(id).value))
            && newToken in e.tables.sessions
            && var owner := e.tables.sessions[newToken].userId;
            && e.tables.sessions[newToken].expires == now + TTL
            && owner in t.users
            && t.users[owner].email == RequestedEmail(id).value
            && t.users[owner].emailVerified.None?
            && SessionsOf(e.tables.sessions, owner) == {newToken}
            && (forall s :: s in t.sessions && t.sessions[s].userId != owner ==>
                  s in e.tables.sessions && e.tables.sessions[s] == t.sessions[s])
            && (forall s :: s in e.tables.sessions && s != newToken ==> s in t.sessions)
            && |e.tables.sessions| == |t.sessions| + (if SessionsOf(t.sessions, owner) == {} then 1 else 0)
  {
  }

  /** GET keeps the auth invariant: the new session belongs to an existing
      user, who is left with one session. */
  lemma GetKeepsInvariant(t: Tables, id: Option<string>, now: int, newToken: Token)
    requires AuthInvariant(t)
    ensures AuthInvariant(GetStep(t, id, now, newToken).tables)
  {
    var e := GetStep(t, id, now, newToken);
    if e.tables != t {
      var uid := UserByEmail(t.users, RequestedEmail(id).value).value;
      var sessions := IssueTicket(t.sessions, uid, now + TTL, newToken).value;
      assert e.tables == t.(sessions := sessions);
      assert forall s :: s in sessions ==> sessions[s].userId in t.users;
    }
  }

  method Get(db: Database, id: Option<string>, now: int, newToken: Token) returns (r: Response)
    requires EmailsUnique(db.users) && OneSessionPerUser(db.sessions)
    modifies db
    ensures r == GetStep(old(db.Snapshot()), id, now, newToken).response
    ensures db.Snapshot() == GetStep(old(db.Snapshot()), id, now, newToken).tables
    ensures db.outbox == old(db.outbox)
    ensures old(db.Valid()) ==> db.Valid() && db.users == old(db.users)
  {
    if db.Valid() { GetKeepsInvariant(db.Snapshot(), id, now, newToken); }
    if !Given(id) { return Text(400, Literal("Missing required field")); }
    // atob runs outside the try block: a malformed id escapes the handler
    var decoded := Atob(id.value);
    if decoded.None? { return Unhandled; }
    var email := decoded.value;
    var found := UserByEmail(db.users, email);
    if found.None? { return Text(404, Literal("user with email " + email + " not found")); }
    var uid := found.value;
    if db.users[uid].emailVerified.Some? { return Text(400, Literal("Email already verified")); }
    var current := SessionOf(db.sessions, uid);
    if current.Some? {
      if newToken != current.value && newToken in db.sessions { return InternalError; }
      db.sessions := (db.sessions - {current.value})[newToken := Session(uid, now + TTL)];
    } else {
      if newToken in db.sessions { return InternalError; }
      db.sessions := db.sessions[newToken := Session(uid, now + TTL)];
    }
    r := Data(200, Ticket(newToken, email));
  }
}
