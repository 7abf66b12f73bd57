/** `/api/auth/register`. POST validates the body, creates an unverified
    user with a hashed password, and opens the user's first session ticket. */
module RegisterRoute {
  import opened Common
  import opened Json
  import opened Entities
  import opened Http
  import opened Store
  import Formats

  /** Bcrypt cost factor the route hashes with. */
  const HASH_ROUNDS: nat := 10

  /** The fields `createUserSchema` keeps. */
  datatype NewUser = NewUser(email: string, password: string, fullName: string)

  /** `createUserSchema.safeParse(body)`: an object whose `email` is a string
      zod accepts as an address, whose `password` is a string of at least 8
      UTF-16 units, and whose `fullName` is a string. Other keys are dropped. */
  function CreateUserSchema(body: Json): (r: Option<NewUser>)
    ensures r.Some? <==>
              && StringField(body, "email").Some? && Formats.IsEmail(StringField(body, "email").value)
              && StringField(body, "password").Some? && JsLength(StringField(body, "password").value) >= 8
              && StringField(body, "fullName").Some?
    ensures r.Some? ==>
              && r.value.email == StringField(body, "email").value
              && r.value.password == StringField(body, "password").value
              && r.value.fullName == StringField(body, "fullName").value
  {
    var email :- StringField(body, "email");
    var password :- StringField(body, "password");
    var fullName :- StringField(body, "fullName");
    if Formats.IsEmail(email) && JsLength(password) >= 8 then Some(NewUser(email, password, fullName))
    else None
  }

  /** Some user already holds the address. */
  predicate Taken(users: map<UserId, User>, email: string) {
    exists id :: id in users && users[id].email == email
  }

  /** The row register creates: unverified, without picture, password hashed. */
  function NewRow(input: NewUser): (u: User)
    ensures u.email == input.email && u.fullName == input.fullName
    ensures u.password == Some(Bcrypt(HASH_ROUNDS, input.password))
    ensures u.emailVerified.None? && u.picture.None?
  {
    User(input.email, input.fullName, Some(Bcrypt(HASH_ROUNDS, input.password)), None, None)
  }

  /** POST /api/auth/register. `body` is None when the request body is not
      JSON; `newUserId` and `newToken` are the generated keys. */
  function PostStep(t: Tables, body: Option<Json>, now: int, newUserId: UserId, newToken: Token): (e: Effect)
    ensures e.mail == []
    ensures e.tables.(users := t.users, sessions := t.sessions) == t
    // existing users are never changed
    ensures forall u :: u in t.users ==> u in e.tables.users && e.tables.users[u] == t.users[u]
    ensures body.None? ==> e.response == Unhandled && e.tables == t
    ensures body.Some? && CreateUserSchema(body.value).None? ==> e.response == Text(400, ZodIssues) && e.tables == t
    ensures body.Some? && CreateUserSchema(body.value).Some? && Taken(t.users, CreateUserSchema(body.value).value.email) ==>
              e.response == Text(400, Literal("user already exists")) && e.tables == t
    ensures e.response.Status() == 201 <==>
              && body.Some? && CreateUserSchema(body.value).Some?
              && !Taken(t.users, CreateUserSchema(body.value).value.email)
              && newUserId !in t.users && newToken !in t.sessions
  {
    match body
    case None => Effect(Unhandled, t, [])
    case Some(json) =>
      match CreateUserSchema(json)
      case None => Effect(Text(400, ZodIssues), t, [])
      case Some(input) =>
        if Taken(t.users, input.email) then Effect(Text(400, Literal("user already exists")), t, [])
        else if newUserId in t.users then Effect(InternalError, t, [])
        else
          var created := t.(users := t.users[newUserId := NewRow(input)]);
          // the user row stays even when the session cannot be created
          if newToken in t.sessions then Effect(InternalError, created, [])
          else
            Effect(Data(201, Registered(UserView(newUserId, input.fullName, input.email, None), newToken)),
                   created.(sessions := t.sessions[newToken := Session(newUserId, now + TTL)]), [])
  }

  /** A successful registration adds exactly one user (unverified, holding
      the bcrypt hash of the password) and exactly one session
      for that user, whose key is the token in the answer. */
  lemma PostCreatesUser(t: Tables, body: Option<Json>, now: int, newUserId: UserId, newToken: Token)
    requires PostStep(t, body, now, newUserId, newToken).response.Status() == 201
    ensures var e := PostStep(t, body, now, newUserId, newToken);
            var input := CreateUserSchema(body.value).value;
            && e.tables.users == t.users[newUserId := NewRow(input)]
            && e.tables.sessions == t.sessions[newToken := Session(newUserId, now + TTL)]
            && e.response == Data(201, Registered(UserView(newUserId, input.fullName, input.email, None), newToken))
  {
  }

  /** Registration keeps the auth invariant, including when it fails after
      the user row was written. */
  lemma PostKeepsInvariant(t: Tables, body: Option<Json>, now: int, newUserId: UserId, newToken: Token)
    requires AuthInvariant(t)
    ensures var t' := PostStep(t, body, now, newUserId, newToken).tables;
            AuthInvariant(t') && VerifiedKept(t, t')
  {
    var e := PostStep(t, body, now, newUserId, newToken);
    if e.tables.users != t.users {
      var input := CreateUserSchema(body.value).value;
      assert e.tables.users == t.users[newUserId := NewRow(input)];
      assert !Taken(t.users, input.email);
      forall a, b | a in e.tables.users && b in e.tables.users && e.tables.users[a].email == e.tables.users[b].email
        ensures a == b
      {
        if a != newUserId && b != newUserId {
          assert e.tables.users[a] == t.users[a] && e.tables.users[b] == t.users[b];
        }
      }
    }
  }

  /** When the generated session key is already taken, the answer is 500 but
      the new user row has been written: the address is then taken and a
      second attempt is refused with "user already exists". */
  lemma SessionClashLeavesUser(t: Tables, body: Option<Json>, now: int, newUserId: UserId, newToken: Token)
    requires body.Some? && CreateUserSchema(body.value).Some?
    requires !Taken(t.users, CreateUserSchema(body.value).value.email)
    requires newUserId !in t.users && newToken in t.sessions
    ensures var e := PostStep(t, body, now, newUserId, newToken);
            && e.response == InternalError
            && newUserId in e.tables.users
            && forall id, key :: PostStep(e.tables, body, now, id, key).response == Text(400, Literal("user already exists"))
  {
    var e := PostStep(t, body, now, newUserId, newToken);
    var input := CreateUserSchema(body.value).value;
    assert e.tables.users[newUserId].email == input.email;
    assert Taken(e.tables.users, input.email);
  }

  method Post(db: Database, body: Option<Json>, now: int, newUserId: UserId, newToken: Token) returns (r: Response)
    modifies db
    ensures r == PostStep(old(db.Snapshot()), body, now, newUserId, newToken).response
    ensures db.Snapshot() == PostStep(old(db.Snapshot()), body, now, newUserId, newToken).tables
    ensures db.outbox == old(db.outbox)
    ensures old(db.Valid()) ==> db.Valid() && VerifiedKept(old(db.Snapshot()), db.Snapshot())
  {
    if db.Valid() { PostKeepsInvariant(db.Snapshot(), body, now, newUserId, newToken); }
    // request.json() runs outside the try block
    if body.None? { return Unhandled; }
    var validation := CreateUserSchema(body.value);
    if validation.None? { return Text(400, ZodIssues); }
    var input := validation.value;
    if Taken(db.users, input.email) { return Text(400, Literal("user already exists")); }
    if newUserId in db.users { return InternalError; }
    db.users := db.users[newUserId := NewRow(input)];
    if newToken in db.sessions { return InternalError; }
    db.sessions := db.sessions[newToken := Session(newUserId, now + TTL)];
    r := Data(201, Registered(UserView(newUserId, input.fullName, input.email, None), newToken));
  }
}
