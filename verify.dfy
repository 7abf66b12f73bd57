/** `/api/auth/verify`. POST consumes a verification token and marks its
    owner's address as verified. */
module VerifyRoute {
  import opened Common
  import opened Entities
  import opened Http
  import opened Store

  /** A token that is present and has not expired (`expires >= now`). */
  predicate LiveToken(t: Tables, token: Option<string>, now: int) {
    Given(token) && token.value in t.verificationTokens && t.verificationTokens[token.value].expires >= now
  }

  /** Some user holds the address the token was issued for. */
  predicate HasOwner(t: Tables, vt: VerificationToken) {
    exists u :: u in t.users && t.users[u].email == vt.identifier
  }

  /** The user the token was issued to, looked up by address. */
  function OwnerOf(t: Tables, vt: VerificationToken): (r: Option<UserId>)
    requires EmailsUnique(t.users)
    ensures r.Some? <==> HasOwner(t, vt)
    ensures r.Some? ==> r.value in t.users && t.users[r.value].email == vt.identifier
  {
    UserByEmail(t.users, vt.identifier)
  }

  /** What happens to a live token: its owner is looked up, the token is
      deleted, and the owner is marked verified unless already so. */
  function Redeem(t: Tables, key: Token, now: int): (e: Effect)
    requires EmailsUnique(t.users) && key in t.verificationTokens
    ensures e.mail == []
    ensures OwnerOf(t, t.verificationTokens[key]).None? ==> e.response == InternalError && e.tables == t
    ensures OwnerOf(t, t.verificationTokens[key]).Some? ==>
              e.tables.(users := t.users) == t.(verificationTokens := t.verificationTokens - {key})
    ensures e.response.Status() != 200 ==> e.tables.users == t.users
    ensures e.response.Status() == 200 <==>
              var owner := OwnerOf(t, t.verificationTokens[key]);
              owner.Some? && t.users[owner.value].emailVerified.None?
  {
    match OwnerOf(t, t.verificationTokens[key])
    case None => Effect(InternalError, t, [])
    case Some(uid) =>
      var user := t.users[uid];
      var remaining := t.verificationTokens - {key};
      if user.emailVerified.Some? then
        Effect(Text(400, Literal("Email already verified")), t.(verificationTokens := remaining), [])
      else
        Effect(Data(200, UserRecord(uid, user)),
               t.(users := t.users[uid := user.(emailVerified := Some(now))], verificationTokens := remaining), [])
  }

  /** POST /api/auth/verify?token=...: a missing, unknown or expired token
      is refused and nothing changes; a live one is redeemed. */
  function PostStep(t: Tables, token: Option<string>, now: int): (e: Effect)
    requires EmailsUnique(t.users)
    ensures e.mail == []
    ensures e.tables.(users := t.users, verificationTokens := t.verificationTokens) == t
    ensures !Given(token) ==> e.response == Text(400, Literal("Token is missing")) && e.tables == t
    ensures Given(token) && token.value !in t.verificationTokens ==>
              e.response == Text(400, Literal("Bad Request")) && e.tables == t
    ensures Given(token) && token.value in t.verificationTokens && t.verificationTokens[token.value].expires < now ==>
              e.response == Text(400, Literal("Token Expired")) && e.tables == t
    ensures LiveToken(t, token, now) ==> e == Redeem(t, token.value, now)
  {
    if !Given(token) then Effect(Text(400, Literal("Token is missing")), t, [])
    else if token.value !in t.verificationTokens then Effect(Text(400, Literal("Bad Request")), t, [])
    else if t.verificationTokens[token.value].expires < now then Effect(Text(400, Literal("Token Expired")), t, [])
    else Redeem(t, token.value, now)
  }

  /** Verification succeeds exactly for a live token whose owner exists and
      is not verified yet; a live token without owner gives 500; whenever it
      does not succeed, the user table is untouched. */
  lemma PostOutcome(t: Tables, token: Option<string>, now: int)
    requires EmailsUnique(t.users)
    ensures var e := PostStep(t, token, now);
            && (LiveToken(t, token, now) && OwnerOf(t, t.verificationTokens[token.value]).None? ==>
                  e.response == InternalError && e.tables == t)
            && (e.response.Status() != 200 ==> e.tables.users == t.users)
            && (e.response.Status() == 200 <==>
                  && LiveToken(t, token, now)
                  && var owner := OwnerOf(t, t.verificationTokens[token.value]);
                  && owner.Some? && t.users[owner.value].emailVerified.None?)
  {
    if LiveToken(t, token, now) {
      var e := Redeem(t, token.value, now);
    }
  }

  /** Setting `emailVerified` on one unverified row keeps the auth invariant
      and changes nothing else about the user table. */
  lemma MarkVerified(t: Tables, uid: UserId, now: int)
    requires uid in t.users && t.users[uid].emailVerified.None?
    ensures var users := t.users[uid := t.users[uid].(emailVerified := Some(now))];
            && (AuthInvariant(t) ==> AuthInvariant(t.(users := users)))
            && VerifiedKept(t, t.(users := users))
            && users.Keys == t.users.Keys
  {
    var users := t.users[uid := t.users[uid].(emailVerified := Some(now))];
    assert forall u :: u in users ==> users[u].email == t.users[u].email;
    assert users.Keys == t.users.Keys;
  }

  /** Verification keeps the auth invariant; no user row appears or
      disappears, and a row changes only from unverified to verified at `now`. */
  lemma PostKeepsUsers(t: Tables, token: Option<string>, now: int)
    requires AuthInvariant(t)
    ensures var t' := PostStep(t, token, now).tables;
            && AuthInvariant(t')
            && VerifiedKept(t, t')
            && t'.users.Keys == t.users.Keys
            && forall u :: u in t.users ==>
                 t'.users[u] == t.users[u] ||
                 (t.users[u].emailVerified.None? && t'.users[u] == t.users[u].(emailVerified := Some(now)))
  {
    var e := PostStep(t, token, now);
    if e.response.Status() == 200 {
      var uid := OwnerOf(t, t.verificationTokens[token.value]).value;
      assert e.tables.users == t.users[uid := t.users[uid].(emailVerified := Some(now))];
      MarkVerified(t, uid, now);
    } else {
      assert e.tables.users == t.users;
    }
  }

  /** A live token whose owner exists is consumed, whether or not the address
      was verified already; an already verified owner is left as it was. */
  lemma PostConsumesToken(t: Tables, token: Option<string>, now: int)
    requires EmailsUnique(t.users)
    requires LiveToken(t, token, now) && HasOwner(t, t.verificationTokens[token.value])
    ensures PostStep(t, token, now).tables.verificationTokens == t.verificationTokens - {token.value}
    ensures (exists u :: u in t.users && t.users[u].email == t.verificationTokens[token.value].identifier &&
                         t.users[u].emailVerified.Some?) ==>
              PostStep(t, token, now).response == Text(400, Literal("Email already verified")) &&
              PostStep(t, token, now).tables.users == t.users
  {
  }

  /** A successful verification marks exactly the token's owner as verified
      at `now`, and answers with that row as it was read, before the update. */
  lemma PostVerifiesOwner(t: Tables, token: Option<string>, now: int)
    requires EmailsUnique(t.users)
    requires PostStep(t, token, now).response.Status() == 200
    ensures var e := PostStep(t, token, now);
            && e.response.Data? && e.response.payload.UserRecord?
            && var uid := e.response.payload.id;
            && uid in t.users
            && t.users[uid].email == t.verificationTokens[token.value].identifier
            && e.tables.users == t.users[uid := t.users[uid].(emailVerified := Some(now))]
            && e.tables.verificationTokens == t.verificationTokens - {token.value}
            && e.response.payload.user == t.users[uid]
            && e.response.payload.user.emailVerified.None?
  {
  }

  method Post(db: Database, token: Option<string>, now: int) returns (r: Response)
    requires EmailsUnique(db.users)
    modifies db
    ensures r == PostStep(old(db.Snapshot()), token, now).response
    ensures db.Snapshot() == PostStep(old(db.Snapshot()), token, now).tables
    ensures db.outbox == old(db.outbox)
    ensures old(db.Valid()) ==> db.Valid() && VerifiedKept(old(db.Snapshot()), db.Snapshot())
  {
    if db.Valid() { PostKeepsUsers(db.Snapshot(), token, now); }
    if !Given(token) { return Text(400, Literal("Token is missing")); }
    var key := token.value;
    if key !in db.verificationTokens { return Text(400, Literal("Bad Request")); }
    var vt := db.verificationTokens[key];
    if vt.expires < now { return Text(400, Literal("Token Expired")); }
    var found := OwnerOf(db.Snapshot(), vt);
    if found.None? { return InternalError; }
    var uid := found.value;
    var user := db.users[uid];
    if user.emailVerified.Some? {
      db.verificationTokens := db.verificationTokens - {key};
      return Text(400, Literal("Email already verified"));
    }
    db.users := db.users[uid := user.(emailVerified := Some(now))];
    db.verificationTokens := db.verificationTokens - {key};
    r := Data(200, UserRecord(uid, user));
  }
}
