/** The account life cycle across requests: register, ask for a ticket by
    address, trade the ticket for a mailed verification token, verify. Each
    lemma chains the step functions of several requests. */
module Lifecycle {
  import opened Common
  import opened Entities
  import opened Http
  import opened Base64
  import opened Client
  import Formats
  import Json
  import ResendRoute
  import VerifyRoute
  import RegisterRoute
  import RegisterForm
  import LoginForm

  // ------------------------------------------------- the address in a URL

  /** A valid address encodes to base64 without '+', so the query string
      carries it unchanged. */
  lemma EmailSurvivesQuery(email: string)
    requires Formats.IsEmail(email)
    ensures IsLatin1(email) && Btoa(email).Some?
    ensures QueryValue(Btoa(email).value) == Btoa(email).value
  {
    Formats.EmailChars(email);
    assert IsLatin1(email);
    NoPlusInEncode(email);
    var raw := Btoa(email).value;
    assert QueryValue(raw) == raw;
  }

  /** Base64 of a non-empty string is non-empty. */
  lemma EncodeNonEmpty(s: string)
    requires IsLatin1(s) && s != []
    ensures Btoa(s).Some? && Btoa(s).value != ""
  {
    var b := BytesOf(s);
    assert |Sextets(b)| > 0;
    assert |CharsOf(Sextets(b))| > 0;
  }

  /** The address the login form sends to `resend` is the address the
      ticket route reads back: `atob` of the query value undoes `btoa`. */
  lemma {:induction false} ResendIdReadsBack(email: string)
    requires Formats.IsEmail(email)
    ensures LoginForm.ResendUrl(email).Some?
    ensures Given(Some(QueryValue(Btoa(email).value)))
    ensures ResendRoute.RequestedEmail(Some(QueryValue(Btoa(email).value))) == Some(email)
  {
    EmailSurvivesQuery(email);
    EncodeNonEmpty(email);
    AtobBtoa(email);
  }

  // ------------------------------------------------------ single-use tokens

  /** A verification token works once: after a successful verification the
      same token is unknown, whatever the time. */
  lemma {:induction false} TokenSingleUse(t: Tables, token: Option<string>, now: int, later: int)
    requires AuthInvariant(t)
    requires VerifyRoute.PostStep(t, token, now).response.Status() == 200
    ensures var t' := VerifyRoute.PostStep(t, token, now).tables;
            && EmailsUnique(t'.users)
            && VerifyRoute.PostStep(t', token, later) == Effect(Text(400, Literal("Bad Request")), t', [])
  {
    VerifyRoute.PostKeepsUsers(t, token, now);
    VerifyRoute.PostVerifiesOwner(t, token, now);
  }

  /** A ticket works once: after the resend POST the same ticket is invalid. */
  lemma {:induction false} TicketSingleUse(t: Tables, appUrl: string, token: Option<string>, now: int, newToken: Token,
                                           later: int, newToken': Token)
    requires ResendRoute.PostStep(t, appUrl, token, now, newToken).response.Status() == 200
    ensures var t' := ResendRoute.PostStep(t, appUrl, token, now, newToken).tables;
            ResendRoute.PostStep(t', appUrl, token, later, newToken').response == Text(400, Literal("Invalid Token"))
  {
    ResendRoute.PostIssuesToken(t, appUrl, token, now, newToken);
  }

  // ------------------------------------------------------ asking twice

  /** A ticket request for an unverified user who already holds the session
      `k1` re-keys it to a fresh `k2`: one session under the new key, the
      table keeps its size, and `k1` no longer opens anything. */
  lemma {:induction false} TicketRekeyed(t: Tables, id: Option<string>, now: int, k1: Token, k2: Token,
                                         appUrl: string, newToken: Token)
    requires AuthInvariant(t)
    requires ResendRoute.RequestedEmail(id).Some?
    requires k1 in t.sessions && k1 != "" && k2 !in t.sessions
    requires var owner := t.sessions[k1].userId;
             owner in t.users && t.users[owner].email == ResendRoute.RequestedEmail(id).value &&
             t.users[owner].emailVerified.None?
    ensures var e := ResendRoute.GetStep(t, id, now, k2);
            && e.response == Data(200, Ticket(k2, ResendRoute.RequestedEmail(id).value))
            && SessionsOf(e.tables.sessions, t.sessions[k1].userId) == {k2}
            && |e.tables.sessions| == |t.sessions|
            && k1 !in e.tables.sessions
            && ResendRoute.PostStep(e.tables, appUrl, Some(k1), now, newToken).response ==
                 Text(400, Literal("Invalid Token"))
  {
    var owner := t.sessions[k1].userId;
    var email := ResendRoute.RequestedEmail(id).value;
    assert UserByEmail(t.users, email) == Some(owner);
    assert SessionOf(t.sessions, owner) == Some(k1);
    assert k1 in SessionsOf(t.sessions, owner);
    var e := ResendRoute.GetStep(t, id, now, k2);
    assert e.response.Status() == 200;
    ResendRoute.GetIssuesTicket(t, id, now, k2);
  }

  /** Asking twice for a ticket by the same address: the second request
      re-keys the ticket the first one issued. */
  lemma {:induction false} SecondTicketReplacesFirst(t: Tables, id: Option<string>, now: int, k1: Token,
                                                     later: int, k2: Token, appUrl: string, newToken: Token)
    requires AuthInvariant(t)
    requires ResendRoute.GetStep(t, id, now, k1).response.Status() == 200
    requires k1 != "" && k2 !in ResendRoute.GetStep(t, id, now, k1).tables.sessions
    ensures var t1 := ResendRoute.GetStep(t, id, now, k1).tables;
            && AuthInvariant(t1)
            && var e2 := ResendRoute.GetStep(t1, id, later, k2);
            && e2.response == Data(200, Ticket(k2, ResendRoute.RequestedEmail(id).value))
            && k1 in t1.sessions
            && SessionsOf(e2.tables.sessions, t1.sessions[k1].userId) == {k2}
            && |e2.tables.sessions| == |t1.sessions|
            && k1 !in e2.tables.sessions
            && ResendRoute.PostStep(e2.tables, appUrl, Some(k1), later, newToken).response ==
                 Text(400, Literal("Invalid Token"))
  {
    ResendRoute.GetIssuesTicket(t, id, now, k1);
    ResendRoute.GetKeepsInvariant(t, id, now, k1);
    var t1 := ResendRoute.GetStep(t, id, now, k1).tables;
    assert t1.users == t.users;
    TicketRekeyed(t1, id, later, k1, k2, appUrl, newToken);
  }

  // ------------------------------------------------------ the whole flow

  /** Right after registering, the ticket register answered with is live
      and belongs to the new user, who is unverified and the only holder of
      the address. */
  lemma {:induction false} RegisteredTicket(t: Tables, body: Option<Json.Json>, now: int, uid: UserId, ticket: Token)
    requires AuthInvariant(t)
    requires RegisterRoute.PostStep(t, body, now, uid, ticket).response.Status() == 201
    ensures var t1 := RegisterRoute.PostStep(t, body, now, uid, ticket).tables;
            var input := RegisterRoute.CreateUserSchema(body.value).value;
            && AuthInvariant(t1)
            && ticket in t1.sessions && t1.sessions[ticket] == Session(uid, now + TTL)
            && uid in t1.users && t1.users[uid] == RegisterRoute.NewRow(input)
            && t1.verificationTokens == t.verificationTokens
  {
    RegisterRoute.PostCreatesUser(t, body, now, uid, ticket);
    RegisterRoute.PostKeepsInvariant(t, body, now, uid, ticket);
  }

  /** Trading a live ticket of an unverified user for a token and following
      the link within 30 minutes verifies that user at the moment of the
      click. */
  lemma {:induction false} ResendThenVerify(t: Tables, appUrl: string, ticket: Token, now: int, token: Token, later: int)
    requires AuthInvariant(t)
    requires ResendRoute.PostStep(t, appUrl, Some(ticket), now, token).response.Status() == 200
    requires token != "" && later <= now + TTL
    requires t.users[t.sessions[ticket].userId].emailVerified.None?
    ensures var t2 := ResendRoute.PostStep(t, appUrl, Some(ticket), now, token).tables;
            && EmailsUnique(t2.users)
            && var e3 := VerifyRoute.PostStep(t2, Some(token), later);
            && e3.response.Status() == 200
            && e3.tables.users == t.users[t.sessions[ticket].userId :=
                 t.users[t.sessions[ticket].userId].(emailVerified := Some(later))]
  {
    var uid := t.sessions[ticket].userId;
    ResendRoute.PostIssuesToken(t, appUrl, Some(ticket), now, token);
    var t2 := ResendRoute.PostStep(t, appUrl, Some(ticket), now, token).tables;
    assert t2.users == t.users;
    assert VerifyRoute.OwnerOf(t2, t2.verificationTokens[token]) == Some(uid);
    VerifyRoute.PostVerifiesOwner(t2, Some(token), later);
  }

  /** Register, trade the ticket register answers with for a mailed token,
      then follow the link within 30 minutes: the mail went to the registered
      address with a link carrying the token, and the new user ends verified
      at the moment of the click. */
  lemma {:induction false} RegisterResendVerify(t: Tables, body: Option<Json.Json>, now: int, uid: UserId, ticket: Token,
                                                appUrl: string, token: Token, later: int)
    requires AuthInvariant(t)
    requires RegisterRoute.PostStep(t, body, now, uid, ticket).response.Status() == 201
    requires ticket != "" && token != "" && token !in t.verificationTokens
    requires later <= now + TTL
    ensures var t1 := RegisterRoute.PostStep(t, body, now, uid, ticket).tables;
            var input := RegisterRoute.CreateUserSchema(body.value).value;
            var e2 := ResendRoute.PostStep(t1, appUrl, Some(ticket), now, token);
            && e2.response == Data(200, Contact(input.fullName, input.email))
            && e2.mail == [Mail(input.email, ResendRoute.SUBJECT, input.fullName, ResendRoute.VerifyUrl(appUrl, token))]
            && EmailsUnique(e2.tables.users)
            && var e3 := VerifyRoute.PostStep(e2.tables, Some(token), later);
            && e3.response.Status() == 200
            && uid in e3.tables.users
            && e3.tables.users[uid].emailVerified == Some(later)
  {
    RegisteredTicket(t, body, now, uid, ticket);
    var t1 := RegisterRoute.PostStep(t, body, now, uid, ticket).tables;
    assert ResendRoute.PostStep(t1, appUrl, Some(ticket), now, token).response.Status() == 200;
    ResendRoute.PostIssuesToken(t1, appUrl, Some(ticket), now, token);
    ResendThenVerify(t1, appUrl, ticket, now, token, later);
  }

  // -------------------------------------------------------- the two forms

  /** What the register form lets through is created, and the page goes on
      to the waiting page with the ticket; an address already registered is
      refused and the page says so. */
  lemma {:induction false} RegisterFormFlow(v: RegisterForm.Values, t: Tables, now: int, uid: UserId, ticket: Token)
    requires RegisterForm.RegisterSchema(v).None()
    ensures var e := RegisterRoute.PostStep(t, Some(RegisterForm.RequestBody(v)), now, uid, ticket);
            && (!RegisterRoute.Taken(t.users, v.email) && uid !in t.users && ticket !in t.sessions ==>
                  e.response.Status() == 201 &&
                  RegisterForm.HandleRegister(Some(e.response)) == Push(VERIFY_EMAIL_PAGE + ticket))
            && (RegisterRoute.Taken(t.users, v.email) ==>
                  RegisterForm.HandleRegister(Some(e.response)) == Toast(RegisterForm.ALREADY_REGISTERED))
  {
    RegisterForm.FormImpliesServerSchema(v);
  }

  /** Signing in with an unverified address: the form asks for a ticket by
      that address, the route issues one for its owner, and the page goes
      to the waiting page with it. */
  lemma {:induction false} UnverifiedLoginGetsTicket(t: Tables, email: string, now: int, ticket: Token)
    requires AuthInvariant(t)
    requires Formats.IsEmail(email)
    requires exists u :: u in t.users && t.users[u].email == email && t.users[u].emailVerified.None?
    requires ticket != "" && ticket !in t.sessions
    ensures IsLatin1(email)
    ensures var e := ResendRoute.GetStep(t, Some(QueryValue(Btoa(email).value)), now, ticket);
            && e.response == Data(200, Ticket(ticket, email))
            && LoginForm.Resend(email, Some(e.response)) == LoginForm.Issued(ticket)
            && LoginForm.HandleLogin(LoginForm.Returned(Some(LoginForm.VERIFY_FIRST), 401), LoginForm.Issued(ticket)) ==
                 [Push(VERIFY_EMAIL_PAGE + ticket)]
  {
    ResendIdReadsBack(email);
    var id := Some(QueryValue(Btoa(email).value));
    var uid := UserByEmail(t.users, email).value;
    assert t.users[uid].emailVerified.None?;
    assert ResendRoute.IssueTicket(t.sessions, uid, now + TTL, ticket).Some?;
  }
}
