/** The login form: its schema, the `resend` helper that asks for a new
    ticket by base64 address, and the branching of `handleLoginCredentials`
    on the outcome of the credentials sign-in. */
module LoginForm {
  import opened Common
  import opened Http
  import opened Client
  import opened Base64
  import Formats

  datatype Values = Values(email: string, password: string)

  /** The sign-in error that asks for a verified address first. */
  const VERIFY_FIRST: string := "Please verify your email"
  const SOMETHING_WRONG: string := "Something went wrong!"

  const RESEND_PATH: string := "/api/auth/resend?id="

  /** `loginSchema`: the message under each field, or None. */
  function LoginSchema(v: Values): (e: (Option<string>, Option<string>))
    ensures e.0.None? && e.1.None? <==>
              v.email != "" && Formats.IsEmail(v.email) && PASSWORD_MIN <= JsLength(v.password) <= PASSWORD_MAX
    ensures e.1 == PasswordError(v.password, "Password is required")
  {
    (EmailError(v.email), PasswordError(v.password, "Password is required"))
  }

  // --------------------------------------------------------------- resend

  /** The URL `resend` requests: `btoa(email)` pasted into the query without
      escaping. None where `btoa` throws, which the catch block turns into a
      toast and a null token. */
  function ResendUrl(email: string): (url: Option<string>)
    ensures url.Some? <==> IsLatin1(email)
    ensures url.Some? ==> url.value == RESEND_PATH + Btoa(email).value
  {
    var id :- Btoa(email);
    Some(RESEND_PATH + id)
  }

  /** What `resend` settles to. */
  datatype ResendResult =
    | Issued(token: string)   // `res.data.data.token`
    | NoToken                 // a 2xx answer without a ticket: `undefined`
    | Failed                  // the catch block: a toast with the error's message, then null

  /** `resend(email)`, given the server's answer (None when none arrived). */
  function Resend(email: string, reply: Option<Response>): (r: ResendResult)
    ensures !IsLatin1(email) ==> r == Failed
    ensures r.Issued? <==>
              IsLatin1(email) && reply.Some? && 200 <= reply.value.Status() < 300 &&
              reply.value.Data? && reply.value.payload.Ticket?
    ensures r.Issued? ==> r.token == reply.value.payload.token
    ensures r.Failed? <==> !IsLatin1(email) || reply.None? || !(200 <= reply.value.Status() < 300)
  {
    if ResendUrl(email).None? then Failed
    else match reply
      case None => Failed
      case Some(res) =>
        if !(200 <= res.Status() < 300) then Failed
        else if res.Data? && res.payload.Ticket? then Issued(res.payload.token)
        else NoToken
  }

  // --------------------------------------------------------------- sign-in

  /** What `signIn("credentials", { redirect: false })` settles to. */
  datatype SignIn =
    | Returned(error: Option<string>, status: int)
    | NoResult                 // `res` is undefined
    | Threw(message: string)

  /** `handleLoginCredentials` after the sign-in and, when it asks for one,
      the resend call. */
  function HandleLogin(signIn: SignIn, resend: ResendResult): (actions: seq<Action>)
    ensures signIn.Threw? ==> actions == [Toast(signIn.message)]
    ensures signIn.NoResult? || (signIn.Returned? && !Given(signIn.error)) ==> actions == [Replace("/")]
    // an unverified account with a ticket goes to the waiting page
    ensures signIn == Returned(Some(VERIFY_FIRST), 401) && resend.Issued? && resend.token != "" ==>
              actions == [Push(VERIFY_EMAIL_PAGE + resend.token)]
    // without a ticket the handler falls through to the home page
    ensures signIn == Returned(Some(VERIFY_FIRST), 401) && !(resend.Issued? && resend.token != "") ==>
              actions == (if resend.Failed? then [ToastRequestError] else []) + [Replace("/")]
    // every other error is shown: its own text, or the generic one for a 500
    ensures signIn.Returned? && Given(signIn.error) && !(signIn.status == 401 && signIn.error.value == VERIFY_FIRST) ==>
              actions == [Toast(if signIn.status == 500 then SOMETHING_WRONG else signIn.error.value)]
    ensures |actions| <= 2 && (|actions| == 2 ==> actions[0] == ToastRequestError)
  {
    match signIn
    case Threw(message) => [Toast(message)]
    case NoResult => [Replace("/")]
    case Returned(error, status) =>
      if !Given(error) then [Replace("/")]
      else if status == 401 && error.value == VERIFY_FIRST then
        match resend
        case Issued(token) => if token != "" then [Push(VERIFY_EMAIL_PAGE + token)] else [Replace("/")]
        case NoToken => [Replace("/")]
        case Failed => [ToastRequestError, Replace("/")]
      else if status != 500 then [Toast(error.value)]
      else [Toast(SOMETHING_WRONG)]
  }
}
