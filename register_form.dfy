/** The register form: its schema (four string fields and a refinement that
    the two passwords agree), the body it posts, and what it does with the
    answer. */
module RegisterForm {
  import opened Common
  import opened Json
  import opened Http
  import opened Client
  import Formats
  import RegisterRoute

  datatype Values = Values(email: string, fullName: string, password: string, confirmPassword: string)

  const PASSWORDS_DIFFER: string := "Passwords don't match"
  const ALREADY_REGISTERED: string := "User already registered using email or google"
  const SOMETHING_WRONG: string := "Something went wrong"

  /** The messages shown under each field, in field order. The refinement
      runs after the field checks (they only mark the result dirty) and its
      issue goes to `confirmPassword`, after that field's own. */
  datatype Errors = Errors(email: Option<string>, fullName: Option<string>,
                           password: Option<string>, confirmPassword: Option<string>)
  {
    predicate None() {
      email.None? && fullName.None? && password.None? && confirmPassword.None?
    }
  }

  function RegisterSchema(v: Values): (e: Errors)
    ensures e.None() <==>
              && v.email != "" && Formats.IsEmail(v.email)
              && v.fullName != ""
              && PASSWORD_MIN <= JsLength(v.password) <= PASSWORD_MAX
              && PASSWORD_MIN <= JsLength(v.confirmPassword) <= PASSWORD_MAX
              && v.password == v.confirmPassword
    ensures v.fullName == "" ==> e.fullName == Some("Full Name is required")
    // a mismatch is reported on confirmPassword, once that field passes its own checks
    ensures v.password != v.confirmPassword && PasswordError(v.confirmPassword, "Confirm password is required").None? ==>
              e.confirmPassword == Some(PASSWORDS_DIFFER)
    ensures e.password == PasswordError(v.password, "Password is required")
  {
    var confirm := PasswordError(v.confirmPassword, "Confirm password is required");
    Errors(EmailError(v.email),
           if JsLength(v.fullName) < 1 then Some("Full Name is required") else None,
           PasswordError(v.password, "Password is required"),
           if confirm.Some? then confirm else if v.password != v.confirmPassword then Some(PASSWORDS_DIFFER) else None)
  }

  /** The JSON body `handleRegister` posts: never the confirmation. */
  function RequestBody(v: Values): (j: Json)
    ensures j.JObj? && j.fields.Keys == {"email", "fullName", "password"}
    ensures StringField(j, "email") == Some(v.email) && StringField(j, "fullName") == Some(v.fullName)
    ensures StringField(j, "password") == Some(v.password)
  {
    JObj(map["email" := JStr(v.email), "fullName" := JStr(v.fullName), "password" := JStr(v.password)])
  }

  /** Whatever the form lets through, the register route's schema accepts,
      with the same three values. */
  lemma FormImpliesServerSchema(v: Values)
    requires RegisterSchema(v).None()
    ensures RegisterRoute.CreateUserSchema(RequestBody(v)) == Some(RegisterRoute.NewUser(v.email, v.password, v.fullName))
  {
  }

  /** The server is looser than the form: it takes a password longer than
      20 UTF-16 units and an empty name, both of which the form refuses. */
  lemma ServerAcceptsWhatFormRefuses(v: Values)
    requires v.email != "" && Formats.IsEmail(v.email)
    requires JsLength(v.password) > PASSWORD_MAX || (v.fullName == "" && JsLength(v.password) >= PASSWORD_MIN)
    ensures !RegisterSchema(v).None()
    ensures RegisterRoute.CreateUserSchema(RequestBody(v)).Some?
  {
  }

  /** `res.data.token` as the template literal prints it. */
  function TokenText(r: Response): (s: string)
    ensures r.Data? && r.payload.Registered? ==> s == r.payload.token
  {
    if r.Data? && r.payload.Registered? then r.payload.token else "undefined"
  }

  /** `handleRegister` once the post settles. `reply` is None when no answer
      arrived: axios then rejects without `error.response`, and reading
      `error.response.data` throws out of the catch block. */
  function HandleRegister(reply: Option<Response>): (a: Action)
    ensures reply.None? ==> a == Rejected
    ensures reply.Some? && 200 <= reply.value.Status() < 300 ==> a == Push(VERIFY_EMAIL_PAGE + TokenText(reply.value))
    ensures reply.Some? && !(200 <= reply.value.Status() < 300) ==>
              a == Toast(if reply.value.Text? && reply.value.message == Literal("user already exists")
                         then ALREADY_REGISTERED else SOMETHING_WRONG)
  {
    match reply
    case None => Rejected
    case Some(r) =>
      // axios resolves on 2xx only
      if 200 <= r.Status() < 300 then Push(VERIFY_EMAIL_PAGE + TokenText(r))
      else if r.Text? && r.message == Literal("user already exists") then Toast(ALREADY_REGISTERED)
      else Toast(SOMETHING_WRONG)
  }
}
