/** What the register and login forms share: the field rules their zod
    schemas apply (each field shows the first issue zod reports for it), and
    what a page does once a submission is handled. */
module Client {
  import opened Common
  import Formats

  const PASSWORD_MIN: nat := 8
  const PASSWORD_MAX: nat := 20

  const PASSWORD_RULE: string :=
    "Password must be at least 8 characters of number, uppercase and lowercase letters combination."

  /** zod's default message for `.max(20)`. */
  const TOO_LONG: string := "String must contain at most 20 character(s)"

  /** zod's default message for `.email()`. */
  const INVALID_EMAIL: string := "Invalid email"

  /** The page every verification link and ticket leads to. */
  const VERIFY_EMAIL_PAGE: string := "/verify-email?token="

  /** `z.string().min(1, "Email is required").email()` */
  function EmailError(email: string): (m: Option<string>)
    ensures m.None? <==> email != "" && Formats.IsEmail(email)
    ensures email == "" ==> m == Some("Email is required")
    ensures email != "" && !Formats.IsEmail(email) ==> m == Some(INVALID_EMAIL)
  {
    if JsLength(email) < 1 then Some("Email is required")
    else if !Formats.IsEmail(email) then Some(INVALID_EMAIL)
    else None
  }

  /** `z.string().min(1, required).min(8, PASSWORD_RULE).max(20)`, lengths
      counted in UTF-16 units. */
  function PasswordError(password: string, required: string): (m: Option<string>)
    ensures m.None? <==> PASSWORD_MIN <= JsLength(password) <= PASSWORD_MAX
    ensures password == "" ==> m == Some(required)
    ensures password != "" && JsLength(password) < PASSWORD_MIN ==> m == Some(PASSWORD_RULE)
    ensures JsLength(password) > PASSWORD_MAX ==> m == Some(TOO_LONG)
  {
    if JsLength(password) < 1 then Some(required)
    else if JsLength(password) < PASSWORD_MIN then Some(PASSWORD_RULE)
    else if JsLength(password) > PASSWORD_MAX then Some(TOO_LONG)
    else None
  }

  /** What the page does: navigate (`router.push` / `router.replace`), show a
      toast with a given text, show a toast with the failed request's own
      error message, or nothing at all because the handler's promise was
      rejected. */
  datatype Action =
    | Push(url: string)
    | Replace(url: string)
    | Toast(message: string)
    | ToastRequestError
    | Rejected
}
