/** Requests and responses at the HTTP boundary: the response kinds the
    handlers build, the effect of one request on the database, and the way a
    query-string value is read. */
module Http {
  import opened Common
  import opened Entities
  import Formats

  /** A response message: literal text, or the text of zod's issue list
      (`validation.error.message`), whose wording is not modelled. */
  datatype Message = Literal(text: string) | ZodIssues

  /** The user fields register selects for its answer. */
  datatype UserView = UserView(id: UserId, fullName: string, email: string, picture: Option<string>)

  /** The `data` of a JSON answer. */
  datatype Payload =
    | Contact(fullName: string, email: string)   // { data: { fullName, email } }
    | Ticket(token: Token, email: string)        // { data: { token, email } }
    | UserRecord(id: UserId, user: User)         // { data: user }
    | Registered(view: UserView, token: Token)   // { data: user, token }
    | BookingRecord(id: BookingId, booking: Booking)
    | PartnerRecord(id: PartnerId, partner: Partner)
    | TodoRecord(id: TodoId, todo: Todo)

  datatype Response =
    | Text(code: nat, message: Message)          // new NextResponse(text, { status })
    | Data(code: nat, payload: Payload)          // NextResponse.json({ data, ... }, { status })
    | Failure(code: nat, message: Message)       // NextResponse.json({ success: false, message }, { status })
    | Unhandled                                  // an exception left the handler, or it returned nothing
  {
    /** The status the client sees; the framework answers 500 when the handler fails. */
    function Status(): (s: nat)
      ensures Unhandled? ==> s == 500
    {
      if Unhandled? then 500 else code
    }
  }

  const InternalError: Response := Text(500, Literal("Internal Server Error"))

  /** A message handed to the mailer: recipient, subject, and what the body
      template is filled with. */
  datatype Mail = Mail(to: string, subject: string, fullName: string, verifyUrl: string)

  /** What one request does: its answer, the database afterwards, and the mail it sends. */
  datatype Effect = Effect(response: Response, tables: Tables, mail: seq<Mail>)

  // -------------------------------------------------------- query strings

  /** A query value as `URLSearchParams` reads it back: '+' stands for a
      space. `URLSearchParams` also decodes percent-escapes; that is not
      modelled, since the values here never contain '%'. */
  function QueryValue(raw: string): (v: string)
    ensures |v| == |raw|
    ensures forall i :: 0 <= i < |raw| ==> v[i] == if raw[i] == '+' then ' ' else raw[i]
  {
    seq(|raw|, i requires 0 <= i < |raw| => if raw[i] == '+' then ' ' else raw[i])
  }

  function TrimStart(s: string): (r: string)
    ensures |r| <= |s| && r == s[|s| - |r|..]
    ensures r != [] ==> !Formats.IsJsWhitespace(r[0])
  {
    if s != [] && Formats.IsJsWhitespace(s[0]) then TrimStart(s[1..]) else s
  }

  function TrimEnd(s: string): (r: string)
    ensures |r| <= |s| && r == s[..|r|]
    ensures r != [] ==> !Formats.IsJsWhitespace(r[|r| - 1])
  {
    if s != [] && Formats.IsJsWhitespace(s[|s| - 1]) then TrimEnd(s[..|s| - 1]) else s
  }

  predicate AllDigits(s: string) {
    forall i :: 0 <= i < |s| ==> Formats.IsDigit(s[i])
  }

  /** The value of a string of decimal digits. */
  function DigitsValue(s: string): (n: nat)
    requires AllDigits(s)
    decreases |s|
  {
    if s == [] then 0
    else 10 * DigitsValue(s[..|s| - 1]) + (s[|s| - 1] as int - '0' as int)
  }

  /** `Number(s)` for the spellings the model reads: white space around an
      optionally signed run of decimal digits, or white space alone (which is
      0). None stands for NaN. */
  function JsNumber(s: string): (r: Option<int>)
    ensures TrimEnd(TrimStart(s)) == "" ==> r == Some(0)
  {
    var t := TrimEnd(TrimStart(s));
    if t == "" then Some(0)
    else if (t[0] == '-' || t[0] == '+') && |t| > 1 && AllDigits(t[1..]) then
      var n: int := DigitsValue(t[1..]);
      Some(if t[0] == '-' then -n else n)
    else if AllDigits(t) then Some(DigitsValue(t))
    else None
  }

  const PAGE_SIZE: nat := 10

  /** `Number(searchParams.get("page")) || 1`: the number given, or 1 when it
      is absent, zero or not a number. */
  function PageOf(p: Option<string>): (page: int)
    ensures page != 0
    ensures p.None? ==> page == 1
    ensures p.Some? && JsNumber(p.value).Some? && JsNumber(p.value).value != 0 ==>
              page == JsNumber(p.value).value
    ensures p.Some? && (JsNumber(p.value).None? || JsNumber(p.value) == Some(0)) ==> page == 1
  {
    if p.None? then 1
    else match JsNumber(p.value)
      case None => 1
      case Some(n) => if n == 0 then 1 else n
  }

  /** `(page - 1) * pageSize`: the rows skipped before page `page`. */
  function SkipOf(page: int): (skip: int)
    ensures page >= 1 <==> skip >= 0
    ensures skip % PAGE_SIZE as int == 0 && skip / PAGE_SIZE as int == page - 1
  {
    (page - 1) * PAGE_SIZE
  }

  /** The ordering a list request asks the database for. */
  datatype SortKey =
    | CreatedAtDesc
    | NameAsc
    | NameDesc
    | PriceAsc
    | PriceDesc
    | BookingsCountDesc
    | ReviewsCountDesc

  /** The `where` of a list request: everything, or rows that contain `q`. */
  datatype Filter = Everything | Search(q: string)

  /** What a list handler does: ask for one page of rows, or answer without asking. */
  datatype Listing =
    | FindMany(filter: Filter, orderBy: seq<SortKey>, take: nat, skip: int)
    | Respond(response: Response)

  /** The search parameter: a filter only when `q` is given and not empty. */
  function FilterOf(q: Option<string>): (f: Filter)
    ensures f.Search? <==> Given(q)
    ensures f.Search? ==> f.q == q.value
  {
    if Given(q) then Search(q.value) else Everything
  }

  /** `findMany({ take, skip, ... })`: the database refuses a negative skip,
      and the handler's catch answers 500. */
  function FindPage(filter: Filter, orderBy: seq<SortKey>, page: int): (l: Listing)
    ensures l.FindMany? <==> page >= 1
    ensures l.FindMany? ==> l == FindMany(filter, orderBy, PAGE_SIZE, (page - 1) * PAGE_SIZE as int)
    ensures l.Respond? ==> l.response == InternalError
  {
    var skip := SkipOf(page);
    if skip < 0 then Respond(InternalError) else FindMany(filter, orderBy, PAGE_SIZE, skip)
  }
}
