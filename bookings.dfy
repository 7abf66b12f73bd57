/** `/api/v1/bookings`. POST validates a booking, checks that its todo and
    user exist and that the total is the todo's price times the quantity,
    then inserts it; GET builds one page of the booking list. */
module BookingsRoute {
  import opened Common
  import opened Json
  import opened Entities
  import opened Http
  import opened Store

  /** `createBookingSchema.safeParse(body)`, with the date fields read by `rule`. */
  function BookingSchema(body: Json, rule: DateRule): (r: Option<Booking>)
    ensures r.Some? <==>
              && IntField(body, "quantity").Some? && IntField(body, "totalPrice").Some?
              && DateField(body, "startDate", rule).Some? && DateField(body, "endDate", rule).Some?
              && StringField(body, "todoId").Some? && StringField(body, "userId").Some?
    // the row copies every field unchanged
    ensures r.Some? ==>
              r.value == Booking(IntField(body, "quantity").value, IntField(body, "totalPrice").value,
                                 DateField(body, "startDate", rule).value, DateField(body, "endDate", rule).value,
                                 StringField(body, "todoId").value, StringField(body, "userId").value)
  {
    var quantity :- IntField(body, "quantity");
    var totalPrice :- IntField(body, "totalPrice");
    var startDate :- DateField(body, "startDate", rule);
    var endDate :- DateField(body, "endDate", rule);
    var todoId :- StringField(body, "todoId");
    var userId :- StringField(body, "userId");
    Some(Booking(quantity, totalPrice, startDate, endDate, todoId, userId))
  }

  /** As written, the dates are checked with `z.date()`: no JSON body passes,
      so every booking request is refused with 400. */
  lemma ZodDateRefusesEveryBody(body: Json)
    ensures BookingSchema(body, ZodDate).None?
  {
  }

  /** With the dates read as ISO-8601 text, a body carrying whole numbers,
      two such dates and the two ids is accepted as it stands. */
  lemma IsoDatesAccepted(quantity: int, totalPrice: int, startDate: string, endDate: string, todoId: string, userId: string)
    requires Formats.IsIsoDateTime(startDate) && Formats.IsIsoDateTime(endDate)
    ensures var body := JObj(map["quantity" := JNum(quantity as real), "totalPrice" := JNum(totalPrice as real),
                                 "startDate" := JStr(startDate), "endDate" := JStr(endDate),
                                 "todoId" := JStr(todoId), "userId" := JStr(userId)]);
            BookingSchema(body, IsoText) == Some(Booking(quantity, totalPrice, startDate, endDate, todoId, userId))
  {
    var body := JObj(map["quantity" := JNum(quantity as real), "totalPrice" := JNum(totalPrice as real),
                         "startDate" := JStr(startDate), "endDate" := JStr(endDate),
                         "todoId" := JStr(todoId), "userId" := JStr(userId)]);
    assert (quantity as real).Floor == quantity && (totalPrice as real).Floor == totalPrice;
    assert IntField(body, "quantity") == Some(quantity);
    assert IntField(body, "totalPrice") == Some(totalPrice);
  }

  /** `todo.price * quantity === totalPrice` */
  predicate PriceValid(t: Tables, b: Booking)
    requires b.todoId in t.todos
  {
    t.todos[b.todoId].price * b.quantity == b.totalPrice
  }

  /** POST /api/v1/bookings, dates read as ISO-8601 text. `newId` is the key
      the database generates for the new row. */
  function PostStep(t: Tables, body: Option<Json>, newId: BookingId): (e: Effect)
    ensures e.mail == [] && e.tables.(bookings := t.bookings) == t
    ensures e.response.Status() != 201 ==> e.tables == t
    ensures body.None? ==> e.response == Unhandled
    ensures body.Some? && BookingSchema(body.value, IsoText).None? ==> e.response == Text(400, ZodIssues)
    // the todo is looked up before the user
    ensures body.Some? && BookingSchema(body.value, IsoText).Some? && BookingSchema(body.value, IsoText).value.todoId !in t.todos ==>
              e.response == Text(404, Literal("Todo not found"))
    ensures body.Some? && BookingSchema(body.value, IsoText).Some? &&
            BookingSchema(body.value, IsoText).value.todoId in t.todos &&
            BookingSchema(body.value, IsoText).value.userId !in t.users ==>
              e.response == Text(404, Literal("User not found"))
    ensures e.response.Status() == 201 <==>
              && body.Some? && BookingSchema(body.value, IsoText).Some?
              && var b := BookingSchema(body.value, IsoText).value;
              && b.todoId in t.todos && b.userId in t.users && PriceValid(t, b)
              && newId !in t.bookings
    ensures e.response.Status() == 201 ==>
              var b := BookingSchema(body.value, IsoText).value;
              && e.tables.bookings == t.bookings[newId := b]
              && e.response == Data(201, BookingRecord(newId, b))
  {
    match body
    case None => Effect(Unhandled, t, [])
    case Some(json) =>
      match BookingSchema(json, IsoText)
      case None => Effect(Text(400, ZodIssues), t, [])
      case Some(b) =>
        if b.todoId !in t.todos then Effect(Text(404, Literal("Todo not found")), t, [])
        else if b.userId !in t.users then Effect(Text(404, Literal("User not found")), t, [])
        else if !PriceValid(t, b) then Effect(Text(400, Literal("Price not valid")), t, [])
        else if newId in t.bookings then Effect(InternalError, t, [])
        else Effect(Data(201, BookingRecord(newId, b)), t.(bookings := t.bookings[newId := b]), [])
  }

  /** A wrong total is refused with "Price not valid" and nothing is stored;
      a created booking always satisfies the price rule. */
  lemma PriceRule(t: Tables, body: Option<Json>, newId: BookingId)
    requires body.Some? && BookingSchema(body.value, IsoText).Some?
    ensures var b := BookingSchema(body.value, IsoText).value;
            var e := PostStep(t, body, newId);
            && (b.todoId in t.todos && b.userId in t.users && !PriceValid(t, b) ==>
                  e.response == Text(400, Literal("Price not valid")) && e.tables == t)
            && (e.response.Status() == 201 ==>
                  newId in e.tables.bookings &&
                  e.tables.bookings[newId].todoId in e.tables.todos &&
                  e.tables.todos[e.tables.bookings[newId].todoId].price * e.tables.bookings[newId].quantity ==
                    e.tables.bookings[newId].totalPrice)
  {
  }

  method Post(db: Database, body: Option<Json>, newId: BookingId) returns (r: Response)
    modifies db
    ensures r == PostStep(old(db.Snapshot()), body, newId).response
    ensures db.Snapshot() == PostStep(old(db.Snapshot()), body, newId).tables
    ensures db.outbox == old(db.outbox)
  {
    if body.None? { return Unhandled; }
    var validation := BookingSchema(body.value, IsoText);
    if validation.None? { return Text(400, ZodIssues); }
    var b := validation.value;
    if b.todoId !in db.todos { return Text(404, Literal("Todo not found")); }
    if b.userId !in db.users { return Text(404, Literal("User not found")); }
    if db.todos[b.todoId].price * b.quantity != b.totalPrice { return Text(400, Literal("Price not valid")); }
    if newId in db.bookings { return InternalError; }
    db.bookings := db.bookings[newId := b];
    r := Data(201, BookingRecord(newId, b));
  }

  // ------------------------------------------------------------------ GET

  /** The booking list query: `orderBy` is read but every value, known or
      not, sorts by creation time, newest first. */
  function GetListing(orderBy: Option<string>, page: Option<string>, q: Option<string>): (l: Listing)
    ensures l.FindMany? <==> PageOf(page) >= 1
    ensures l.FindMany? ==>
              && l.orderBy == [CreatedAtDesc]
              && l.take == PAGE_SIZE && l.skip == (PageOf(page) - 1) * PAGE_SIZE as int
              && l.filter == FilterOf(q)
    ensures l.Respond? ==> l.response == InternalError
  {
    var sort := CreatedAtDesc;
    FindPage(FilterOf(q), [sort], PageOf(page))
  }

  /** The order the client asks for makes no difference. */
  lemma OrderByIgnored(a: Option<string>, b: Option<string>, page: Option<string>, q: Option<string>)
    ensures GetListing(a, page, q) == GetListing(b, page, q)
  {
  }

  /** Prisma's `where` for a booking: its todo's title, or its user's name or
      address, contains the search text (case-sensitively). */
  predicate Matches(t: Tables, b: Booking, filter: Filter) {
    match filter
    case Everything => true
    case Search(q) =>
      (b.todoId in t.todos && Contains(t.todos[b.todoId].title, q)) ||
      (b.userId in t.users && (Contains(t.users[b.userId].fullName, q) || Contains(t.users[b.userId].email, q)))
  }

  /** Without `q` every booking is listed; with a non-empty `q`, exactly the
      bookings whose todo title, user name or user address contains it. */
  lemma SearchFilter(t: Tables, b: Booking, q: Option<string>)
    ensures !Given(q) ==> Matches(t, b, FilterOf(q))
    ensures Given(q) ==>
              (Matches(t, b, FilterOf(q)) <==>
                 (b.todoId in t.todos && Contains(t.todos[b.todoId].title, q.value)) ||
                 (b.userId in t.users && Contains(t.users[b.userId].fullName, q.value)) ||
                 (b.userId in t.users && Contains(t.users[b.userId].email, q.value)))
  {
  }
}
