/** The rows of the database tables the handlers read and write, the whole
    database as one value, and the constraints the database keeps. */
module Entities {
  import opened Common

  type UserId = string
  type Token = string
  type PartnerId = string
  type TodoId = string
  type BookingId = string

  /** Both token kinds live for 30 minutes, in milliseconds. */
  const TTL: int := 1000 * 60 * 30

  /** What `bcrypt.hash(password, rounds)` stores: a value derived from the
      password, never the password text itself. */
  datatype PasswordHash = Bcrypt(rounds: nat, password: string)

  /** A user. `emailVerified` is None until the address is confirmed, then
      the instant (milliseconds) it was confirmed. */
  datatype User = User(
    email: string,
    fullName: string,
    password: Option<PasswordHash>,
    picture: Option<string>,
    emailVerified: Option<int>)

  /** A ticket allowing one "send me a verification email" request. */
  datatype Session = Session(userId: UserId, expires: int)

  /** A single-use proof of control of the address `identifier`. */
  datatype VerificationToken = VerificationToken(identifier: string, expires: int)

  datatype Partner = Partner(name: string, email: string, description: string, imageUrl: string)

  /** Dates are kept as the ISO-8601 text the request carried. */
  datatype Booking = Booking(
    quantity: int, totalPrice: int, startDate: string, endDate: string, todoId: TodoId, userId: UserId)

  /** A region, city or area row: its name and the country it was created under. */
  datatype Place = Place(name: string, countryId: string)

  /** The composite key of a location row. */
  datatype LocationKey = LocationKey(areaId: string, cityId: string, regionId: string, countryId: string)

  datatype ImageRow = ImageRow(url: string)

  /** A package row; the column holding `includes` is spelled `inlcudes` in the database. */
  datatype PackageRow = PackageRow(price: real, pax: real, includes: string, description: string)

  datatype ScheduleRow = ScheduleRow(activity: string, dayCount: int, time: string)

  /** A todo (a bookable activity) with the child rows created with it. */
  datatype Todo = Todo(
    title: string,
    description: string,
    price: int,
    highlights: string,
    partnerId: PartnerId,
    includes: string,
    minReservationDay: real,
    isRefundable: bool,
    isInstantConfirmation: bool,
    earliestAvailabilityDate: string,
    latestAvailabilityDate: string,
    earliestBookingDate: string,
    locationId: string,
    categoryId: string,
    longitude: real,
    latitude: real,
    images: seq<ImageRow>,
    packages: seq<PackageRow>,
    totalDay: real,
    schedules: seq<ScheduleRow>)

  /** Every table, keyed by its unique column. */
  datatype Tables = Tables(
    users: map<UserId, User>,
    sessions: map<Token, Session>,
    verificationTokens: map<Token, VerificationToken>,
    partners: map<PartnerId, Partner>,
    todos: map<TodoId, Todo>,
    bookings: map<BookingId, Booking>,
    countries: set<string>,
    regions: map<string, Place>,
    cities: map<string, Place>,
    areas: map<string, Place>,
    locations: map<LocationKey, string>,
    categories: map<string, string>)

  // ------------------------------------------------------------ invariant

  /** The user table's unique index on email. */
  ghost predicate EmailsUnique(users: map<UserId, User>) {
    forall a, b :: a in users && b in users && users[a].email == users[b].email ==> a == b
  }

  /** The session table's foreign key to users. */
  ghost predicate SessionOwnersExist(t: Tables) {
    forall s :: s in t.sessions ==> t.sessions[s].userId in t.users
  }

  /** At most one session per user: the rotate-or-create design keeps it. */
  ghost predicate OneSessionPerUser(sessions: map<Token, Session>) {
    forall a, b :: a in sessions && b in sessions && sessions[a].userId == sessions[b].userId ==> a == b
  }

  ghost predicate AuthInvariant(t: Tables) {
    EmailsUnique(t.users) && SessionOwnersExist(t) && OneSessionPerUser(t.sessions)
  }

  /** A verified user stays, with the same verification instant. */
  ghost predicate VerifiedKept(t: Tables, t': Tables) {
    forall id :: id in t.users && t.users[id].emailVerified.Some? ==>
      id in t'.users && t'.users[id].emailVerified == t.users[id].emailVerified
  }

  // -------------------------------------------------------------- lookups

  /** `user.findUnique({ where: { email } })` */
  function UserByEmail(users: map<UserId, User>, email: string): (r: Option<UserId>)
    requires EmailsUnique(users)
    ensures r.Some? ==> r.value in users && users[r.value].email == email
    ensures r.None? ==> forall id :: id in users ==> users[id].email != email
  {
    if exists id :: id in users && users[id].email == email then
      var id :| id in users && users[id].email == email;
      Some(id)
    else None
  }

  /** `session.findFirst({ where: { userId } })` */
  function SessionOf(sessions: map<Token, Session>, userId: UserId): (r: Option<Token>)
    requires OneSessionPerUser(sessions)
    ensures r.Some? ==> r.value in sessions && sessions[r.value].userId == userId
    ensures r.None? ==> forall s :: s in sessions ==> sessions[s].userId != userId
  {
    if exists s :: s in sessions && sessions[s].userId == userId then
      var s :| s in sessions && sessions[s].userId == userId;
      Some(s)
    else None
  }

  /** The sessions that belong to one user. */
  function SessionsOf(sessions: map<Token, Session>, userId: UserId): set<Token> {
    set s | s in sessions && sessions[s].userId == userId
  }
}
