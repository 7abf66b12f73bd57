/** The database client the handlers share: one mutable map per table. The
    handlers change it in place, one create, update or delete at a time. */
module Store {
  import opened Common
  import opened Entities
  import opened Http

  class Database {
    var users: map<UserId, User>
    var sessions: map<Token, Session>
    var verificationTokens: map<Token, VerificationToken>
    var partners: map<PartnerId, Partner>
    var todos: map<TodoId, Todo>
    var bookings: map<BookingId, Booking>
    var countries: set<string>
    var regions: map<string, Place>
    var cities: map<string, Place>
    var areas: map<string, Place>
    var locations: map<LocationKey, string>
    var categories: map<string, string>

    /** Every message handed to the mailer, oldest first. */
    ghost var outbox: seq<Mail>

    /** The application's public address (`NEXTAUTH_URL`), used in mailed links. */
    const appUrl: string

    /** The contents of every table. */
    function Snapshot(): Tables
      reads this
    {
      Tables(users, sessions, verificationTokens, partners, todos, bookings,
             countries, regions, cities, areas, locations, categories)
    }

    /** The auth invariant holds of the current contents. The constructor
        establishes it and the register, resend and verify handlers keep it. */
    ghost predicate Valid()
      reads this
    {
      AuthInvariant(Snapshot())
    }

    /** An empty database. */
    constructor (appUrl: string)
      ensures this.appUrl == appUrl && outbox == []
      ensures Snapshot() == Tables(map[], map[], map[], map[], map[], map[], {}, map[], map[], map[], map[], map[])
      ensures Valid()
    {
      this.appUrl := appUrl;
      users, sessions, verificationTokens := map[], map[], map[];
      partners, todos, bookings := map[], map[], map[];
      countries, regions, cities, areas := {}, map[], map[], map[];
      locations, categories := map[], map[];
      outbox := [];
    }
  }
}
