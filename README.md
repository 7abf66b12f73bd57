# travel-app: the email-verification life cycle and the catalogue handlers

This project is a Dafny model of the server core of the travel-app web
application (Next.js route handlers over a Prisma database), and of the
decision logic of its two sign-up forms.

**Email verification.** This is a small state machine over three tables:
users, whose `emailVerified` is unset or a timestamp; sessions, which are
short-lived tickets `token -> (userId, expires)`; and verification tokens,
`token -> (identifier, expires)`. Four handlers drive it:

- `POST /api/auth/register` creates an unverified user and a 30-minute ticket.
- `GET /api/auth/resend?id=<base64 address>` re-keys that user's ticket, or
  creates one.
- `POST /api/auth/resend?token=<ticket>` trades a live ticket for a 30-minute
  verification token. It deletes the ticket and mails the link.
- `POST /api/auth/verify?token=<token>` consumes the token and marks its
  owner verified, at most once.

**The catalogue handlers.** `/api/v1/bookings`, `/api/v1/partners` and
`/api/v1/todos` each have a POST (a zod schema, uniqueness or price checks,
then inserts, and for todos six get-or-create upserts) and a GET (page,
skip, sort key and search filter of one list page).

**The forms.** The register and login forms are modelled as pure
validators, together with what each does with the server's answer.

## How it is organised

- **Database.** `Store.Database` is a class with one map field per table
  and a ghost outbox of sent mail. `Entities.Tables` is the same database
  as a value. `Database.Valid` is the auth invariant (unique addresses,
  sessions owned by existing users, one session per user); the auth
  handlers' methods keep it.
- **Step functions.** Each handler has a pure step function,
  `XxxRoute.PostStep(t, ...)`. It returns an `Http.Effect`: the response,
  the tables afterwards, and the mail sent. Its contract gives the outcome
  of every branch (status, message, which rows change) and says that
  nothing else changes.
- **Handler methods.** `XxxRoute.Post(db, ...)` changes the database step
  by step, in the source's order. Its `ensures` ties the answer and the
  new state to the step function.
- **Cross-request properties.** Lemmas in the route modules and in
  `Lifecycle` chain the steps of several requests.
- **Inputs from outside.** The clock is an integer `now` in milliseconds,
  one instant per request. Generated tokens and ids are parameters
  (`newToken`, `newId`, `keys`). A key that is already taken is modelled
  as the unique-constraint failure the database would raise, not excluded
  by a precondition.

Where the code and the design description of the system disagree, the
model follows the code:

- `request.json()` and `atob` run outside the `try` blocks, so a body that
  is not JSON, or an `id` that is not base64, escapes the handler. The
  model calls this `Unhandled`, and the framework answers 500.
- The todo POST's `catch` block returns nothing, which is also `Unhandled`.
- Resend GET re-keys any existing session of the user, live or expired.
- Resend POST answers with `{ fullName, email }`.
- Resend GET answers with `{ token, email }`.

## Model

| member | source | states |
|---|---|---|
| `RegisterRoute.CreateUserSchema` | src/app/api/auth/register/route.ts:7-11 | accepted exactly when `email` is a zod e-mail, `password` a string of at least 8 UTF-16 units and `fullName` a string; the three values are read unchanged |
| `RegisterRoute.NewRow` | src/app/api/auth/register/route.ts:25-39 | the stored row has the given address and name, the bcrypt(10) hash of the password (never the text), no picture and `emailVerified` unset |
| `RegisterRoute.PostStep` | src/app/api/auth/register/route.ts:13-57 | non-JSON body gives an unhandled error; a schema failure gives 400; a taken address gives 400 "user already exists"; these change nothing; existing users are never changed; 201 exactly when the schema passes, the address is free and both generated keys are free |
| `RegisterRoute.PostCreatesUser` | src/app/api/auth/register/route.ts:27-52 | on 201 exactly one user (the new row) and exactly one session `(newUserId, now + 30 min)` are added, and the answer carries the stored session token |
| `RegisterRoute.PostKeepsInvariant` | src/app/api/auth/register/route.ts:22-50 | unique addresses, sessions owned by existing users and at most one session per user are preserved, and no verified user loses its verification |
| `RegisterRoute.SessionClashLeavesUser` | src/app/api/auth/register/route.ts:27-50 | when the session insert fails after the user insert, the answer is 500 but the user row stays, and every retry is refused with "user already exists" |
| `RegisterRoute.Post` | src/app/api/auth/register/route.ts:13-57 | the handler's answer and the new tables are those of `PostStep`; no mail is sent; a database satisfying `Database.Valid` (the auth invariant) still does afterwards, and no verified user loses its verification |
| `ResendRoute.VerifyUrl` | src/app/api/auth/resend/route.ts:46 | the link starts with the application URL and ends with the token |
| `ResendRoute.PostStep` | src/app/api/auth/resend/route.ts:7-55 | missing token gives 400 "Token is missing"; an unknown ticket gives 400 "Invalid Token"; `expires < now` gives 400 "Token expired" (`expires == now` passes); every failure changes nothing and sends nothing; 200 exactly when the ticket is live, its owner exists and the new token is free |
| `ResendRoute.PostIssuesToken` | src/app/api/auth/resend/route.ts:33-50 | on 200 the owner's name and address are returned, exactly one verification token `(owner's email, now + 30 min)` is added, exactly the presented ticket is deleted, other sessions are unchanged, and one mail with the link goes to the owner |
| `ResendRoute.PostKeepsInvariant` | src/app/api/auth/resend/route.ts:36-44 | the auth invariant holds afterwards and the user table is untouched |
| `ResendRoute.Post` | src/app/api/auth/resend/route.ts:7-55 | answer, new tables and appended mail are those of `PostStep`; the mail does not affect the answer; `Database.Valid` is preserved and no verified user loses its verification |
| `ResendRoute.RequestedEmail` | src/app/api/auth/resend/route.ts:59-62 | the address looked up is `atob(id)` when `id` is given and decodes |
| `ResendRoute.IssueTicket` | src/app/api/auth/resend/route.ts:70-94 | the user ends with exactly one session, under the new key, expiring at `now + 30 min`; other users' sessions are unchanged; the count is unchanged when a session was re-keyed and one higher when one was created; fails only when another user holds the key |
| `ResendRoute.RekeyFacts` | src/app/api/auth/resend/route.ts:73-82 | re-keying the user's only session keeps one session per user and leaves the user with exactly the new key |
| `ResendRoute.CreateFacts` | src/app/api/auth/resend/route.ts:87-94 | creating the first session of a user keeps one session per user and adds one row |
| `ResendRoute.GetStep` | src/app/api/auth/resend/route.ts:57-101 | missing `id` gives 400; undecodable `id` gives an unhandled error; an unknown address gives 404 with the address in the message; a verified user gives 400 "Email already verified"; 200 exactly when `id` decodes to the address of an unverified user and the new session key is not held by another user, and 500 when only that key is missing; every non-200 answer changes nothing; only sessions ever change |
| `ResendRoute.GetIssuesTicket` | src/app/api/auth/resend/route.ts:70-96 | on 200 the answer carries the new token and the address; the stored token belongs to the unverified owner of that address, expires at `now + 30 min` and is that user's only session |
| `ResendRoute.GetKeepsInvariant` | src/app/api/auth/resend/route.ts:65-96 | the auth invariant (unique addresses, owned sessions, one session per user) is preserved |
| `ResendRoute.Get` | src/app/api/auth/resend/route.ts:57-101 | answer and new tables are those of `GetStep`; no mail; `Database.Valid` is preserved and the users are unchanged |
| `VerifyRoute.OwnerOf` | src/app/api/auth/verify/route.ts:19 | finds a user exactly when some user holds the token's identifier, and the one found holds it |
| `VerifyRoute.Redeem` | src/app/api/auth/verify/route.ts:19-76 | no owner gives 500 and no change; otherwise the token is deleted; 200 exactly when the owner is unverified; on any other answer the users are unchanged |
| `VerifyRoute.PostStep` | src/app/api/auth/verify/route.ts:4-81 | missing token gives 400 "Token is missing"; unknown gives 400 "Bad Request"; `expires < now` gives 400 "Token Expired"; all three change nothing; only users and tokens ever change |
| `VerifyRoute.PostOutcome` | src/app/api/auth/verify/route.ts:11-79 | 200 exactly for a live token whose owner exists and is unverified; a live token without owner gives 500 and no change; whenever the answer is not 200 the users are unchanged |
| `VerifyRoute.MarkVerified` | src/app/api/auth/verify/route.ts:44-55 | setting `emailVerified` on one unverified row keeps the auth invariant and the set of users |
| `VerifyRoute.PostKeepsUsers` | src/app/api/auth/verify/route.ts:19-74 | no user appears or disappears; a row changes only from unverified to verified at `now`; the auth invariant holds |
| `VerifyRoute.PostConsumesToken` | src/app/api/auth/verify/route.ts:22-74 | a live token with an owner is deleted on both paths; for a verified owner the answer is 400 "Email already verified" and users are unchanged |
| `VerifyRoute.PostVerifiesOwner` | src/app/api/auth/verify/route.ts:44-76 | on 200 exactly the token's owner is set verified at `now`, exactly that token is deleted, and the answer is the row as read before the update |
| `VerifyRoute.Post` | src/app/api/auth/verify/route.ts:4-81 | answer and new tables are those of `PostStep`; no mail; `Database.Valid` is preserved and no verified user loses its verification |
| `BookingsRoute.BookingSchema` | src/app/api/v1/bookings/route.ts:7-14 | accepted exactly when the two integers, the two dates (under the given date rule) and the two ids parse; the booking copies every field unchanged |
| `BookingsRoute.ZodDateRefusesEveryBody` | src/app/api/v1/bookings/route.ts:10-11 | with `z.date()` as written, no JSON body passes the schema |
| `BookingsRoute.IsoDatesAccepted` | src/app/api/v1/bookings/route.ts:7-14 | with ISO-8601 text dates, a body of two whole numbers, two such dates and two ids is read back as exactly that booking |
| `BookingsRoute.PostStep` | src/app/api/v1/bookings/route.ts:16-57 | with the dates read as ISO-8601 text (the corrected schema of the first Findings row): schema failure gives 400; a missing todo gives 404 "Todo not found", checked before the user; a missing user gives 404 "User not found"; every non-201 answer changes nothing; 201 exactly when both exist, `price * quantity == totalPrice` and the id is free, and then exactly the booking is added |
| `BookingsRoute.PriceRule` | src/app/api/v1/bookings/route.ts:38-39 | a wrong total gives 400 "Price not valid" with no change, and every created booking satisfies the price rule |
| `BookingsRoute.Post` | src/app/api/v1/bookings/route.ts:16-57 | answer and new tables are those of `PostStep`, so dates are read as ISO-8601 text as in the corrected schema |
| `BookingsRoute.GetListing` | src/app/api/v1/bookings/route.ts:59-123 | the query takes 10 rows, skips `(page - 1) * 10`, sorts newest first and filters by `q`; a page below 1 gives 500 |
| `BookingsRoute.OrderByIgnored` | src/app/api/v1/bookings/route.ts:70-80 | every `orderBy` value, "asc" included, gives the same query |
| `BookingsRoute.SearchFilter` | src/app/api/v1/bookings/route.ts:82-108 | without `q` every booking matches; with `q` a booking matches exactly when its todo's title, its user's name or its user's address contains `q` |
| `PartnersRoute.PartnerSchema` | src/app/api/v1/partners/route.ts:7-12 | accepted exactly when the address is valid, the name is at most 36 units, the description at most 191, and `imageUrl` is a string; fields copied unchanged |
| `PartnersRoute.PostStep` | src/app/api/v1/partners/route.ts:14-40 | schema failure gives 400; a taken name gives 400 with the name in the message; non-201 answers change nothing; 201 exactly when the name and the id are free, and then exactly that partner is added |
| `PartnersRoute.PostKeepsNamesUnique` | src/app/api/v1/partners/route.ts:23-26 | partner names stay unique |
| `PartnersRoute.Post` | src/app/api/v1/partners/route.ts:14-40 | answer and new tables are those of `PostStep` |
| `PartnersRoute.PartnerSort` | src/app/api/v1/partners/route.ts:46-66 | absent or empty `orderBy` sorts by name descending; "latest" sorts by creation time, "desc" and "asc" by name; any other value sorts by name ascending |
| `PartnersRoute.PartnerSortOptions` | src/constants/sort.ts:21-25 | distinct options give distinct sorts, and each option's value gives its own sort |
| `PartnersRoute.GetListing` | src/app/api/v1/partners/route.ts:42-85 | the query takes 10 rows, skips `(page - 1) * 10`, uses the sort above and filters by `q`; a page below 1 gives 500 |
| `PartnersRoute.SearchFilter` | src/app/api/v1/partners/route.ts:68-70 | a partner matches exactly when `q` is absent or empty, or its name contains `q` |
| `TodosRoute.PlaceOf` | src/app/api/v1/todos/route.ts:39-42 | accepted exactly when `id` and `name` are strings, read unchanged |
| `TodosRoute.PackagesOf` | src/app/api/v1/todos/route.ts:24-29 | accepted exactly when every element is a package; element `i` of the result is element `i` of the input, read |
| `TodosRoute.SchedulesOf` | src/app/api/v1/todos/route.ts:32-36 | accepted exactly when every element is a schedule with an integral `dayCount`; read elementwise |
| `TodosRoute.IsActiveField` | src/app/api/v1/todos/route.ts:17 | an absent `isActive` reads as true; a present one must be a boolean |
| `TodosRoute.TermsOf` | src/app/api/v1/todos/route.ts:15-21 | under `z.date()` nothing passes; `isActive` defaults to true |
| `TodosRoute.TodoSchema` | src/app/api/v1/todos/route.ts:7-53 | accepted exactly when every part parses, the title has 5 to 100 UTF-16 units and the partner id is a cuid (a 'c' and then 8 or more UTF-16 units, none whitespace or '-'); a title outside 5..100 is refused; title, partner, category and price are read from the body |
| `TodosRoute.ZodDateRefusesEveryTodo` | src/app/api/v1/todos/route.ts:18-20 | with `z.date()` as written, no JSON body passes the schema |
| `TodosRoute.PackagesRoundTrip` | src/app/api/v1/todos/route.ts:24-29 | a package list written as JSON is read back unchanged |
| `TodosRoute.SchedulesRoundTrip` | src/app/api/v1/todos/route.ts:32-36 | a schedule list written as JSON is read back unchanged |
| `TodosRoute.BasicsRoundTrip` | src/app/api/v1/todos/route.ts:8-14 | a body carrying the listing fields is read back as those fields |
| `TodosRoute.TermsRoundTrip` | src/app/api/v1/todos/route.ts:15-21 | a body carrying the booking terms, with ISO-8601 dates, is read back as those terms |
| `TodosRoute.ItineraryRoundTrip` | src/app/api/v1/todos/route.ts:30-37 | an itinerary written as JSON is read back unchanged |
| `TodosRoute.LocationRoundTrip` | src/app/api/v1/todos/route.ts:38-52 | a location written as JSON is read back unchanged |
| `TodosRoute.PlanRoundTrip` | src/app/api/v1/todos/route.ts:22-52 | a body carrying the plan fields is read back as that plan |
| `TodosRoute.SchemaReadsBack` | src/app/api/v1/todos/route.ts:7-53 | with ISO-8601 dates, any body carrying a well-formed todo's fields is accepted as exactly that todo |
| `TodosRoute.SchemaReadsBodyBack` | src/app/api/v1/todos/route.ts:55-57 | with ISO-8601 dates, the body a client writes for a well-formed todo parses back to that todo |
| `TodosRoute.GetOrCreate` | src/app/api/v1/todos/route.ts:107-115 | an upsert with an empty update adds the key, leaves every existing row unchanged, and creates the given row only when the key is absent |
| `TodosRoute.GetOrCreateIdempotent` | src/app/api/v1/todos/route.ts:99-161 | repeating an upsert changes nothing, whatever it would create |
| `TodosRoute.Upserts` | src/app/api/v1/todos/route.ts:99-161 | only the six catalogue tables change; afterwards the country, region, city, area, location and category are all present |
| `TodosRoute.UpsertsIdempotent` | src/app/api/v1/todos/route.ts:99-161 | running the six upserts of a request twice gives the tables of running them once |
| `TodosRoute.MinPrice` | src/app/api/v1/todos/route.ts:163 | `Math.min` over a non-empty list is at most every element and equal to one of them |
| `TodosRoute.StartingPrice` | src/app/api/v1/todos/route.ts:163-169 | a price exists exactly when there are packages and their minimum is integral, and it is at most every package price and equal to one |
| `TodosRoute.ImageRows` | src/app/api/v1/todos/route.ts:187-191 | images map one-to-one, in order, to `{ url }` rows |
| `TodosRoute.PackageRows` | src/app/api/v1/todos/route.ts:192-201 | packages map one-to-one, in order, with price, pax, includes (to the `inlcudes` column) and description copied |
| `TodosRoute.ScheduleRows` | src/app/api/v1/todos/route.ts:202-215 | schedules map one-to-one, in order, with activity, day count and time copied |
| `TodosRoute.Insert` | src/app/api/v1/todos/route.ts:163-219 | the insert succeeds exactly when there is a starting price, two coordinates, an existing partner and a free id; the row carries the request's title and partner, the starting price, the upserted location and category, and the mapped child rows |
| `TodosRoute.CommitStep` | src/app/api/v1/todos/route.ts:99-230 | the upserts always stay; 201 exactly when the insert succeeds, and then exactly that todo is added under the new id; otherwise the answer is unhandled and no todo is added |
| `TodosRoute.CommitCreatesTodo` | src/app/api/v1/todos/route.ts:165-221 | on 201 the new id was free, exactly it is added, and every existing todo is unchanged |
| `TodosRoute.CommitPricesTodo` | src/app/api/v1/todos/route.ts:163-179 | the created todo has the request's title and an existing partner, and its price is the cheapest package's price |
| `TodosRoute.PostStep` | src/app/api/v1/todos/route.ts:55-231 | with the dates read as ISO-8601 text (the corrected schema of the second Findings row): non-JSON body is unhandled; schema failure gives 400; a taken title gives 400 "Todo with the name ... is already exist" before any upsert; these change nothing; otherwise the request commits |
| `TodosRoute.PostKeepsTitlesUnique` | src/app/api/v1/todos/route.ts:88-97 | todo titles stay unique |
| `TodosRoute.Post` | src/app/api/v1/todos/route.ts:55-231 | answer and new tables are those of `PostStep`, so dates are read as ISO-8601 text as in the corrected schema |
| `TodosRoute.Commit` | src/app/api/v1/todos/route.ts:99-230 | answer and new tables are those of `CommitStep` |
| `TodosRoute.Upsert` | src/app/api/v1/todos/route.ts:99-161 | the tables afterwards are `Upserts` of the tables before |
| `TodosRoute.UpsertCountry` | src/app/api/v1/todos/route.ts:99-105 | only the country set changes, and the country is added |
| `TodosRoute.UpsertRegion` | src/app/api/v1/todos/route.ts:107-115 | only the region table changes, by get-or-create |
| `TodosRoute.UpsertCity` | src/app/api/v1/todos/route.ts:117-125 | only the city table changes, by get-or-create |
| `TodosRoute.UpsertArea` | src/app/api/v1/todos/route.ts:127-135 | only the area table changes, by get-or-create |
| `TodosRoute.UpsertLocation` | src/app/api/v1/todos/route.ts:137-153 | only the location table changes, by get-or-create on the four-part key |
| `TodosRoute.UpsertCategory` | src/app/api/v1/todos/route.ts:155-161 | only the category table changes, by get-or-create |
| `TodosRoute.InsertTodo` | src/app/api/v1/todos/route.ts:165 | only the todo table changes, by one insert |
| `TodosRoute.TodoSort` | src/app/api/v1/todos/route.ts:237-265 | absent or empty `orderBy` gives bookings count desc, then reviews count desc; a known option gives its keys; an unknown value gives no ordering |
| `TodosRoute.TodoSortOptions` | src/app/api/v1/todos/route.ts:244-265 | only "highest_rating" throws; the other options give distinct sorts; each option's value gives its own sort |
| `TodosRoute.GetListing` | src/app/api/v1/todos/route.ts:233-286 | "highest_rating" throws before the query, outside the try; otherwise the query takes 10 rows, skips `(page - 1) * 10`, uses the sort above and filters by `q`, and a page below 1 gives 500 |
| `TodosRoute.SearchFilter` | src/app/api/v1/todos/route.ts:267-271 | a todo matches exactly when `q` is absent or empty, or its title contains `q` |
| `SortOptions.ParseTodoOrder` | src/constants/sort.ts:1-7 | a value names an option exactly when that option's value equals it |
| `SortOptions.ParseBookingOrder` | src/constants/sort.ts:9-12 | a value names an option exactly when that option's value equals it |
| `SortOptions.ParsePartnerOrder` | src/constants/sort.ts:21-25 | a value names an option exactly when that option's value equals it |
| `SortOptions.ValuesRoundTrip` | src/constants/sort.ts:1-25 | every option's value is read back as that option, so no two options of a list share a value |
| `Http.QueryValue` | src/app/api/auth/resend/route.ts:58-59 | a query value is read back with each '+' turned into a space and every other character kept |
| `Http.PageOf` | src/app/api/v1/todos/route.ts:235 | the page is never 0; it is 1 when absent, zero or not a number, and the number given otherwise |
| `Http.SkipOf` | src/app/api/v1/todos/route.ts:238-239 | skip is `(page - 1) * 10`, and non-negative exactly when the page is at least 1 |
| `Http.FilterOf` | src/app/api/v1/todos/route.ts:267-271 | a search filter exactly when `q` is present and not empty, on `q` itself |
| `Http.FindPage` | src/app/api/v1/todos/route.ts:273-285 | a query for 10 rows after `(page - 1) * 10` when the page is at least 1; 500 otherwise, because the database refuses a negative skip |
| `Json.IntField` | src/app/api/v1/bookings/route.ts:8-9 | `z.number().int()` accepts exactly a number with no fractional part, read unchanged |
| `Json.DateField` | src/app/api/v1/bookings/route.ts:10-11 | `z.date()` accepts no JSON value; the ISO rule accepts exactly an ISO-8601 date-time string, kept as text |
| `Entities.UserByEmail` | src/app/api/auth/resend/route.ts:65 | finds the user holding the address when there is one, and none otherwise |
| `Entities.SessionOf` | src/app/api/auth/resend/route.ts:70 | finds the user's session when there is one, and none otherwise |
| `Common.JsLength` | src/app/api/auth/register/route.ts:9 | string length in UTF-16 units: between the number of characters and twice that, and equal to it for characters in the Basic Multilingual Plane |
| `Base64.Btoa` | src/components/forms/login-form.tsx:49 | `btoa` succeeds exactly on Latin-1 text |
| `Base64.Atob` | src/app/api/auth/resend/route.ts:62 | `atob`, when it succeeds, yields Latin-1 text |
| `Base64.JoinSextets` | src/app/api/auth/resend/route.ts:62 | regrouping the 6-bit groups of any byte string gives those bytes back |
| `Base64.AtobBtoa` | src/app/api/auth/resend/route.ts:62 | `atob(btoa(s)) == s` for every Latin-1 string (section 4 of RFC 4648) |
| `Base64.NoPlusInEncode` | src/components/forms/login-form.tsx:49 | ASCII text without '>' and '~' encodes to base64 without '+' |
| `Formats.EmailChars` | src/app/api/auth/register/route.ts:8 | an address zod accepts uses only letters, digits and `_ ' + - . @` |
| `Client.EmailError` | src/components/forms/register-form.tsx:18 | no error exactly for a non-empty valid address; "Email is required" for an empty one, and "Invalid email" otherwise |
| `Client.PasswordError` | src/components/forms/register-form.tsx:20-27 | no error exactly for 8 to 20 UTF-16 units; "required" when empty, the rule message below 8, the too-long message above 20 |
| `RegisterForm.RegisterSchema` | src/components/forms/register-form.tsx:16-40 | no error exactly when the address is valid, the name is not empty, both passwords have 8 to 20 units and they are equal; a mismatch is reported on `confirmPassword` |
| `RegisterForm.RequestBody` | src/components/forms/register-form.tsx:64-70 | the body holds exactly email, fullName and password, never the confirmation |
| `RegisterForm.FormImpliesServerSchema` | src/components/forms/register-form.tsx:62-77 | whatever the form lets through, the register route's schema accepts, with the same three values |
| `RegisterForm.ServerAcceptsWhatFormRefuses` | src/app/api/auth/register/route.ts:7-11 | the server takes passwords over 20 units and empty names, both of which the form refuses |
| `RegisterForm.TokenText` | src/components/forms/register-form.tsx:77 | for a registration answer, the text pasted into the URL is the returned token |
| `RegisterForm.HandleRegister` | src/components/forms/register-form.tsx:62-86 | 2xx goes to `/verify-email?token=` plus the token; "user already exists" shows the already-registered toast; any other error shows "Something went wrong" |
| `LoginForm.LoginSchema` | src/components/forms/login-form.tsx:16-26 | no error exactly for a non-empty valid address and a password of 8 to 20 units |
| `LoginForm.ResendUrl` | src/components/forms/login-form.tsx:47-55 | the URL exists exactly when the address is Latin-1, and carries `btoa(email)` |
| `LoginForm.Resend` | src/components/forms/login-form.tsx:47-55 | yields the returned ticket exactly on a 2xx ticket answer for a Latin-1 address; fails exactly when `btoa` throws, no answer arrives, or the status is not 2xx |
| `LoginForm.HandleLogin` | src/components/forms/login-form.tsx:57-84 | 401 "Please verify your email" with a ticket goes to `/verify-email?token=` plus the ticket; without one it falls through to `replace("/")`; another error shows its text, or the generic text for 500; no error ends at `replace("/")` |
| `Lifecycle.EmailSurvivesQuery` | src/components/forms/login-form.tsx:49 | a valid address's base64 has no '+', so the query string carries it unchanged |
| `Lifecycle.ResendIdReadsBack` | src/app/api/auth/resend/route.ts:59-62 | the address the login form sends is the address the resend route decodes |
| `Lifecycle.TokenSingleUse` | src/app/api/auth/verify/route.ts:11-13 | after a successful verification the same token gives 400 "Bad Request", whatever the time, and nothing changes |
| `Lifecycle.TicketSingleUse` | src/app/api/auth/resend/route.ts:14-19 | after a successful resend POST the same ticket gives 400 "Invalid Token" |
| `Lifecycle.TicketRekeyed` | src/app/api/auth/resend/route.ts:73-84 | a ticket request for a user holding ticket `k1` re-keys it to `k2`: one session, the same count, and `k1` no longer works |
| `Lifecycle.SecondTicketReplacesFirst` | src/app/api/auth/resend/route.ts:70-96 | asking twice for a ticket leaves one session under the second key, and the first key is invalid |
| `Lifecycle.RegisteredTicket` | src/app/api/auth/register/route.ts:27-52 | right after registering, the returned ticket is live for 30 minutes and belongs to the new unverified user, and the invariant holds |
| `Lifecycle.ResendThenVerify` | src/app/api/auth/verify/route.ts:44-76 | trading a live ticket and following the link within 30 minutes verifies that user at the moment of the click |
| `Lifecycle.RegisterResendVerify` | src/app/api/auth/resend/route.ts:33-50 | register, resend with the returned ticket, verify: the mail goes to the registered address with the token's link, and the new user ends verified at the click |
| `Lifecycle.RegisterFormFlow` | src/components/forms/register-form.tsx:62-86 | what the form lets through is created and the page goes to the waiting page with the ticket; a taken address shows the already-registered toast |
| `Lifecycle.UnverifiedLoginGetsTicket` | src/components/forms/login-form.tsx:57-71 | an unverified sign-in asks for a ticket by base64 address, the route issues it for that address, and the page goes to the waiting page with it |

## Left out

- Password hashing: bcrypt is the symbolic value `Bcrypt(10, password)`. It is never the password text, and nothing else about it is modelled.
- Mail: `sendEmail` and the React-email template (`src/lib/mailer.ts`, `src/components/email.tsx`) are not part of this model. A sent message is a `Mail(to, subject, fullName, verifyUrl)` entry in the step's `mail` and in the database's ghost outbox. Mailer failures are not modelled, and since the call is not awaited they cannot change the answer.
- Generated tokens, ids and cuids (`src/lib/token.ts`, Prisma defaults) are parameters. A generated value that is already taken gives the 500 of a unique-constraint failure.
- Time: one `now` per request, in integer milliseconds. The two reads of `Date.now()` in one handler are taken to agree.
- BookingsRoute.PostStep, BookingsRoute.Post, TodosRoute.PostStep, TodosRoute.Post: these model the handlers with the corrected date rule (ISO-8601 text). As written, `z.date()` refuses every JSON body, so the real handlers answer 400 to every request; that behaviour is stated only about the schemas, by `BookingsRoute.ZodDateRefusesEveryBody` and `TodosRoute.ZodDateRefusesEveryTodo`.
- Lookups: findUnique by address and findFirst by user id are deterministic only while addresses are unique and each user has at most one session. So `ResendRoute.GetStep`, `ResendRoute.Get`, `VerifyRoute.PostStep`, `VerifyRoute.Post`, `VerifyRoute.Redeem` and `VerifyRoute.OwnerOf` require `EmailsUnique` (and `OneSessionPerUser` for GET). The database schema's unique constraint on the address guarantees the first; the lemmas prove that every handler keeps both.
- Concurrency: requests run one at a time. Races such as two concurrent ticket requests both finding no session are not modelled.
- Http.PageOf: `Number()` is modelled for optionally signed decimal integers and blank text only. Fractional, exponent, hexadecimal and `Infinity` spellings read as NaN, which gives page 1.
- Numbers: JSON numbers are exact reals. A literal that overflows to an infinity, such as `1e400`, is outside the model. Double rounding and the 32-bit integer columns are not modelled, except that a fractional starting price fails the integer `price` column.
- Query strings: only the '+'-to-space rule of `URLSearchParams` is modelled. Percent-escapes are not decoded; the values exchanged here never contain '%'.
- Search: `contains` is case-sensitive substring search, which is what Prisma does in its default mode. The rows a `findMany` returns, and their order, are not computed: the model stops at the query (filter, order keys, take, skip).
- Zod messages: the text of `validation.error.message` is the opaque `ZodIssues`.
- Zod formats: `.email()` and `.cuid()` are predicates written after zod 3.22's patterns (the e-mail pattern of a later zod release would change which addresses pass), and `.datetime()` is the default `YYYY-MM-DDTHH:MM:SS[.fff]Z` form.
- Location and category rows get a generated id (`keys`). Whether a region, city or area that already exists belongs to another country is not checked, since the source does not check it either.
- The login form's 3-second delay, the Google sign-in buttons, the forms' JSX, `toast` and the router are not modelled; page effects are `Client.Action` values.
- Image upload (`src/lib/imageUpload.ts`, `src/app/api/v1/upload/route.ts`) is not part of this model: it is a network upload with no logic of its own.

## Findings

| source | as written | input that shows it | evidently intended | confidence | as-written member | corrected member |
|---|---|---|---|---|---|---|
| src/app/api/v1/bookings/route.ts:10-11 | `startDate` and `endDate` are checked with `z.date()`, which accepts only a `Date` object; `request.json()` never produces one | any booking body, e.g. `{"quantity":1,"totalPrice":100,"startDate":"2024-01-01T00:00:00Z","endDate":"2024-01-02T00:00:00Z","todoId":"t","userId":"u"}`, is refused with 400 | dates sent as ISO-8601 text are accepted (`z.coerce.date()` or `z.string().datetime()`) | not executed | `BookingsRoute.ZodDateRefusesEveryBody` | `BookingsRoute.IsoDatesAccepted` |
| src/app/api/v1/todos/route.ts:18-20 | the three availability and booking dates are checked with `z.date()`, so no JSON body passes the schema | any todo body, including one carrying every field correctly, is refused with 400 | a well-formed todo body with ISO-8601 dates is accepted as that todo | not executed | `TodosRoute.ZodDateRefusesEveryTodo` | `TodosRoute.SchemaReadsBodyBack` |
