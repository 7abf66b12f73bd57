/** `/api/v1/todos`. POST validates a todo, refuses a title already used,
    gets or creates its country, region, city, area, location and category,
    and inserts it with its images, packages and schedule; GET builds one
    page of the todo list. */
module TodosRoute {
  import opened Common
  import opened Json
  import opened Entities
  import opened Http
  import opened Store
  import opened SortOptions

  const TITLE_MIN: nat := 5
  const TITLE_MAX: nat := 100

  // --------------------------------------------------------------- schema

  datatype PlaceInput = PlaceInput(id: string, name: string)
  datatype PackageInput = PackageInput(pax: real, price: real, description: string, includes: string)
  datatype ScheduleInput = ScheduleInput(activity: string, time: string, dayCount: int)
  datatype Location = Location(area: PlaceInput, city: PlaceInput, region: PlaceInput, country: string)

  /** What `createTodoSchema` yields, in three parts: the listing itself,
      its booking terms, and its plan (place, category, packages, itinerary). */
  datatype Basics = Basics(
    title: string, description: string, price: int, partnerId: string,
    images: seq<string>, includes: string, highlights: string)
  datatype Terms = Terms(
    minReservationDay: real, isInstantConfirmation: bool, isActive: bool,
    earliestAvailabilityDate: string, latestAvailabilityDate: string, earliestBookingDate: string,
    isRefundable: bool)
  datatype Plan = Plan(
    longLat: seq<real>, category: string, packages: seq<PackageInput>, itinerary: Itinerary,
    location: Location)
  datatype Itinerary = Itinerary(totalDay: real, schedules: seq<ScheduleInput>)
  datatype TodoInput = TodoInput(basics: Basics, terms: Terms, plan: Plan)

  /** `{ id: z.string(), name: z.string() }` */
  function PlaceOf(j: Json): (r: Option<PlaceInput>)
    ensures r.Some? <==> StringField(j, "id").Some? && StringField(j, "name").Some?
    ensures r.Some? ==> r.value == PlaceInput(StringField(j, "id").value, StringField(j, "name").value)
  {
    var id :- StringField(j, "id");
    var name :- StringField(j, "name");
    Some(PlaceInput(id, name))
  }

  function PackageOf(j: Json): (r: Option<PackageInput>)
    ensures r.Some? <==>
              NumberField(j, "pax").Some? && NumberField(j, "price").Some? &&
              StringField(j, "description").Some? && StringField(j, "includes").Some?
    ensures r.Some? ==>
              r.value == PackageInput(NumberField(j, "pax").value, NumberField(j, "price").value,
                                      StringField(j, "description").value, StringField(j, "includes").value)
  {
    var pax :- NumberField(j, "pax");
    var price :- NumberField(j, "price");
    var description :- StringField(j, "description");
    var includes :- StringField(j, "includes");
    Some(PackageInput(pax, price, description, includes))
  }

  /** `z.array(package)`: every element must pass. */
  function PackagesOf(items: seq<Json>): (r: Option<seq<PackageInput>>)
    ensures r.Some? <==> forall i :: 0 <= i < |items| ==> PackageOf(items[i]).Some?
    ensures r.Some? ==> |r.value| == |items| && forall i :: 0 <= i < |items| ==> r.value[i] == PackageOf(items[i]).value
  {
    if items == [] then Some([])
    else
      var first :- PackageOf(items[0]);
      var rest :- PackagesOf(items[1..]);
      assert forall i :: 1 <= i < |items| ==> items[1..][i - 1] == items[i];
      Some([first] + rest)
  }

  function ScheduleOf(j: Json): (r: Option<ScheduleInput>)
    ensures r.Some? <==> StringField(j, "activity").Some? && StringField(j, "time").Some? && IntField(j, "dayCount").Some?
    ensures r.Some? ==>
              r.value == ScheduleInput(StringField(j, "activity").value, StringField(j, "time").value,
                                       IntField(j, "dayCount").value)
  {
    var activity :- StringField(j, "activity");
    var time :- StringField(j, "time");
    var dayCount :- IntField(j, "dayCount");
    Some(ScheduleInput(activity, time, dayCount))
  }

  function SchedulesOf(items: seq<Json>): (r: Option<seq<ScheduleInput>>)
    ensures r.Some? <==> forall i :: 0 <= i < |items| ==> ScheduleOf(items[i]).Some?
    ensures r.Some? ==> |r.value| == |items| && forall i :: 0 <= i < |items| ==> r.value[i] == ScheduleOf(items[i]).value
  {
    if items == [] then Some([])
    else
      var first :- ScheduleOf(items[0]);
      var rest :- SchedulesOf(items[1..]);
      assert forall i :: 1 <= i < |items| ==> items[1..][i - 1] == items[i];
      Some([first] + rest)
  }

  /** The value under `key`, which must be an array. */
  function ArrayField(j: Json, key: string): (r: Option<seq<Json>>)
    ensures r.Some? <==> j.JObj? && key in j.fields && j.fields[key].JArr?
    ensures r.Some? ==> r.value == j.fields[key].items
  {
    var v :- Field(j, key);
    if v.JArr? then Some(v.items) else None
  }

  function LocationOf(j: Json): (r: Option<Location>)
    ensures r.Some? ==> Field(j, "area").Some? && PlaceOf(Field(j, "area").value) == Some(r.value.area)
    ensures r.Some? ==> StringField(j, "country") == Some(r.value.country)
  {
    var areaJ :- Field(j, "area");
    var area :- PlaceOf(areaJ);
    var cityJ :- Field(j, "city");
    var city :- PlaceOf(cityJ);
    var regionJ :- Field(j, "region");
    var region :- PlaceOf(regionJ);
    var country :- StringField(j, "country");
    Some(Location(area, city, region, country))
  }

  /** `isActive: z.boolean().default(true)`: an absent key reads as true. */
  function IsActiveField(j: Json): (r: Option<bool>)
    ensures Field(j, "isActive").None? ==> r == Some(true)
    ensures Field(j, "isActive").Some? ==> r == BoolField(j, "isActive")
  {
    if Field(j, "isActive").None? then Some(true) else BoolField(j, "isActive")
  }

  function BasicsOf(body: Json): (r: Option<Basics>)
    ensures r.Some? ==>
              && StringField(body, "title") == Some(r.value.title)
              && StringField(body, "partnerId") == Some(r.value.partnerId)
              && IntField(body, "price") == Some(r.value.price)
  {
    var title :- StringField(body, "title");
    var description :- StringField(body, "description");
    var price :- IntField(body, "price");
    var partnerId :- StringField(body, "partnerId");
    var imagesJ :- Field(body, "images");
    var images :- AsStrings(imagesJ);
    var includes :- StringField(body, "includes");
    var highlights :- StringField(body, "highlights");
    Some(Basics(title, description, price, partnerId, images, includes, highlights))
  }

  function TermsOf(body: Json, rule: DateRule): (r: Option<Terms>)
    ensures rule.ZodDate? ==> r.None?
    ensures r.Some? ==> (Field(body, "isActive").None? ==> r.value.isActive)
  {
    var minReservationDay :- NumberField(body, "minReservationDay");
    var isInstantConfirmation :- BoolField(body, "isInstantConfirmation");
    var isActive :- IsActiveField(body);
    var earliestAvailabilityDate :- DateField(body, "earliestAvailabilityDate", rule);
    var latestAvailabilityDate :- DateField(body, "latestAvailabilityDate", rule);
    var earliestBookingDate :- DateField(body, "earliestBookingDate", rule);
    var isRefundable :- BoolField(body, "isRefundable");
    Some(Terms(minReservationDay, isInstantConfirmation, isActive, earliestAvailabilityDate,
               latestAvailabilityDate, earliestBookingDate, isRefundable))
  }

  /** `{ totalDay: z.number(), schedules: z.array(schedule) }` */
  function ItineraryOf(j: Json): (r: Option<Itinerary>)
    ensures r.Some? ==> NumberField(j, "totalDay") == Some(r.value.totalDay)
  {
    var totalDay :- NumberField(j, "totalDay");
    var scheduleItems :- ArrayField(j, "schedules");
    var schedules :- SchedulesOf(scheduleItems);
    Some(Itinerary(totalDay, schedules))
  }

  function PlanOf(body: Json): (r: Option<Plan>)
    ensures r.Some? ==> StringField(body, "category") == Some(r.value.category)
  {
    var longLatJ :- Field(body, "longLat");
    var longLat :- AsNumbers(longLatJ);
    var category :- StringField(body, "category");
    var packageItems :- ArrayField(body, "packages");
    var packages :- PackagesOf(packageItems);
    var itineraryJ :- Field(body, "itinerary");
    var itinerary :- ItineraryOf(itineraryJ);
    var locationJ :- Field(body, "location");
    var location :- LocationOf(locationJ);
    Some(Plan(longLat, category, packages, itinerary, location))
  }

  /** `createTodoSchema.safeParse(body)`, the dates read by `rule`: every
      field must parse, the title must hold 5 to 100 UTF-16 units and the
      partner id must be a cuid. */
  function TodoSchema(body: Json, rule: DateRule): (r: Option<TodoInput>)
    ensures rule.ZodDate? ==> r.None?
    ensures StringField(body, "title").Some? && !(TITLE_MIN <= JsLength(StringField(body, "title").value) <= TITLE_MAX) ==>
              r.None?
    ensures r.Some? <==>
              && BasicsOf(body).Some? && TermsOf(body, rule).Some? && PlanOf(body).Some?
              && TITLE_MIN <= JsLength(BasicsOf(body).value.title) <= TITLE_MAX
              && Formats.IsCuid(BasicsOf(body).value.partnerId)
    ensures r.Some? ==>
              && StringField(body, "title") == Some(r.value.basics.title)
              && StringField(body, "partnerId") == Some(r.value.basics.partnerId)
              && StringField(body, "category") == Some(r.value.plan.category)
              && IntField(body, "price") == Some(r.value.basics.price)
              && (Field(body, "isActive").None? ==> r.value.terms.isActive)
  {
    var basics :- BasicsOf(body);
    var terms :- TermsOf(body, rule);
    var plan :- PlanOf(body);
    if TITLE_MIN <= JsLength(basics.title) <= TITLE_MAX && Formats.IsCuid(basics.partnerId) then
      Some(TodoInput(basics, terms, plan))
    else None
  }

  /** As written, the three dates are checked with `z.date()`: no JSON body
      passes, so every todo request is refused with 400. */
  lemma ZodDateRefusesEveryTodo(body: Json)
    ensures TodoSchema(body, ZodDate).None?
  {
  }

  // ---------------------------------------------- the body a client sends

  function PlaceJson(p: PlaceInput): Json {
    JObj(map["id" := JStr(p.id), "name" := JStr(p.name)])
  }

  function PackageJson(p: PackageInput): Json {
    JObj(map["pax" := JNum(p.pax), "price" := JNum(p.price), "description" := JStr(p.description),
             "includes" := JStr(p.includes)])
  }

  function ScheduleJson(s: ScheduleInput): Json {
    JObj(map["activity" := JStr(s.activity), "time" := JStr(s.time), "dayCount" := JNum(s.dayCount as real)])
  }

  function LocationJson(l: Location): Json {
    JObj(map["area" := PlaceJson(l.area), "city" := PlaceJson(l.city), "region" := PlaceJson(l.region),
             "country" := JStr(l.country)])
  }

  function ItineraryJson(i: Itinerary): Json {
    JObj(map["totalDay" := JNum(i.totalDay), "schedules" := SchedulesJson(i.schedules)])
  }

  function PackagesJson(ps: seq<PackageInput>): Json {
    JArr(seq(|ps|, i requires 0 <= i < |ps| => PackageJson(ps[i])))
  }

  function SchedulesJson(ss: seq<ScheduleInput>): Json {
    JArr(seq(|ss|, i requires 0 <= i < |ss| => ScheduleJson(ss[i])))
  }

  function StringsJson(xs: seq<string>): Json {
    JArr(seq(|xs|, i requires 0 <= i < |xs| => JStr(xs[i])))
  }

  function NumbersJson(xs: seq<real>): Json {
    JArr(seq(|xs|, i requires 0 <= i < |xs| => JNum(xs[i])))
  }

  /** The JSON body for a todo, dates written as ISO-8601 text. */
  function BodyOf(x: TodoInput): Json {
    var b, m, p := x.basics, x.terms, x.plan;
    JObj(map[
      "title" := JStr(b.title),
      "description" := JStr(b.description),
      "price" := JNum(b.price as real),
      "partnerId" := JStr(b.partnerId),
      "images" := StringsJson(b.images),
      "includes" := JStr(b.includes),
      "highlights" := JStr(b.highlights),
      "minReservationDay" := JNum(m.minReservationDay),
      "isInstantConfirmation" := JBool(m.isInstantConfirmation),
      "isActive" := JBool(m.isActive),
      "earliestAvailabilityDate" := JStr(m.earliestAvailabilityDate),
      "latestAvailabilityDate" := JStr(m.latestAvailabilityDate),
      "earliestBookingDate" := JStr(m.earliestBookingDate),
      "isRefundable" := JBool(m.isRefundable),
      "longLat" := NumbersJson(p.longLat),
      "category" := JStr(p.category),
      "packages" := PackagesJson(p.packages),
      "itinerary" := ItineraryJson(p.itinerary),
      "location" := LocationJson(p.location)])
  }

  /** The checks a todo must pass to be sent. */
  predicate WellFormed(x: TodoInput) {
    && TITLE_MIN <= JsLength(x.basics.title) <= TITLE_MAX
    && Formats.IsCuid(x.basics.partnerId)
    && Formats.IsIsoDateTime(x.terms.earliestAvailabilityDate)
    && Formats.IsIsoDateTime(x.terms.latestAvailabilityDate)
    && Formats.IsIsoDateTime(x.terms.earliestBookingDate)
  }

  lemma PackagesRoundTrip(ps: seq<PackageInput>)
    ensures PackagesOf(PackagesJson(ps).items) == Some(ps)
  {
    var items := PackagesJson(ps).items;
    forall i | 0 <= i < |ps| ensures PackageOf(items[i]) == Some(ps[i]) {
      assert items[i] == PackageJson(ps[i]);
    }
    assert PackagesOf(items).value == ps;
  }

  lemma SchedulesRoundTrip(ss: seq<ScheduleInput>)
    ensures SchedulesOf(SchedulesJson(ss).items) == Some(ss)
  {
    var items := SchedulesJson(ss).items;
    forall i | 0 <= i < |ss| ensures ScheduleOf(items[i]) == Some(ss[i]) {
      assert items[i] == ScheduleJson(ss[i]);
      assert (ss[i].dayCount as real).Floor == ss[i].dayCount;
    }
    assert SchedulesOf(items).value == ss;
  }

  /** `body` carries the fields of `b` as a client writes them. */
  predicate HasBasics(body: Json, b: Basics) {
    && body.JObj?
    && "title" in body.fields && body.fields["title"] == JStr(b.title)
    && "description" in body.fields && body.fields["description"] == JStr(b.description)
    && "price" in body.fields && body.fields["price"] == JNum(b.price as real)
    && "partnerId" in body.fields && body.fields["partnerId"] == JStr(b.partnerId)
    && "images" in body.fields && body.fields["images"] == StringsJson(b.images)
    && "includes" in body.fields && body.fields["includes"] == JStr(b.includes)
    && "highlights" in body.fields && body.fields["highlights"] == JStr(b.highlights)
  }

  predicate HasTerms(body: Json, m: Terms) {
    && body.JObj?
    && "minReservationDay" in body.fields && body.fields["minReservationDay"] == JNum(m.minReservationDay)
    && "isInstantConfirmation" in body.fields && body.fields["isInstantConfirmation"] == JBool(m.isInstantConfirmation)
    && "isActive" in body.fields && body.fields["isActive"] == JBool(m.isActive)
    && "earliestAvailabilityDate" in body.fields && body.fields["earliestAvailabilityDate"] == JStr(m.earliestAvailabilityDate)
    && "latestAvailabilityDate" in body.fields && body.fields["latestAvailabilityDate"] == JStr(m.latestAvailabilityDate)
    && "earliestBookingDate" in body.fields && body.fields["earliestBookingDate"] == JStr(m.earliestBookingDate)
    && "isRefundable" in body.fields && body.fields["isRefundable"] == JBool(m.isRefundable)
  }

  predicate HasPlan(body: Json, p: Plan) {
    && body.JObj?
    && "longLat" in body.fields && body.fields["longLat"] == NumbersJson(p.longLat)
    && "category" in body.fields && body.fields["category"] == JStr(p.category)
    && "packages" in body.fields && body.fields["packages"] == PackagesJson(p.packages)
    && "itinerary" in body.fields
    && body.fields["itinerary"] == ItineraryJson(p.itinerary)
    && "location" in body.fields && body.fields["location"] == LocationJson(p.location)
  }

  lemma BodyHasBasics(x: TodoInput)
    ensures HasBasics(BodyOf(x), x.basics)
  {
  }

  lemma BodyHasTerms(x: TodoInput)
    ensures HasTerms(BodyOf(x), x.terms)
  {
  }

  lemma BodyHasPlan(x: TodoInput)
    ensures HasPlan(BodyOf(x), x.plan)
  {
  }

  lemma BasicsRoundTrip(body: Json, b: Basics)
    requires HasBasics(body, b)
    ensures BasicsOf(body) == Some(b)
  {
    assert (b.price as real).Floor == b.price;
    assert IntField(body, "price") == Some(b.price);
    assert AsStrings(StringsJson(b.images)).value == b.images;
  }

  lemma TermsRoundTrip(body: Json, m: Terms)
    requires HasTerms(body, m)
    requires Formats.IsIsoDateTime(m.earliestAvailabilityDate) && Formats.IsIsoDateTime(m.latestAvailabilityDate)
    requires Formats.IsIsoDateTime(m.earliestBookingDate)
    ensures TermsOf(body, IsoText) == Some(m)
  {
  }

  lemma ItineraryRoundTrip(i: Itinerary)
    ensures ItineraryOf(ItineraryJson(i)) == Some(i)
  {
    SchedulesRoundTrip(i.schedules);
  }

  lemma LocationRoundTrip(l: Location)
    ensures LocationOf(LocationJson(l)) == Some(l)
  {
  }

  lemma PlanRoundTrip(body: Json, p: Plan)
    requires HasPlan(body, p)
    ensures PlanOf(body) == Some(p)
  {
    assert AsNumbers(NumbersJson(p.longLat)).value == p.longLat;
    PackagesRoundTrip(p.packages);
    ItineraryRoundTrip(p.itinerary);
    LocationRoundTrip(p.location);
  }

  /** A body carrying a well-formed todo's fields as a client writes them
      is read back as that todo, with the dates read as ISO-8601 text. */
  lemma {:induction false} SchemaReadsBack(body: Json, x: TodoInput)
    requires WellFormed(x)
    requires HasBasics(body, x.basics) && HasTerms(body, x.terms) && HasPlan(body, x.plan)
    ensures TodoSchema(body, IsoText) == Some(x)
  {
    BasicsRoundTrip(body, x.basics);
    TermsRoundTrip(body, x.terms);
    PlanRoundTrip(body, x.plan);
  }

  /** In particular, the schema reads a well-formed todo's own body back. */
  lemma {:induction false} SchemaReadsBodyBack(x: TodoInput)
    requires WellFormed(x)
    ensures TodoSchema(BodyOf(x), IsoText) == Some(x)
  {
    BodyHasBasics(x);
    BodyHasTerms(x);
    BodyHasPlan(x);
    SchemaReadsBack(BodyOf(x), x);
  }

  // -------------------------------------------------------------- upserts

  /** `upsert({ where: k, update: {}, create: v })`: an existing row is left
      as it is; otherwise `v` is stored under `k`. */
  function GetOrCreate<K, V>(m: map<K, V>, k: K, v: V): (r: map<K, V>)
    ensures r.Keys == m.Keys + {k}
    ensures forall x :: x in m ==> r[x] == m[x]
    ensures k !in m ==> r[k] == v
  {
    if k in m then m else m[k := v]
  }

  /** Running the same upsert again changes nothing, whatever it would create. */
  lemma GetOrCreateIdempotent<K, V>(m: map<K, V>, k: K, v: V, w: V)
    ensures GetOrCreate(GetOrCreate(m, k, v), k, w) == GetOrCreate(m, k, v)
  {
  }

  /** The generated ids of a location or category row the POST may create. */
  datatype NewKeys = NewKeys(todo: TodoId, location: string, category: string)

  function LocationKeyOf(l: Location): LocationKey {
    LocationKey(l.area.id, l.city.id, l.region.id, l.country)
  }

  /** The six upserts, in order: country, region, city, area, location, category. */
  function Upserts(t: Tables, x: TodoInput, keys: NewKeys): (t': Tables)
    ensures t'.(countries := t.countries, regions := t.regions, cities := t.cities, areas := t.areas,
                locations := t.locations, categories := t.categories) == t
    ensures t'.countries == t.countries + {x.plan.location.country}
    ensures x.plan.location.region.id in t'.regions && x.plan.location.city.id in t'.cities && x.plan.location.area.id in t'.areas
    ensures LocationKeyOf(x.plan.location) in t'.locations && x.plan.category in t'.categories
  {
    var l := x.plan.location;
    t.(countries := t.countries + {l.country},
       regions := GetOrCreate(t.regions, l.region.id, Place(l.region.name, l.country)),
       cities := GetOrCreate(t.cities, l.city.id, Place(l.city.name, l.country)),
       areas := GetOrCreate(t.areas, l.area.id, Place(l.area.name, l.country)),
       locations := GetOrCreate(t.locations, LocationKeyOf(l), keys.location),
       categories := GetOrCreate(t.categories, x.plan.category, keys.category))
  }

  /** Repeating the upserts of a request changes nothing. */
  lemma UpsertsIdempotent(t: Tables, x: TodoInput, keys: NewKeys, keys': NewKeys)
    ensures Upserts(Upserts(t, x, keys), x, keys') == Upserts(t, x, keys)
  {
    var l := x.plan.location;
    GetOrCreateIdempotent(t.regions, l.region.id, Place(l.region.name, l.country), Place(l.region.name, l.country));
    GetOrCreateIdempotent(t.cities, l.city.id, Place(l.city.name, l.country), Place(l.city.name, l.country));
    GetOrCreateIdempotent(t.areas, l.area.id, Place(l.area.name, l.country), Place(l.area.name, l.country));
    GetOrCreateIdempotent(t.locations, LocationKeyOf(l), keys.location, keys'.location);
    GetOrCreateIdempotent(t.categories, x.plan.category, keys.category, keys'.category);
  }

  // ------------------------------------------------------- starting price

  function PricesOf(packages: seq<PackageInput>): (prices: seq<real>)
    ensures |prices| == |packages| && forall i :: 0 <= i < |packages| ==> prices[i] == packages[i].price
  {
    seq(|packages|, i requires 0 <= i < |packages| => packages[i].price)
  }

  /** `Math.min(...prices)` over a non-empty list. */
  function MinPrice(prices: seq<real>): (m: real)
    requires |prices| > 0
    ensures forall i :: 0 <= i < |prices| ==> m <= prices[i]
    ensures exists i :: 0 <= i < |prices| && m == prices[i]
  {
    if |prices| == 1 then prices[0]
    else
      var rest := MinPrice(prices[1..]);
      assert forall i :: 1 <= i < |prices| ==> prices[i] == prices[1..][i - 1];
      if prices[0] <= rest then prices[0] else rest
  }

  /** The price the todo is stored with. None where the insert fails: no
      package gives `Infinity`, and a fractional minimum does not fit the
      integer column. */
  function StartingPrice(packages: seq<PackageInput>): (r: Option<int>)
    ensures r.Some? <==> |packages| > 0 && MinPrice(PricesOf(packages)) == MinPrice(PricesOf(packages)).Floor as real
    ensures r.Some? ==>
              && (forall i :: 0 <= i < |packages| ==> r.value as real <= packages[i].price)
              && (exists i :: 0 <= i < |packages| && r.value as real == packages[i].price)
  {
    if |packages| == 0 then None
    else
      var m := MinPrice(PricesOf(packages));
      if m == m.Floor as real then Some(m.Floor) else None
  }

  // ----------------------------------------------------------- child rows

  function ImageRows(urls: seq<string>): (rows: seq<ImageRow>)
    ensures |rows| == |urls| && forall i :: 0 <= i < |urls| ==> rows[i] == ImageRow(urls[i])
  {
    if urls == [] then []
    else [ImageRow(urls[0])] + ImageRows(urls[1..])
  }

  /** The package rows; `includes` goes to the column spelled `inlcudes`. */
  function PackageRows(ps: seq<PackageInput>): (rows: seq<PackageRow>)
    ensures |rows| == |ps|
    ensures forall i :: 0 <= i < |ps| ==> rows[i] == PackageRow(ps[i].price, ps[i].pax, ps[i].includes, ps[i].description)
  {
    if ps == [] then []
    else [PackageRow(ps[0].price, ps[0].pax, ps[0].includes, ps[0].description)] + PackageRows(ps[1..])
  }

  function ScheduleRows(ss: seq<ScheduleInput>): (rows: seq<ScheduleRow>)
    ensures |rows| == |ss|
    ensures forall i :: 0 <= i < |ss| ==> rows[i] == ScheduleRow(ss[i].activity, ss[i].dayCount, ss[i].time)
  {
    if ss == [] then []
    else [ScheduleRow(ss[0].activity, ss[0].dayCount, ss[0].time)] + ScheduleRows(ss[1..])
  }

  /** The todo row with its children. `longLat` must hold two numbers. */
  function NewTodo(x: TodoInput, price: int, locationId: string, categoryId: string): Todo
    requires |x.plan.longLat| >= 2
  {
    Todo(x.basics.title, x.basics.description, price, x.basics.highlights, x.basics.partnerId, x.basics.includes, x.terms.minReservationDay,
         x.terms.isRefundable, x.terms.isInstantConfirmation, x.terms.earliestAvailabilityDate, x.terms.latestAvailabilityDate,
         x.terms.earliestBookingDate, locationId, categoryId, x.plan.longLat[0], x.plan.longLat[1],
         ImageRows(x.basics.images), PackageRows(x.plan.packages), x.plan.itinerary.totalDay,
         ScheduleRows(x.plan.itinerary.schedules))
  }

  // ----------------------------------------------------------------- POST

  /** Some todo already has the title. */
  predicate TitleTaken(todos: map<TodoId, Todo>, title: string) {
    exists id :: id in todos && todos[id].title == title
  }

  /** The insert after the upserts runs: None where it throws, which the
      catch block logs without answering. */
  function Insert(u: Tables, x: TodoInput, keys: NewKeys): (r: Option<Todo>)
    requires LocationKeyOf(x.plan.location) in u.locations && x.plan.category in u.categories
    ensures r.Some? <==>
              StartingPrice(x.plan.packages).Some? && |x.plan.longLat| >= 2 && x.basics.partnerId in u.partners && keys.todo !in u.todos
    ensures r.Some? ==>
              && r.value.title == x.basics.title && r.value.partnerId == x.basics.partnerId
              && r.value.price == StartingPrice(x.plan.packages).value
              && r.value.locationId == u.locations[LocationKeyOf(x.plan.location)]
              && r.value.categoryId == u.categories[x.plan.category]
              && r.value.images == ImageRows(x.basics.images)
              && r.value.packages == PackageRows(x.plan.packages)
              && r.value.schedules == ScheduleRows(x.plan.itinerary.schedules)
  {
    var price :- StartingPrice(x.plan.packages);
    if |x.plan.longLat| < 2 || x.basics.partnerId !in u.partners || keys.todo in u.todos then None
    else Some(NewTodo(x, price, u.locations[LocationKeyOf(x.plan.location)], u.categories[x.plan.category]))
  }

  /** What follows the title check: the upserts, then the insert. The
      upserts stay even when the insert throws. */
  function CommitStep(t: Tables, x: TodoInput, keys: NewKeys): (e: Effect)
    ensures e.mail == []
    ensures e.tables.(todos := t.todos) == Upserts(t, x, keys)
    ensures e.response.Status() == 201 <==> Insert(Upserts(t, x, keys), x, keys).Some?
    ensures e.response.Status() != 201 ==> e.response == Unhandled && e.tables.todos == t.todos
    ensures e.response.Status() == 201 ==>
              && e.tables.todos == t.todos[keys.todo := Insert(Upserts(t, x, keys), x, keys).value]
              && e.response == Data(201, TodoRecord(keys.todo, Insert(Upserts(t, x, keys), x, keys).value))
  {
    var u := Upserts(t, x, keys);
    match Insert(u, x, keys)
    case None => Effect(Unhandled, u, [])
    case Some(todo) => Effect(Data(201, TodoRecord(keys.todo, todo)), u.(todos := u.todos[keys.todo := todo]), [])
  }

  /** A created todo is stored under the new key, next to every todo already
      there. */
  lemma CommitCreatesTodo(t: Tables, x: TodoInput, keys: NewKeys)
    requires CommitStep(t, x, keys).response.Status() == 201
    ensures var e := CommitStep(t, x, keys);
            && keys.todo !in t.todos && e.tables.todos.Keys == t.todos.Keys + {keys.todo}
            && (forall id :: id in t.todos ==> e.tables.todos[id] == t.todos[id])
            && e.response == Data(201, TodoRecord(keys.todo, e.tables.todos[keys.todo]))
  {
  }

  /** The created todo has the request's title and partner, the partner
      exists, and its price is the cheapest package's price. */
  lemma CommitPricesTodo(t: Tables, x: TodoInput, keys: NewKeys)
    requires CommitStep(t, x, keys).response.Status() == 201
    ensures keys.todo in CommitStep(t, x, keys).tables.todos
    ensures var todo := CommitStep(t, x, keys).tables.todos[keys.todo];
            && todo.title == x.basics.title && todo.partnerId == x.basics.partnerId
            && todo.partnerId in t.partners
            && (forall i :: 0 <= i < |x.plan.packages| ==> todo.price as real <= x.plan.packages[i].price)
            && (exists i :: 0 <= i < |x.plan.packages| && todo.price as real == x.plan.packages[i].price)
  {
    var todo := Insert(Upserts(t, x, keys), x, keys).value;
    assert CommitStep(t, x, keys).tables.todos[keys.todo] == todo;
  }

  /** The todo a request carries, when it has a body that parses. */
  function Parsed(body: Option<Json>): Option<TodoInput> {
    if body.Some? then TodoSchema(body.value, IsoText) else None
  }

  /** POST /api/v1/todos, dates read as ISO-8601 text: a missing body, a
      body the schema refuses and a title already used are answered before
      anything is written; past them the request commits. */
  function PostStep(t: Tables, body: Option<Json>, keys: NewKeys): (e: Effect)
    ensures e.mail == []
    ensures e.tables.(todos := t.todos, countries := t.countries, regions := t.regions, cities := t.cities,
                      areas := t.areas, locations := t.locations, categories := t.categories) == t
    ensures body.None? ==> e.response == Unhandled && e.tables == t
    ensures body.Some? && Parsed(body).None? ==> e.response == Failure(400, ZodIssues) && e.tables == t
    ensures Parsed(body).Some? && TitleTaken(t.todos, Parsed(body).value.basics.title) ==>
              && e.response == Failure(400, Literal("Todo with the name " + Parsed(body).value.basics.title + " is already exist"))
              && e.tables == t
    ensures Parsed(body).Some? && !TitleTaken(t.todos, Parsed(body).value.basics.title) ==>
              e == CommitStep(t, Parsed(body).value, keys)
  {
    match body
    case None => Effect(Unhandled, t, [])
    case Some(json) =>
      match TodoSchema(json, IsoText)
      case None => Effect(Failure(400, ZodIssues), t, [])
      case Some(x) =>
        if TitleTaken(t.todos, x.basics.title) then
          Effect(Failure(400, Literal("Todo with the name " + x.basics.title + " is already exist")), t, [])
        else CommitStep(t, x, keys)
  }

  /** Todo titles stay unique. */
  lemma PostKeepsTitlesUnique(t: Tables, body: Option<Json>, keys: NewKeys)
    requires forall a, b :: a in t.todos && b in t.todos && t.todos[a].title == t.todos[b].title ==> a == b
    ensures var ts := PostStep(t, body, keys).tables.todos;
            forall a, b :: a in ts && b in ts && ts[a].title == ts[b].title ==> a == b
  {
    var e := PostStep(t, body, keys);
    if e.response.Status() == 201 {
      var x := Parsed(body).value;
      assert !TitleTaken(t.todos, x.basics.title);
      CommitCreatesTodo(t, x, keys);
      CommitPricesTodo(t, x, keys);
    }
  }

  method Post(db: Database, body: Option<Json>, keys: NewKeys) returns (r: Response)
    modifies db
    ensures r == PostStep(old(db.Snapshot()), body, keys).response
    ensures db.Snapshot() == PostStep(old(db.Snapshot()), body, keys).tables
    ensures db.outbox == old(db.outbox)
  {
    if body.None? { return Unhandled; }
    var validation := TodoSchema(body.value, IsoText);
    if validation.None? { return Failure(400, ZodIssues); }
    var x := validation.value;
    if TitleTaken(db.todos, x.basics.title) {
      return Failure(400, Literal("Todo with the name " + x.basics.title + " is already exist"));
    }
    r := Commit(db, x, keys);
  }

  method Commit(db: Database, x: TodoInput, keys: NewKeys) returns (r: Response)
    modifies db
    ensures r == CommitStep(old(db.Snapshot()), x, keys).response
    ensures db.Snapshot() == CommitStep(old(db.Snapshot()), x, keys).tables
    ensures db.outbox == old(db.outbox)
  {
    ghost var t := db.Snapshot();
    Upsert(db, x, keys);
    ghost var u := db.Snapshot();
    var l := x.plan.location;
    var price := StartingPrice(x.plan.packages);
    // the insert throws; the catch block logs and answers nothing
    if price.None? || |x.plan.longLat| < 2 || x.basics.partnerId !in db.partners || keys.todo in db.todos {
      assert Insert(u, x, keys).None?;
      return Unhandled;
    }
    var todo := NewTodo(x, price.value, db.locations[LocationKeyOf(l)], db.categories[x.plan.category]);
    assert Insert(u, x, keys) == Some(todo);
    InsertTodo(db, keys.todo, todo);
    r := Data(201, TodoRecord(keys.todo, todo));
  }

  method InsertTodo(db: Database, id: TodoId, todo: Todo)
    modifies db
    ensures db.Snapshot() == old(db.Snapshot()).(todos := old(db.todos)[id := todo])
    ensures db.outbox == old(db.outbox)
  {
    db.todos := db.todos[id := todo];
  }

  /** The six upserts, one table at a time. */
  method Upsert(db: Database, x: TodoInput, keys: NewKeys)
    modifies db
    ensures db.Snapshot() == Upserts(old(db.Snapshot()), x, keys)
    ensures db.outbox == old(db.outbox)
  {
    var l := x.plan.location;
    UpsertCountry(db, l.country);
    UpsertRegion(db, l.region.id, Place(l.region.name, l.country));
    UpsertCity(db, l.city.id, Place(l.city.name, l.country));
    UpsertArea(db, l.area.id, Place(l.area.name, l.country));
    UpsertLocation(db, LocationKeyOf(l), keys.location);
    UpsertCategory(db, x.plan.category, keys.category);
  }

  method UpsertCountry(db: Database, name: string)
    modifies db
    ensures db.Snapshot() == old(db.Snapshot()).(countries := old(db.countries) + {name})
    ensures db.outbox == old(db.outbox)
  {
    db.countries := db.countries + {name};
  }

  method UpsertRegion(db: Database, id: string, row: Place)
    modifies db
    ensures db.Snapshot() == old(db.Snapshot()).(regions := GetOrCreate(old(db.regions), id, row))
    ensures db.outbox == old(db.outbox)
  {
    db.regions := GetOrCreate(db.regions, id, row);
  }

  method UpsertCity(db: Database, id: string, row: Place)
    modifies db
    ensures db.Snapshot() == old(db.Snapshot()).(cities := GetOrCreate(old(db.cities), id, row))
    ensures db.outbox == old(db.outbox)
  {
    db.cities := GetOrCreate(db.cities, id, row);
  }

  method UpsertArea(db: Database, id: string, row: Place)
    modifies db
    ensures db.Snapshot() == old(db.Snapshot()).(areas := GetOrCreate(old(db.areas), id, row))
    ensures db.outbox == old(db.outbox)
  {
    db.areas := GetOrCreate(db.areas, id, row);
  }

  method UpsertLocation(db: Database, key: LocationKey, newId: string)
    modifies db
    ensures db.Snapshot() == old(db.Snapshot()).(locations := GetOrCreate(old(db.locations), key, newId))
    ensures db.outbox == old(db.outbox)
  {
    db.locations := GetOrCreate(db.locations, key, newId);
  }

  method UpsertCategory(db: Database, name: string, newId: string)
    modifies db
    ensures db.Snapshot() == old(db.Snapshot()).(categories := GetOrCreate(old(db.categories), name, newId))
    ensures db.outbox == old(db.outbox)
  {
    db.categories := GetOrCreate(db.categories, name, newId);
  }

  // ------------------------------------------------------------------ GET

  /** The sort each todo option stands for; None for "highest_rating",
      whose branch writes through the undefined `sort.rating` and throws. */
  function TodoKeys(o: TodoOrder): Option<seq<SortKey>> {
    match o
    case MostPopular => Some([BookingsCountDesc, ReviewsCountDesc])
    case HighestPrice => Some([PriceDesc])
    case LowestPrice => Some([PriceAsc])
    case HighestRating => None
    case NewlyAdded => Some([CreatedAtDesc])
  }

  /** The `switch` on `orderBy`, absent or empty read as "most_popular"; a
      value that names no option leaves the order empty. */
  function TodoSort(orderBy: Option<string>): (r: Option<seq<SortKey>>)
    ensures !Given(orderBy) ==> r == Some([BookingsCountDesc, ReviewsCountDesc])
    ensures Given(orderBy) && ParseTodoOrder(orderBy.value).Some? ==> r == TodoKeys(ParseTodoOrder(orderBy.value).value)
    ensures Given(orderBy) && ParseTodoOrder(orderBy.value).None? ==> r == Some([])
  {
    var value := if Given(orderBy) then orderBy.value else "most_popular";
    match ParseTodoOrder(value)
    case Some(o) => TodoKeys(o)
    case None => Some([])
  }

  /** The options that do not throw pick distinct sorts; only
      "highest_rating" throws. */
  lemma TodoSortOptions(a: TodoOrder, b: TodoOrder)
    ensures TodoKeys(a).None? <==> a == HighestRating
    ensures TodoKeys(a).Some? && TodoKeys(a) == TodoKeys(b) ==> a == b
    ensures TodoSort(Some(a.Value())) == TodoKeys(a)
  {
  }

  /** The todo list query; the throw in the switch comes before the query
      and outside the try block. */
  function GetListing(orderBy: Option<string>, page: Option<string>, q: Option<string>): (l: Listing)
    ensures TodoSort(orderBy).None? ==> l == Respond(Unhandled)
    ensures TodoSort(orderBy).Some? ==>
              && (l.FindMany? <==> PageOf(page) >= 1)
              && (l.FindMany? ==>
                    l.orderBy == TodoSort(orderBy).value && l.take == PAGE_SIZE &&
                    l.skip == (PageOf(page) - 1) * PAGE_SIZE as int && l.filter == FilterOf(q))
              && (l.Respond? ==> l.response == InternalError)
  {
    match TodoSort(orderBy)
    case None => Respond(Unhandled)
    case Some(sort) => FindPage(FilterOf(q), sort, PageOf(page))
  }

  /** Prisma's `where` for a todo: the title contains the search text. */
  predicate Matches(x: Todo, filter: Filter) {
    match filter
    case Everything => true
    case Search(q) => Contains(x.title, q)
  }

  lemma SearchFilter(x: Todo, q: Option<string>)
    ensures Matches(x, FilterOf(q)) <==> !Given(q) || Contains(x.title, q.value)
  {
  }
}
