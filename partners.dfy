/** `/api/v1/partners`. POST validates and inserts a partner whose name is
    not taken yet; GET builds one page of the partner list. */
module PartnersRoute {
  import opened Common
  import opened Json
  import opened Entities
  import opened Http
  import opened Store
  import opened SortOptions

  const NAME_MAX: nat := 36
  const DESCRIPTION_MAX: nat := 191

  /** `createPartnerSchema.safeParse(body)`: lengths in UTF-16 units. */
  function PartnerSchema(body: Json): (r: Option<Partner>)
    ensures r.Some? <==>
              && StringField(body, "email").Some? && Formats.IsEmail(StringField(body, "email").value)
              && StringField(body, "name").Some? && JsLength(StringField(body, "name").value) <= NAME_MAX
              && StringField(body, "description").Some? && JsLength(StringField(body, "description").value) <= DESCRIPTION_MAX
              && StringField(body, "imageUrl").Some?
    ensures r.Some? ==>
              r.value == Partner(StringField(body, "name").value, StringField(body, "email").value,
                                 StringField(body, "description").value, StringField(body, "imageUrl").value)
  {
    var email :- StringField(body, "email");
    var name :- StringField(body, "name");
    var description :- StringField(body, "description");
    var imageUrl :- StringField(body, "imageUrl");
    if Formats.IsEmail(email) && JsLength(name) <= NAME_MAX && JsLength(description) <= DESCRIPTION_MAX then
      Some(Partner(name, email, description, imageUrl))
    else None
  }

  /** Some partner already has the name. */
  predicate NameTaken(partners: map<PartnerId, Partner>, name: string) {
    exists id :: id in partners && partners[id].name == name
  }

  /** POST /api/v1/partners. `newId` is the key the database generates. */
  function PostStep(t: Tables, body: Option<Json>, newId: PartnerId): (e: Effect)
    ensures e.mail == [] && e.tables.(partners := t.partners) == t
    ensures e.response.Status() != 201 ==> e.tables == t
    ensures body.None? ==> e.response == Unhandled
    ensures body.Some? && PartnerSchema(body.value).None? ==> e.response == Text(400, ZodIssues)
    ensures body.Some? && PartnerSchema(body.value).Some? && NameTaken(t.partners, PartnerSchema(body.value).value.name) ==>
              e.response == Text(400, Literal("Partner with name " + PartnerSchema(body.value).value.name + " already exists"))
    ensures e.response.Status() == 201 <==>
              && body.Some? && PartnerSchema(body.value).Some?
              && !NameTaken(t.partners, PartnerSchema(body.value).value.name)
              && newId !in t.partners
    ensures e.response.Status() == 201 ==>
              && e.tables.partners == t.partners[newId := PartnerSchema(body.value).value]
              && e.response == Data(201, PartnerRecord(newId, PartnerSchema(body.value).value))
  {
    match body
    case None => Effect(Unhandled, t, [])
    case Some(json) =>
      match PartnerSchema(json)
      case None => Effect(Text(400, ZodIssues), t, [])
      case Some(p) =>
        if NameTaken(t.partners, p.name) then
          Effect(Text(400, Literal("Partner with name " + p.name + " already exists")), t, [])
        else if newId in t.partners then Effect(InternalError, t, [])
        else Effect(Data(201, PartnerRecord(newId, p)), t.(partners := t.partners[newId := p]), [])
  }

  /** Partner names stay unique: a POST never adds a second partner with a
      name already present. */
  lemma PostKeepsNamesUnique(t: Tables, body: Option<Json>, newId: PartnerId)
    requires forall a, b :: a in t.partners && b in t.partners && t.partners[a].name == t.partners[b].name ==> a == b
    ensures var ps := PostStep(t, body, newId).tables.partners;
            forall a, b :: a in ps && b in ps && ps[a].name == ps[b].name ==> a == b
  {
    var e := PostStep(t, body, newId);
    if e.response.Status() == 201 {
      var p := PartnerSchema(body.value).value;
      assert !NameTaken(t.partners, p.name);
      assert e.tables.partners == t.partners[newId := p];
    }
  }

  method Post(db: Database, body: Option<Json>, newId: PartnerId) returns (r: Response)
    modifies db
    ensures r == PostStep(old(db.Snapshot()), body, newId).response
    ensures db.Snapshot() == PostStep(old(db.Snapshot()), body, newId).tables
    ensures db.outbox == old(db.outbox)
  {
    if body.None? { return Unhandled; }
    var validation := PartnerSchema(body.value);
    if validation.None? { return Text(400, ZodIssues); }
    var p := validation.value;
    if NameTaken(db.partners, p.name) {
      return Text(400, Literal("Partner with name " + p.name + " already exists"));
    }
    if newId in db.partners { return InternalError; }
    db.partners := db.partners[newId := p];
    r := Data(201, PartnerRecord(newId, p));
  }

  // ------------------------------------------------------------------ GET

  /** The sort each partner option stands for. */
  function PartnerKey(o: PartnerOrder): SortKey {
    match o
    case NewlyCreated => CreatedAtDesc
    case ZToA => NameDesc
    case AToZ => NameAsc
  }

  /** The `switch` on `orderBy`, absent or empty read as "desc"; a value that
      names no option sorts by name ascending. */
  function PartnerSort(orderBy: Option<string>): (k: SortKey)
    ensures !Given(orderBy) ==> k == NameDesc
    ensures Given(orderBy) && ParsePartnerOrder(orderBy.value).Some? ==> k == PartnerKey(ParsePartnerOrder(orderBy.value).value)
    ensures Given(orderBy) && ParsePartnerOrder(orderBy.value).None? ==> k == NameAsc
  {
    var value := if Given(orderBy) then orderBy.value else "desc";
    match ParsePartnerOrder(value)
    case Some(o) => PartnerKey(o)
    case None => NameAsc
  }

  /** Each option picks its own sort, and what the page sends as an option's
      value gives that option's sort. */
  lemma PartnerSortOptions(a: PartnerOrder, b: PartnerOrder)
    ensures PartnerKey(a) == PartnerKey(b) ==> a == b
    ensures PartnerSort(Some(a.Value())) == PartnerKey(a)
  {
  }

  function GetListing(orderBy: Option<string>, page: Option<string>, q: Option<string>): (l: Listing)
    ensures l.FindMany? <==> PageOf(page) >= 1
    ensures l.FindMany? ==>
              && l.orderBy == [PartnerSort(orderBy)]
              && l.take == PAGE_SIZE && l.skip == (PageOf(page) - 1) * PAGE_SIZE as int
              && l.filter == FilterOf(q)
    ensures l.Respond? ==> l.response == InternalError
  {
    FindPage(FilterOf(q), [PartnerSort(orderBy)], PageOf(page))
  }

  /** Prisma's `where` for a partner: the name contains the search text. */
  predicate Matches(p: Partner, filter: Filter) {
    match filter
    case Everything => true
    case Search(q) => Contains(p.name, q)
  }

  lemma SearchFilter(p: Partner, q: Option<string>)
    ensures Matches(p, FilterOf(q)) <==> !Given(q) || Contains(p.name, q.value)
  {
  }
}
