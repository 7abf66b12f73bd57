/** The `orderBy` values the list pages offer, one datatype per list, each
    with the query value it is sent as and the way a query value is read
    back. */
module SortOptions {
  import opened Common

  datatype TodoOrder = MostPopular | LowestPrice | HighestPrice | HighestRating | NewlyAdded
  {
    function Value(): string {
      match this
      case MostPopular => "most_popular"
      case LowestPrice => "lowest_price"
      case HighestPrice => "highest_price"
      case HighestRating => "highest_rating"
      case NewlyAdded => "newest"
    }
  }

  /** The todo option a query value names, if any. */
  function ParseTodoOrder(s: string): (r: Option<TodoOrder>)
    ensures r.Some? ==> r.value.Value() == s
    ensures r.None? ==> forall o: TodoOrder :: o.Value() != s
  {
    if s == "most_popular" then Some(MostPopular)
    else if s == "lowest_price" then Some(LowestPrice)
    else if s == "highest_price" then Some(HighestPrice)
    else if s == "highest_rating" then Some(HighestRating)
    else if s == "newest" then Some(NewlyAdded)
    else None
  }

  datatype BookingOrder = Newest | Oldest
  {
    function Value(): string {
      match this
      case Newest => "desc"
      case Oldest => "asc"
    }
  }

  function ParseBookingOrder(s: string): (r: Option<BookingOrder>)
    ensures r.Some? ==> r.value.Value() == s
    ensures r.None? ==> forall o: BookingOrder :: o.Value() != s
  {
    if s == "desc" then Some(Newest) else if s == "asc" then Some(Oldest) else None
  }

  datatype PartnerOrder = NewlyCreated | AToZ | ZToA
  {
    function Value(): string {
      match this
      case NewlyCreated => "latest"
      case AToZ => "asc"
      case ZToA => "desc"
    }
  }

  function ParsePartnerOrder(s: string): (r: Option<PartnerOrder>)
    ensures r.Some? ==> r.value.Value() == s
    ensures r.None? ==> forall o: PartnerOrder :: o.Value() != s
  {
    if s == "latest" then Some(NewlyCreated)
    else if s == "asc" then Some(AToZ)
    else if s == "desc" then Some(ZToA)
    else None
  }

  /** Every option is read back as itself: no two options share a value. */
  lemma ValuesRoundTrip(t: TodoOrder, b: BookingOrder, p: PartnerOrder)
    ensures ParseTodoOrder(t.Value()) == Some(t)
    ensures ParseBookingOrder(b.Value()) == Some(b)
    ensures ParsePartnerOrder(p.Value()) == Some(p)
  {
  }
}
