/** What the API handler reads from the query the filter page sends: the
    client's state, serialised by the query builder, compiles to the filter,
    list filters, sort and page the user chose. Each step is split in two:
    what the query holds for a state, and what the handler makes of any
    query that holds it. */
module Wire {
  import opened Records
  import opened JsText
  import opened Seqs
  import Api
  import opened Filters

  // ---------------------------------------------------------------------
  // Page and limit

  /** A numeric parameter sent as a printed number parses back to it,
      whatever the fallback. */
  lemma NumberParam(q: Api.Query, name: string, n: int, fallback: string)
    requires Api.Lookup(q, name) == Some(IntToString(n))
    ensures ParseInt(Api.OrDefault(Api.Lookup(q, name), fallback)) == Num(n)
  {
    IntToStringParseInt(n);
  }

  /** The handler's page and limit for a query carrying them as printed
      numbers. */
  lemma PagingOf(q: Api.Query, page: int, limit: int)
    requires Api.Lookup(q, "page") == Some(IntToString(page))
    requires Api.Lookup(q, "limit") == Some(IntToString(limit))
    ensures Api.PageParam(q) == Num(page) && Api.LimitParam(q) == Num(limit)
    ensures Api.ValidPaging(q) <==> page >= 1 && limit >= 1
  {
    NumberParam(q, "page", page, "1");
    NumberParam(q, "limit", limit, "50");
  }

  lemma PagingSent(s: FilterState)
    ensures Api.Lookup(QueryOf(s), "page") == Some(IntToString(s.page))
    ensures Api.Lookup(QueryOf(s), "limit") == Some(IntToString(s.limit))
  {
    QueryLookup(s, Page);
    QueryLookup(s, Limit);
  }

  /** Page and limit reach the handler unchanged; a reachable state always
      passes its paging check. */
  lemma ServerPaging(s: FilterState)
    ensures Api.PageParam(QueryOf(s)) == Num(s.page) && Api.LimitParam(QueryOf(s)) == Num(s.limit)
    ensures Api.ValidPaging(QueryOf(s)) <==> s.page >= 1 && s.limit >= 1
  {
    PagingSent(s);
    PagingOf(QueryOf(s), s.page, s.limit);
  }

  // ---------------------------------------------------------------------
  // Checkbox lists

  /** Entries that are non-empty and hold no comma. */
  predicate Listable(list: seq<string>)
  {
    forall v :: v in list ==> v != "" && ',' !in v
  }

  lemma JoinNonEmpty(parts: seq<string>, sep: char)
    requires |parts| >= 1 && parts[0] != ""
    ensures Join(parts, sep) != ""
  {
    if |parts| > 1 {
      assert (parts[0] + [sep] + Join(parts[1..], sep))[0] == parts[0][0];
    }
  }

  /** A non-empty list of such entries, joined with ',', is a non-empty
      parameter that the handler's split(',') turns back into the list. */
  lemma ListRoundTrip(list: seq<string>)
    requires list != [] && Listable(list)
    ensures Api.Given(Some(Join(list, ','))) && Split(Join(list, ','), ',') == list
  {
    assert list[0] in list;
    JoinNonEmpty(list, ',');
    forall i | 0 <= i < |list| ensures ',' !in list[i] {
      assert list[i] in list;
    }
    SplitJoin(list, ',');
  }

  /** The checkbox options are such entries. */
  lemma OptionsListable(s: FilterState)
    requires Good(s)
    ensures Listable(s.affordability) && Listable(s.institutionAge)
  {
    forall v | v in s.affordability ensures v != "" && ',' !in v {
      OptionListable(v, TierOptions);
    }
    forall v | v in s.institutionAge ensures v != "" && ',' !in v {
      OptionListable(v, AgeOptions);
    }
  }

  /** A checkbox value is one of the page's lower-case words. */
  lemma OptionListable(v: string, options: seq<string>)
    requires v in options && (options == TierOptions || options == AgeOptions)
    ensures v != "" && ',' !in v
  {
    var i :| 0 <= i < |options| && options[i] == v;
    assert forall k :: 0 <= k < |v| ==> 'a' <= v[k] <= 'z';
  }

  /** How a list is sent: absent when empty, joined with ',' otherwise. */
  function ListParam(list: seq<string>): Option<string>
  {
    if list == [] then None else Some(Join(list, ','))
  }

  lemma ListsSent(s: FilterState)
    ensures Api.Lookup(QueryOf(s), "affordability") == ListParam(s.affordability)
    ensures Api.Lookup(QueryOf(s), "institutionAge") == ListParam(s.institutionAge)
  {
    QueryLookup(s, Affordability);
    QueryLookup(s, InstitutionAge);
  }

  /** The handler's affordability step on a query carrying a sent list. */
  lemma AffordabilityOf(q: Api.Query, list: seq<string>, xs: seq<University>)
    requires Api.Lookup(q, "affordability") == ListParam(list) && Listable(list)
    ensures Api.ByAffordability(q, xs) == if list == [] then xs else Keep(xs, Api.TierTest(list))
  {
    if list != [] {
      ListRoundTrip(list);
    }
  }

  /** The handler's age step on a query carrying a sent list. */
  lemma AgeOf(q: Api.Query, list: seq<string>, currentYear: int, xs: seq<University>)
    requires Api.Lookup(q, "institutionAge") == ListParam(list) && Listable(list)
    ensures Api.ByAge(q, currentYear, xs) == if list == [] then xs else Keep(xs, Api.AgeTest(list, currentYear))
  {
    if list != [] {
      ListRoundTrip(list);
    }
  }

  /** The handler's list steps keep exactly the records whose tier and age
      category are ticked; an empty list keeps everything. */
  lemma ServerLists(s: FilterState, currentYear: int, xs: seq<University>)
    requires Good(s)
    ensures Api.ByAffordability(QueryOf(s), xs)
            == if s.affordability == [] then xs else Keep(xs, Api.TierTest(s.affordability))
    ensures Api.ByAge(QueryOf(s), currentYear, xs)
            == if s.institutionAge == [] then xs else Keep(xs, Api.AgeTest(s.institutionAge, currentYear))
  {
    ListsSent(s);
    OptionsListable(s);
    AffordabilityOf(QueryOf(s), s.affordability, xs);
    AgeOf(QueryOf(s), s.institutionAge, currentYear, xs);
  }

  // ---------------------------------------------------------------------
  // Sorting

  lemma SortSent(s: FilterState)
    ensures Api.Lookup(QueryOf(s), "valueForMoney") == if s.valueForMoney then Some("true") else None
    ensures Api.Lookup(QueryOf(s), "sortBy") == Sent(s.sortBy)
    ensures Api.Lookup(QueryOf(s), "sortOrder") == Sent(s.sortOrder)
  {
    var q := QueryOf(s);
    QueryLookup(s, ValueForMoney);
    assert Api.Lookup(q, "valueForMoney") == if s.valueForMoney then Some("true") else None;
    QueryLookup(s, SortBy);
    assert Api.Lookup(q, "sortBy") == Sent(s.sortBy);
    QueryLookup(s, SortOrder);
  }

  /** The sort steps the handler takes for a query carrying the client's
      choices. */
  lemma SortOf(q: Api.Query, valueForMoney: bool, sortBy: string, sortOrder: string)
    requires Api.Lookup(q, "valueForMoney") == if valueForMoney then Some("true") else None
    requires Api.Lookup(q, "sortBy") == Sent(sortBy) && Api.Lookup(q, "sortOrder") == Sent(sortOrder)
    requires sortBy in SortOptions
    ensures Api.WantsValue(q) <==> valueForMoney
    ensures Api.Given(Api.Lookup(q, "sortBy"))
    ensures Api.SortField(q) == Api.FieldNamed(sortBy) && Api.IsDataField(Api.SortField(q))
    ensures Api.SortOrder(q) == if sortOrder == "desc" then -1 else 1
  {
  }

  /** The handler runs the value sort exactly when the box is ticked, and
      sorts by the property and in the direction the client selected. */
  lemma ServerSort(s: FilterState)
    requires Good(s)
    ensures Api.WantsValue(QueryOf(s)) <==> s.valueForMoney
    ensures Api.Given(Api.Lookup(QueryOf(s), "sortBy"))
    ensures Api.SortField(QueryOf(s)) == Api.FieldNamed(s.sortBy) && Api.IsDataField(Api.SortField(QueryOf(s)))
    ensures Api.SortOrder(QueryOf(s)) == if s.sortOrder == "desc" then -1 else 1
  {
    SortSent(s);
    SortOf(QueryOf(s), s.valueForMoney, s.sortBy, s.sortOrder);
  }

  // ---------------------------------------------------------------------
  // The database filter

  /** The text of an optional text input as the handler sees it. */
  function Sent(text: string): Option<string>
  {
    if text != "" then Some(text) else None
  }

  /** A name no field has is never in the query. */
  lemma Unsent(s: FilterState, name: string)
    requires forall f :: Name(f) != name
    ensures Api.Lookup(QueryOf(s), name) == None
  {
    QueryKeys(s);
    if Api.Lookup(QueryOf(s), name).Some? {
      assert false;
    }
  }

  lemma TextsSent(s: FilterState)
    ensures Api.Lookup(QueryOf(s), "region") == Sent(s.region)
    ensures Api.Lookup(QueryOf(s), "countries") == Sent(s.countries)
    ensures Api.Lookup(QueryOf(s), "search") == Sent(s.search)
  {
    QueryLookup(s, Region);
    QueryLookup(s, Countries);
    QueryLookup(s, Search);
  }

  lemma BoundsSent(s: FilterState)
    ensures Api.Lookup(QueryOf(s), "minTuition") == Sent(s.minTuition)
    ensures Api.Lookup(QueryOf(s), "maxTuition") == Sent(s.maxTuition)
    ensures Api.Lookup(QueryOf(s), "topTier") == Sent(s.topTier)
  {
    var q := QueryOf(s);
    QueryLookup(s, MinTuition);
    assert Api.Lookup(q, "minTuition") == Sent(s.minTuition);
    QueryLookup(s, MaxTuition);
    assert Api.Lookup(q, "maxTuition") == Sent(s.maxTuition);
    QueryLookup(s, TopTier);
  }

  /** The page has no input for a location, ranking bounds or year bounds. */
  lemma NeverSent(s: FilterState)
    ensures Api.Lookup(QueryOf(s), "location") == None
    ensures Api.Lookup(QueryOf(s), "minRanking") == None && Api.Lookup(QueryOf(s), "maxRanking") == None
    ensures Api.Lookup(QueryOf(s), "minYear") == None && Api.Lookup(QueryOf(s), "maxYear") == None
  {
    NoSuchFields();
    Unsent(s, "location");
    BoundsUnsent(s, "minRanking", "maxRanking");
    BoundsUnsent(s, "minYear", "maxYear");
  }

  /** No field of the page is named after a location, ranking or year
      parameter. */
  lemma NoSuchFields()
    ensures forall f :: Name(f) != "location"
    ensures forall f :: Name(f) != "minRanking" && Name(f) != "maxRanking"
    ensures forall f :: Name(f) != "minYear" && Name(f) != "maxYear"
  {
  }

  /** A pair of bounds no field is named after is never sent. */
  lemma BoundsUnsent(s: FilterState, low: string, high: string)
    requires forall f :: Name(f) != low && Name(f) != high
    ensures Api.Lookup(QueryOf(s), low) == None && Api.Lookup(QueryOf(s), high) == None
  {
    Unsent(s, low);
    Unsent(s, high);
  }

  /** The filter the handler compiles from a query with only the page's
      parameters. */
  lemma FilterFrom(q: Api.Query, region: string, search: string, minTuition: string, maxTuition: string,
                   topTier: string)
    requires Api.Lookup(q, "region") == Sent(region) && region in RegionOptions
    requires Api.Lookup(q, "countries") == None && Api.Lookup(q, "search") == Sent(search)
    requires Api.Lookup(q, "minTuition") == Sent(minTuition) && Api.Lookup(q, "maxTuition") == Sent(maxTuition)
    requires Api.Lookup(q, "topTier") == Sent(topTier)
    requires Api.Lookup(q, "location") == None
    requires Api.Lookup(q, "minRanking") == None && Api.Lookup(q, "maxRanking") == None
    requires Api.Lookup(q, "minYear") == None && Api.Lookup(q, "maxYear") == None
    ensures Api.FilterOf(q) == Api.Filter(
              if region != "" then Some(Api.RegionalGroups[region]) else None,
              None,
              Sent(search),
              Api.Bounds(Sent(minTuition), Sent(maxTuition), ParseFloat),
              if topTier != "" then Some(Api.Range(None, Some(ParseInt(topTier)))) else None,
              None)
  {
    assert region != "" ==> region in Api.RegionalGroups;
  }

  /** From a reachable state the handler compiles: the region's countries
      when a region is chosen, the search text as the name pattern, the
      tuition bounds, and the top-tier cap; nothing for location, countries,
      ranking bounds or years. */
  lemma ServerFilter(s: FilterState)
    requires Good(s)
    ensures Api.FilterOf(QueryOf(s)) == Api.Filter(
              if s.region != "" then Some(Api.RegionalGroups[s.region]) else None,
              None,
              Sent(s.search),
              Api.Bounds(Sent(s.minTuition), Sent(s.maxTuition), ParseFloat),
              if s.topTier != "" then Some(Api.Range(None, Some(ParseInt(s.topTier)))) else None,
              None)
  {
    TextsSent(s);
    BoundsSent(s);
    NeverSent(s);
    FilterFrom(QueryOf(s), s.region, s.search, s.minTuition, s.maxTuition, s.topTier);
  }

  // ---------------------------------------------------------------------
  // The response

  /** Whether the user has narrowed the listing in any way. */
  predicate Narrowed(s: FilterState)
  {
    s.region != "" || s.search != "" || s.minTuition != "" || s.maxTuition != "" || s.topTier != ""
    || s.affordability != [] || s.institutionAge != [] || s.valueForMoney
  }

  /** A sent list is a non-empty parameter exactly when the list is not
      empty. */
  lemma ListGiven(list: seq<string>)
    requires Listable(list)
    ensures Api.Given(ListParam(list)) <==> list != []
  {
    if list != [] {
      ListRoundTrip(list);
    }
  }

  /** The handler's `applied` entry is truthy exactly when the user has
      narrowed the listing. */
  lemma ServerApplied(s: FilterState)
    requires Good(s)
    ensures Api.Truthy(Api.AppliedValue(Api.KeyCount(Api.FilterOf(QueryOf(s))),
                                        Api.Lookup(QueryOf(s), "affordability"),
                                        Api.Lookup(QueryOf(s), "institutionAge"),
                                        Api.Lookup(QueryOf(s), "valueForMoney")))
            <==> Narrowed(s)
  {
    ServerFilter(s);
    ListsSent(s);
    SortSent(s);
    OptionsListable(s);
    ListGiven(s.affordability);
    ListGiven(s.institutionAge);
    Api.AppliedTruthy(Api.KeyCount(Api.FilterOf(QueryOf(s))), ListParam(s.affordability),
                      ListParam(s.institutionAge), if s.valueForMoney then Some("true") else None);
  }

  /** The page the filter page asks for is the page served: the handler
      accepts the query, reports the requested page and the page size of
      20, sends at most 20 rows, and flags the filters as applied exactly
      when the user narrowed the listing. */
  lemma ServedPage(s: FilterState, db: seq<University>, matches: (Api.Filter, University) -> bool, currentYear: int)
    requires Good(s) && Api.ScoresDefined(QueryOf(s), db, matches, currentYear)
    ensures Api.ValidPaging(QueryOf(s))
    ensures Api.Respond(QueryOf(s), db, matches, currentYear).data
            == Api.Window(Api.Results(QueryOf(s), db, matches, currentYear), s.page, 20)
    ensures Api.Respond(QueryOf(s), db, matches, currentYear).pagination.totalPages
            == Api.TotalPages(|Api.Results(QueryOf(s), db, matches, currentYear)|, 20)
    ensures Api.Respond(QueryOf(s), db, matches, currentYear).pagination.page == s.page
    ensures Api.Respond(QueryOf(s), db, matches, currentYear).pagination.limit == 20
    ensures |Api.Respond(QueryOf(s), db, matches, currentYear).data| <= 20
    ensures Api.Truthy(Api.Respond(QueryOf(s), db, matches, currentYear).applied) <==> Narrowed(s)
  {
    ServerPaging(s);
    ServerApplied(s);
  }
}
