/** The filter sidebar of the search page: its state, the transitions the
    inputs and buttons cause, and the query string it sends to the API. */
module Filters {
  import opened Records
  import opened JsText
  import Seqs
  import Api

  /** The sidebar state. Numbers in text inputs stay text; page and limit
      are whole numbers. */
  datatype FilterState = FilterState(
    search: string,
    countries: string,
    region: string,
    minTuition: string,
    maxTuition: string,
    affordability: seq<string>,
    topTier: string,
    institutionAge: seq<string>,
    valueForMoney: bool,
    sortBy: string,
    sortOrder: string,
    page: int,
    limit: int)

  /** The state the page opens with. */
  const Initial: FilterState :=
    FilterState("", "", "", "", "", [], "", [], false, "ranking", "asc", 1, 20)

  /** The state the "Reset" and "Reset Filters" buttons install, written
      out again field by field as the handler does. */
  function Reset(): (r: FilterState)
    ensures r.search == r.countries == r.region == r.minTuition == r.maxTuition == r.topTier == ""
    ensures r.affordability == [] && r.institutionAge == [] && !r.valueForMoney
    ensures r.sortBy == "ranking" && r.sortOrder == "asc" && r.page == 1 && r.limit == 20
  {
    FilterState(
      search := "", countries := "", region := "", minTuition := "", maxTuition := "",
      affordability := [], topTier := "", institutionAge := [], valueForMoney := false,
      sortBy := "ranking", sortOrder := "asc", page := 1, limit := 20)
  }

  /** Resetting restores exactly the opening state. */
  lemma ResetIsInitial()
    ensures Reset() == Initial
  {
  }

  // ---------------------------------------------------------------------
  // Fields

  /** The fields of the state; each is also the name of a query parameter. */
  datatype Field =
    | Search | Countries | Region | MinTuition | MaxTuition | Affordability | TopTier
    | InstitutionAge | ValueForMoney | SortBy | SortOrder | Page | Limit

  /** The value held in one field. */
  datatype Value = Text(text: string) | List(items: seq<string>) | Flag(flag: bool) | Number(number: int)

  function Get(s: FilterState, f: Field): Value
  {
    match f
    case Search => Text(s.search)
    case Countries => Text(s.countries)
    case Region => Text(s.region)
    case MinTuition => Text(s.minTuition)
    case MaxTuition => Text(s.maxTuition)
    case Affordability => List(s.affordability)
    case TopTier => Text(s.topTier)
    case InstitutionAge => List(s.institutionAge)
    case ValueForMoney => Flag(s.valueForMoney)
    case SortBy => Text(s.sortBy)
    case SortOrder => Text(s.sortOrder)
    case Page => Number(s.page)
    case Limit => Number(s.limit)
  }

  /** `r` agrees with `s` on every field except `f` and `page`. */
  predicate SameExcept(s: FilterState, r: FilterState, f: Field)
  {
    forall g :: g != f && g != Page ==> Get(r, g) == Get(s, g)
  }

  // ---------------------------------------------------------------------
  // Checkbox lists

  /** `v => v !== value`. */
  function Other(value: string): string -> bool
  {
    (v: string) => v != value
  }

  /** The checkbox handler's list update: a ticked value is removed (every
      occurrence), an unticked one is appended. */
  function Toggle(list: seq<string>, value: string): (r: seq<string>)
    ensures value in r <==> value !in list
    ensures forall v :: v != value ==> (v in r <==> v in list)
    ensures value !in list ==> r == list + [value]
    ensures value in list ==> r == Seqs.Keep(list, Other(value))
  {
    if value in list then
      Seqs.KeepMembers(list, Other(value));
      Seqs.Keep(list, Other(value))
    else list + [value]
  }

  /** Ticking and unticking a box restores the list. */
  lemma ToggleTwice(list: seq<string>, value: string)
    requires value !in list
    ensures Toggle(Toggle(list, value), value) == list
  {
    Seqs.KeepAppend(list, [value], Other(value));
    Seqs.KeepAll(list, Other(value));
    Seqs.KeepSingle(value, Other(value));
  }

  /** No value occurs twice. */
  predicate Distinct(list: seq<string>)
  {
    forall i, j :: 0 <= i < j < |list| ==> list[i] != list[j]
  }

  /** Removing keeps the remaining values in their order. */
  lemma ToggleRemoveIsSubsequence(list: seq<string>, value: string)
    requires value in list
    ensures Seqs.IsSubsequence(Toggle(list, value), list)
  {
    Seqs.KeepIsSubsequence(list, Other(value));
  }

  /** A list kept by the checkboxes never holds a value twice. */
  lemma ToggleDistinct(list: seq<string>, value: string)
    requires Distinct(list)
    ensures Distinct(Toggle(list, value))
  {
    if value in list {
      KeepDistinct(list, Other(value));
    }
  }

  lemma {:induction false} KeepDistinct(list: seq<string>, p: string -> bool)
    requires Distinct(list)
    ensures Distinct(Seqs.Keep(list, p))
  {
    if list != [] {
      var rest := Seqs.Keep(list[1..], p);
      assert Distinct(list[1..]) by {
        forall i, j | 0 <= i < j < |list[1..]| ensures list[1..][i] != list[1..][j] {
          assert list[1..][i] == list[i + 1] && list[1..][j] == list[j + 1];
        }
      }
      KeepDistinct(list[1..], p);
      Seqs.KeepMembers(list[1..], p);
      assert list[0] !in list[1..];
      assert list[0] !in rest;
    }
  }

  // ---------------------------------------------------------------------
  // Transitions

  /** Which checkbox list an event edits. */
  datatype ListField = AffordabilityList | InstitutionAgeList

  function ListFieldOf(l: ListField): Field
  {
    match l
    case AffordabilityList => Affordability
    case InstitutionAgeList => InstitutionAge
  }

  /** What the user can do in the sidebar and the pager. */
  datatype Event =
    | SetSearch(text: string)
    | SetRegion(text: string)
    | SetMinTuition(text: string)
    | SetMaxTuition(text: string)
    | SetTopTier(text: string)
    | SetValueForMoney(flag: bool)
    | SetSortBy(text: string)
    | SetSortOrder(text: string)
    | CheckboxChange(list: ListField, value: string)
    | ResetFilters
    | PreviousPage
    | NextPage

  /** The field a filter edit writes; None for reset and the pager. */
  function Edits(e: Event): Option<Field>
  {
    match e
    case SetSearch(_) => Some(Search)
    case SetRegion(_) => Some(Region)
    case SetMinTuition(_) => Some(MinTuition)
    case SetMaxTuition(_) => Some(MaxTuition)
    case SetTopTier(_) => Some(TopTier)
    case SetValueForMoney(_) => Some(ValueForMoney)
    case SetSortBy(_) => Some(SortBy)
    case SetSortOrder(_) => Some(SortOrder)
    case CheckboxChange(l, _) => Some(ListFieldOf(l))
    case ResetFilters => None
    case PreviousPage => None
    case NextPage => None
  }

  /** The state after an event. A filter edit writes its own field and goes
      back to page 1 and leaves every other field alone; the pager moves the
      page by one and changes nothing else; reset installs the opening
      state. */
  function Step(s: FilterState, e: Event): (r: FilterState)
    ensures Edits(e).Some? ==> r.page == 1
    ensures e.SetSearch? ==> r.search == e.text
    ensures e.SetRegion? ==> r.region == e.text
    ensures e.SetMinTuition? ==> r.minTuition == e.text
    ensures e.SetMaxTuition? ==> r.maxTuition == e.text
    ensures e.SetTopTier? ==> r.topTier == e.text
    ensures e.SetValueForMoney? ==> r.valueForMoney == e.flag
    ensures e.SetSortBy? ==> r.sortBy == e.text
    ensures e.SetSortOrder? ==> r.sortOrder == e.text
    ensures e.CheckboxChange? ==> Get(r, ListFieldOf(e.list)) == List(Toggle(Get(s, ListFieldOf(e.list)).items, e.value))
    ensures e.ResetFilters? ==> r == Initial
    ensures e.PreviousPage? ==> r.page == s.page - 1
    ensures e.NextPage? ==> r.page == s.page + 1
  {
    match e
    case SetSearch(v) => s.(search := v, page := 1)
    case SetRegion(v) => s.(region := v, page := 1)
    case SetMinTuition(v) => s.(minTuition := v, page := 1)
    case SetMaxTuition(v) => s.(maxTuition := v, page := 1)
    case SetTopTier(v) => s.(topTier := v, page := 1)
    case SetValueForMoney(b) => s.(valueForMoney := b, page := 1)
    case SetSortBy(v) => s.(sortBy := v, page := 1)
    case SetSortOrder(v) => s.(sortOrder := v, page := 1)
    case CheckboxChange(AffordabilityList, v) => s.(affordability := Toggle(s.affordability, v), page := 1)
    case CheckboxChange(InstitutionAgeList, v) => s.(institutionAge := Toggle(s.institutionAge, v), page := 1)
    case ResetFilters => Reset()
    case PreviousPage => s.(page := s.page - 1)
    case NextPage => s.(page := s.page + 1)
  }

  /** An edit changes no field but its own and the page; the pager changes
      only the page. */
  lemma StepFrame(s: FilterState, e: Event)
    ensures Edits(e).Some? ==> SameExcept(s, Step(s, e), Edits(e).value)
    ensures e.PreviousPage? || e.NextPage? ==> SameExcept(s, Step(s, e), Page)
  {
    var r := Step(s, e);
    match e
    case PreviousPage => FieldsFrame(s, r, Page);
    case NextPage => FieldsFrame(s, r, Page);
    case ResetFilters =>
    case _ => FieldsFrame(s, r, Edits(e).value);
  }

  /** Two states that agree on every field but `f` and the page, field by
      field, are the same except there. */
  lemma FieldsFrame(s: FilterState, r: FilterState, f: Field)
    requires f == Search || r.search == s.search
    requires f == Countries || r.countries == s.countries
    requires f == Region || r.region == s.region
    requires f == MinTuition || r.minTuition == s.minTuition
    requires f == MaxTuition || r.maxTuition == s.maxTuition
    requires f == Affordability || r.affordability == s.affordability
    requires f == TopTier || r.topTier == s.topTier
    requires f == InstitutionAge || r.institutionAge == s.institutionAge
    requires f == ValueForMoney || r.valueForMoney == s.valueForMoney
    requires f == SortBy || r.sortBy == s.sortBy
    requires f == SortOrder || r.sortOrder == s.sortOrder
    requires f == Limit || r.limit == s.limit
    ensures SameExcept(s, r, f)
  {
  }

  // ---------------------------------------------------------------------
  // Reachable states

  /** The options the page offers: checkbox values and select entries. */
  const TierOptions: seq<string> := ["budget", "moderate", "premium", "luxury"]
  const AgeOptions: seq<string> := ["modern", "established", "historic", "ancient"]
  const SortOptions: seq<string> := ["ranking", "tuitionFee", "universityName", "establishedYear"]
  const OrderOptions: seq<string> := ["asc", "desc"]
  const RegionOptions: seq<string> :=
    ["", "north-america", "europe", "asia-pacific", "middle-east", "latin-america", "africa"]
  const TopTierOptions: seq<string> := ["", "100", "200", "500"]

  /** Whether the page can produce the event in state `s`, `totalPages`
      being the page count of the last response: the checkboxes and sort
      selects only offer their options, and the pager is shown only with
      more than one page, Previous disabled on page 1 and Next on the last
      page. */
  predicate Enabled(s: FilterState, e: Event, totalPages: int)
  {
    match e
    case CheckboxChange(AffordabilityList, v) => v in TierOptions
    case CheckboxChange(InstitutionAgeList, v) => v in AgeOptions
    case SetSortBy(v) => v in SortOptions
    case SetSortOrder(v) => v in OrderOptions
    case SetRegion(v) => v in RegionOptions
    case SetTopTier(v) => v in TopTierOptions
    case PreviousPage => totalPages > 1 && s.page != 1
    case NextPage => totalPages > 1 && s.page != totalPages
    case _ => true
  }

  /** What holds of every state the page can reach: a positive page, the
      limit of 20, no countries text (the page has no input for it), checkbox lists of distinct offered values, and offered
      select choices. */
  predicate Good(s: FilterState)
  {
    && s.page >= 1 && s.limit == 20 && s.countries == ""
    && Distinct(s.affordability) && (forall v :: v in s.affordability ==> v in TierOptions)
    && Distinct(s.institutionAge) && (forall v :: v in s.institutionAge ==> v in AgeOptions)
    && s.sortBy in SortOptions && s.sortOrder in OrderOptions
    && s.region in RegionOptions && s.topTier in TopTierOptions
  }

  lemma InitialGood()
    ensures Good(Initial)
  {
  }

  /** Every event the page can produce keeps the state good. */
  lemma StepKeepsGood(s: FilterState, e: Event, totalPages: int)
    requires Good(s) && Enabled(s, e, totalPages)
    ensures Good(Step(s, e))
  {
    match e {
      case CheckboxChange(AffordabilityList, v) =>
        ToggleDistinct(s.affordability, v);
      case CheckboxChange(InstitutionAgeList, v) =>
        ToggleDistinct(s.institutionAge, v);
      case _ =>
    }
  }

  /** The state after a run of events, each with the page count shown when
      it happened. */
  function Run(s: FilterState, events: seq<(Event, int)>): FilterState
    decreases |events|
  {
    if events == [] then s else Run(Step(s, events[0].0), events[1..])
  }

  /** A run the page can produce: every event enabled when it happens. */
  predicate Possible(s: FilterState, events: seq<(Event, int)>)
    decreases |events|
  {
    events == [] || (Enabled(s, events[0].0, events[0].1) && Possible(Step(s, events[0].0), events[1..]))
  }

  /** Every state reachable from the opening state is good. */
  lemma {:induction false} RunKeepsGood(s: FilterState, events: seq<(Event, int)>)
    requires Good(s) && Possible(s, events)
    ensures Good(Run(s, events))
    decreases |events|
  {
    if events != [] {
      StepKeepsGood(s, events[0].0, events[0].1);
      RunKeepsGood(Step(s, events[0].0), events[1..]);
    }
  }

  // ---------------------------------------------------------------------
  // The query string

  /** The name of a field's query parameter. */
  function Name(f: Field): string
  {
    match f
    case Search => "search"
    case Countries => "countries"
    case Region => "region"
    case MinTuition => "minTuition"
    case MaxTuition => "maxTuition"
    case Affordability => "affordability"
    case TopTier => "topTier"
    case InstitutionAge => "institutionAge"
    case ValueForMoney => "valueForMoney"
    case SortBy => "sortBy"
    case SortOrder => "sortOrder"
    case Page => "page"
    case Limit => "limit"
  }

  /** Different fields have different parameter names. */
  lemma NameInjective(f: Field, g: Field)
    ensures Name(f) == Name(g) ==> f == g
  {
  }

  /** JavaScript truthiness of a field value; page and limit are always sent. */
  predicate Truthy(v: Value)
  {
    match v
    case Text(t) => t != ""
    case List(l) => l != []
    case Flag(b) => b
    case Number(_) => true
  }

  /** The text a field is sent as: lists joined with ',', the flag as
      "true", numbers printed. */
  function Encoded(v: Value): string
  {
    match v
    case Text(t) => t
    case List(l) => Join(l, ',')
    case Flag(_) => "true"
    case Number(n) => IntToString(n)
  }

  /** The pair a field contributes, if it is sent. */
  function Entry(s: FilterState, f: Field): Api.Query
  {
    if Truthy(Get(s, f)) then [(Name(f), Encoded(Get(s, f)))] else []
  }

  /** The pairs the fields `fs` contribute, in that order. */
  function Entries(s: FilterState, fs: seq<Field>): Api.Query
  {
    if fs == [] then [] else Entries(s, fs[..|fs| - 1]) + Entry(s, fs[|fs| - 1])
  }

  /** The fields in the order the query builder visits them. */
  const Fields: seq<Field> :=
    [Search] + [Countries] + [Region] + [MinTuition] + [MaxTuition] + [Affordability] + [TopTier]
    + [InstitutionAge] + [ValueForMoney] + [SortBy] + [SortOrder] + [Page] + [Limit]

  /** The query the page sends for a state. */
  function QueryOf(s: FilterState): Api.Query
  {
    Entries(s, Fields)
  }

  /** `URLSearchParams` as the builder uses it: a list of pairs that only
      grows. */
  class SearchParams {
    var entries: seq<(string, string)>

    constructor()
      ensures entries == []
    {
      entries := [];
    }

    /** `params.append(name, value)`. */
    method Append(name: string, value: string)
      modifies this
      ensures entries == old(entries) + [(name, value)]
    {
      entries := entries + [(name, value)];
    }
  }

  /** Visiting one more field appends its pair. */
  lemma EntriesSnoc(s: FilterState, fs: seq<Field>, f: Field)
    ensures Entries(s, fs + [f]) == Entries(s, fs) + Entry(s, f)
  {
    assert (fs + [f])[..|fs|] == fs;
  }

  /** The builder's step for one field: `if (value) params.append(name,
      encoded)`, page and limit unconditionally. */
  method AppendField(params: SearchParams, filters: FilterState, f: Field)
    modifies params
    ensures params.entries == old(params.entries) + Entry(filters, f)
  {
    match f {
      case Search => if filters.search != "" { params.Append("search", filters.search); }
      case Countries => if filters.countries != "" { params.Append("countries", filters.countries); }
      case Region => if filters.region != "" { params.Append("region", filters.region); }
      case MinTuition => if filters.minTuition != "" { params.Append("minTuition", filters.minTuition); }
      case MaxTuition => if filters.maxTuition != "" { params.Append("maxTuition", filters.maxTuition); }
      case Affordability =>
        if |filters.affordability| != 0 { params.Append("affordability", Join(filters.affordability, ',')); }
      case TopTier => if filters.topTier != "" { params.Append("topTier", filters.topTier); }
      case InstitutionAge =>
        if |filters.institutionAge| != 0 { params.Append("institutionAge", Join(filters.institutionAge, ',')); }
      case ValueForMoney => if filters.valueForMoney { params.Append("valueForMoney", "true"); }
      case SortBy => if filters.sortBy != "" { params.Append("sortBy", filters.sortBy); }
      case SortOrder => if filters.sortOrder != "" { params.Append("sortOrder", filters.sortOrder); }
      case Page => params.Append("page", IntToString(filters.page));
      case Limit => params.Append("limit", IntToString(filters.limit));
    }
  }

  /** The query-string builder: the fields' steps in field order. */
  method BuildQuery(filters: FilterState) returns (params: SearchParams)
    ensures fresh(params) && params.entries == QueryOf(filters)
  {
    params := new SearchParams();
    ghost var done: seq<Field> := [];
    AppendField(params, filters, Search);
    EntriesSnoc(filters, done, Search);
    done := done + [Search];
    AppendField(params, filters, Countries);
    EntriesSnoc(filters, done, Countries);
    done := done + [Countries];
    AppendField(params, filters, Region);
    EntriesSnoc(filters, done, Region);
    done := done + [Region];
    AppendField(params, filters, MinTuition);
    EntriesSnoc(filters, done, MinTuition);
    done := done + [MinTuition];
    AppendField(params, filters, MaxTuition);
    EntriesSnoc(filters, done, MaxTuition);
    done := done + [MaxTuition];
    AppendField(params, filters, Affordability);
    EntriesSnoc(filters, done, Affordability);
    done := done + [Affordability];
    AppendField(params, filters, TopTier);
    EntriesSnoc(filters, done, TopTier);
    done := done + [TopTier];
    AppendField(params, filters, InstitutionAge);
    EntriesSnoc(filters, done, InstitutionAge);
    done := done + [InstitutionAge];
    AppendField(params, filters, ValueForMoney);
    EntriesSnoc(filters, done, ValueForMoney);
    done := done + [ValueForMoney];
    AppendField(params, filters, SortBy);
    EntriesSnoc(filters, done, SortBy);
    done := done + [SortBy];
    AppendField(params, filters, SortOrder);
    EntriesSnoc(filters, done, SortOrder);
    done := done + [SortOrder];
    AppendField(params, filters, Page);
    EntriesSnoc(filters, done, Page);
    done := done + [Page];
    AppendField(params, filters, Limit);
    EntriesSnoc(filters, done, Limit);
    done := done + [Limit];
    assert done == Fields;
  }

  // ---------------------------------------------------------------------
  // What the query holds

  /** The parameter names of a query, in order. */
  function Keys(q: Api.Query): (ks: seq<string>)
    ensures |ks| == |q| && forall i :: 0 <= i < |q| ==> ks[i] == q[i].0
  {
    if q == [] then [] else [q[0].0] + Keys(q[1..])
  }

  /** The parameter names of a list of fields. */
  function Names(fs: seq<Field>): (ns: seq<string>)
    ensures |ns| == |fs| && forall i :: 0 <= i < |fs| ==> ns[i] == Name(fs[i])
  {
    if fs == [] then [] else [Name(fs[0])] + Names(fs[1..])
  }

  /** Whether a field of `s` is sent. */
  function Sends(s: FilterState): Field -> bool
  {
    (f: Field) => Truthy(Get(s, f))
  }

  /** The keys the fields `fs` produce are the names of the fields that are
      sent, in the order of `fs`. */
  lemma {:induction false} EntriesKeys(s: FilterState, fs: seq<Field>)
    ensures Keys(Entries(s, fs)) == Names(Seqs.Keep(fs, Sends(s)))
  {
    if fs != [] {
      var init, last := fs[..|fs| - 1], fs[|fs| - 1];
      EntriesKeys(s, init);
      assert fs == init + [last];
      Seqs.KeepAppend(init, [last], Sends(s));
      KeysAppend(Entries(s, init), Entry(s, last));
      NamesAppend(Seqs.Keep(init, Sends(s)), Seqs.Keep([last], Sends(s)));
      EntryKeys(s, last);
    }
  }

  lemma KeysAppend(a: Api.Query, b: Api.Query)
    ensures Keys(a + b) == Keys(a) + Keys(b)
  {
  }

  lemma NamesAppend(a: seq<Field>, b: seq<Field>)
    ensures Names(a + b) == Names(a) + Names(b)
  {
  }

  /** One field's entry has that field's name exactly when it is sent. */
  lemma EntryKeys(s: FilterState, f: Field)
    ensures Keys(Entry(s, f)) == Names(Seqs.Keep([f], Sends(s)))
  {
    Seqs.KeepSingle(f, Sends(s));
  }

  /** The query's keys are the names of the sent fields, in the builder's
      fixed field order. */
  lemma QueryKeys(s: FilterState)
    ensures Keys(QueryOf(s)) == Names(Seqs.Keep(Fields, Sends(s)))
    ensures Seqs.IsSubsequence(Seqs.Keep(Fields, Sends(s)), Fields)
  {
    EntriesKeys(s, Fields);
    Seqs.KeepIsSubsequence(Fields, Sends(s));
  }

  /** The server's `get` of a field's name finds the field's encoded value
      exactly when the field is among `fs` and sent. */
  lemma {:induction false} LookupEntries(s: FilterState, fs: seq<Field>, f: Field)
    ensures Api.Lookup(Entries(s, fs), Name(f))
            == if f in fs && Truthy(Get(s, f)) then Some(Encoded(Get(s, f))) else None
  {
    if fs != [] {
      var init, last := fs[..|fs| - 1], fs[|fs| - 1];
      assert fs == init + [last];
      LookupEntries(s, init, f);
      Api.LookupAppend(Entries(s, init), Entry(s, last), Name(f));
      NameInjective(last, f);
      if Truthy(Get(s, last)) {
        assert Entry(s, last)[1..] == [];
      }
    }
  }

  /** Every field is sent under its own name when truthy and is absent
      otherwise. */
  lemma QueryLookup(s: FilterState, f: Field)
    ensures Api.Lookup(QueryOf(s), Name(f))
            == if Truthy(Get(s, f)) then Some(Encoded(Get(s, f))) else None
  {
    LookupEntries(s, Fields, f);
    assert f in Fields;
  }

  /** Page and limit are always sent, as the last two pairs. */
  lemma PageAndLimitLast(s: FilterState)
    ensures var q := QueryOf(s);
            |q| >= 2 && q[|q| - 2] == ("page", IntToString(s.page)) && q[|q| - 1] == ("limit", IntToString(s.limit))
  {
    var head := [Search] + [Countries] + [Region] + [MinTuition] + [MaxTuition] + [Affordability] + [TopTier]
      + [InstitutionAge] + [ValueForMoney] + [SortBy] + [SortOrder];
    PagingEntries(s, head);
  }

  /** Ending the field list with page and limit ends the query with their
      two pairs. */
  lemma PagingEntries(s: FilterState, head: seq<Field>)
    ensures Entries(s, head + [Page] + [Limit])
            == Entries(s, head) + [("page", IntToString(s.page)), ("limit", IntToString(s.limit))]
  {
    var page, limit := ("page", IntToString(s.page)), ("limit", IntToString(s.limit));
    NumberEntries(s);
    EntriesSnoc(s, head, Page);
    EntriesSnoc(s, head + [Page], Limit);
    assert Entries(s, head) + [page] + [limit] == Entries(s, head) + [page, limit];
  }

  /** Page and limit contribute their printed numbers. */
  lemma NumberEntries(s: FilterState)
    ensures Entry(s, Page) == [("page", IntToString(s.page))]
    ensures Entry(s, Limit) == [("limit", IntToString(s.limit))]
  {
  }
}
