/** The `GET` handler of the university search route: it compiles the query
    string into a database filter, fetches the matching records, filters
    them again by affordability tier and institution age, optionally
    orders them by value score and then by a chosen field, and returns one
    page of the result with its pagination data.

    The database `find` is the parameter `matches`, a test of one record
    against the compiled filter; the fetched list is the database list
    restricted to it, in database order. The current year is a parameter. */
module Api {
  import opened Records
  import opened JsText
  import opened Seqs

  // ---------------------------------------------------------------------
  // The query string

  /** `URLSearchParams`: the (name, value) pairs in the order they came. */
  type Query = seq<(string, string)>

  /** `searchParams.get(name)`: the value of the first pair with that name,
      or null. */
  function Lookup(q: Query, name: string): (v: Option<string>)
    ensures v.Some? ==> (name, v.value) in q
    ensures v.None? ==> forall i :: 0 <= i < |q| ==> q[i].0 != name
  {
    if q == [] then None
    else if q[0].0 == name then Some(q[0].1)
    else Lookup(q[1..], name)
  }

  /** A later pair with the same name does not change what `get` returns. */
  lemma LookupFirst(q: Query, name: string, value: string, other: string)
    ensures Lookup([(name, value)] + q, name) == Some(value)
    ensures other != name ==> Lookup([(other, value)] + q, name) == Lookup(q, name)
  {
    assert ([(other, value)] + q)[1..] == q;
  }

  /** `get` on two lists of pairs one after the other: the first list's
      answer when it has the name, else the second's. */
  lemma {:induction false} LookupAppend(a: Query, b: Query, name: string)
    ensures Lookup(a + b, name) == if Lookup(a, name).Some? then Lookup(a, name) else Lookup(b, name)
  {
    if a != [] {
      assert (a + b)[0] == a[0] && (a + b)[1..] == a[1..] + b;
      LookupAppend(a[1..], b, name);
    } else {
      assert a + b == b;
    }
  }

  /** JavaScript truthiness of a parameter: present and not empty. */
  predicate Given(v: Option<string>)
  {
    v.Some? && v.value != ""
  }

  // ---------------------------------------------------------------------
  // Derived categories

  /** The affordability tier of a yearly fee, on half-open bands. */
  function AffordabilityTier(fee: real): (tier: string)
    ensures tier in {"budget", "moderate", "premium", "luxury"}
    ensures tier == "budget" <==> fee < 10000.0
    ensures tier == "moderate" <==> 10000.0 <= fee < 25000.0
    ensures tier == "premium" <==> 25000.0 <= fee < 50000.0
    ensures tier == "luxury" <==> 50000.0 <= fee
  {
    if fee < 10000.0 then "budget"
    else if fee < 25000.0 then "moderate"
    else if fee < 50000.0 then "premium"
    else "luxury"
  }

  /** Position of a tier on the price scale. */
  function TierRank(tier: string): nat
  {
    if tier == "budget" then 0 else if tier == "moderate" then 1
    else if tier == "premium" then 2 else 3
  }

  /** A dearer fee never falls in a cheaper tier. */
  lemma TierMonotone(fee1: real, fee2: real)
    requires fee1 <= fee2
    ensures TierRank(AffordabilityTier(fee1)) <= TierRank(AffordabilityTier(fee2))
  {
  }

  /** The band edges: 9999 is budget, 10000 moderate, 50000 luxury. */
  lemma TierEdges()
    ensures AffordabilityTier(9999.0) == "budget"
    ensures AffordabilityTier(10000.0) == "moderate"
    ensures AffordabilityTier(24999.5) == "moderate"
    ensures AffordabilityTier(25000.0) == "premium"
    ensures AffordabilityTier(50000.0) == "luxury"
  {
  }

  /** The age category of a record founded in `establishedYear`, seen in
      `currentYear`, on strict thresholds of 50, 100 and 200 years. */
  function InstitutionAge(establishedYear: int, currentYear: int): (category: string)
    ensures category in {"modern", "established", "historic", "ancient"}
    ensures category == "modern" <==> currentYear - establishedYear < 50
    ensures category == "established" <==> 50 <= currentYear - establishedYear < 100
    ensures category == "historic" <==> 100 <= currentYear - establishedYear < 200
    ensures category == "ancient" <==> 200 <= currentYear - establishedYear
  {
    var age := currentYear - establishedYear;
    if age < 50 then "modern"
    else if age < 100 then "established"
    else if age < 200 then "historic"
    else "ancient"
  }

  /** A founding year in the future still counts as modern, and the category
      depends on the age alone. */
  lemma AgeByDifference(y1: int, c1: int, y2: int, c2: int)
    ensures c1 < y1 ==> InstitutionAge(y1, c1) == "modern"
    ensures c1 - y1 == c2 - y2 ==> InstitutionAge(y1, c1) == InstitutionAge(y2, c2)
  {
  }

  /** The countries of each study-abroad region. */
  const RegionalGroups: map<string, seq<string>> := map[
    "north-america" := ["USA", "Canada", "Mexico"],
    "europe" := ["UK", "Germany", "France", "Spain", "Italy", "Netherlands", "Sweden",
                 "Switzerland", "Ireland", "Belgium", "Austria", "Denmark", "Norway",
                 "Finland", "Poland"],
    "asia-pacific" := ["Australia", "New Zealand", "Japan", "South Korea", "Singapore",
                       "China", "Hong Kong", "Taiwan", "Malaysia", "Thailand"],
    "middle-east" := ["UAE", "Saudi Arabia", "Qatar", "Israel", "Turkey"],
    "latin-america" := ["Brazil", "Argentina", "Chile", "Colombia"],
    "africa" := ["South Africa", "Egypt", "Kenya", "Nigeria"]
  ]

  // ---------------------------------------------------------------------
  // The database filter

  /** An inclusive range `{ $gte, $lte }`; a bound may be NaN when its text
      does not parse. */
  datatype Range<T> = Range(gte: Option<Parsed<T>>, lte: Option<Parsed<T>>)

  /** The filter document: each field is absent or holds its predicate
      (`$in` for the country, a case-insensitive pattern for location and
      name, ranges for the numbers). */
  datatype Filter = Filter(
    country: Option<seq<string>>,
    location: Option<string>,
    universityName: Option<string>,
    tuitionFee: Option<Range<real>>,
    ranking: Option<Range<int>>,
    establishedYear: Option<Range<int>>)

  const EmptyFilter := Filter(None, None, None, None, None, None)

  /** `Object.keys(filter).length`. */
  function KeyCount(f: Filter): (n: nat)
    ensures n <= 6
    ensures n == 0 <==> f == EmptyFilter
  {
    (if f.country.Some? then 1 else 0) + (if f.location.Some? then 1 else 0)
    + (if f.universityName.Some? then 1 else 0) + (if f.tuitionFee.Some? then 1 else 0)
    + (if f.ranking.Some? then 1 else 0) + (if f.establishedYear.Some? then 1 else 0)
  }

  /** `list.map(c => c.trim())`. */
  function TrimAll(parts: seq<string>): (r: seq<string>)
    ensures |r| == |parts|
    ensures forall i :: 0 <= i < |r| ==> r[i] == Trim(parts[i])
  {
    seq(|parts|, i requires 0 <= i < |parts| => Trim(parts[i]))
  }

  /** The region parameter names a known group. */
  predicate KnownRegion(q: Query)
  {
    Given(Lookup(q, "region")) && Lookup(q, "region").value in RegionalGroups
  }

  /** The country predicate the handler ends with: the region's group when
      the region is known, else the trimmed comma-split `countries`. */
  function CountryPredicate(q: Query): Option<seq<string>>
  {
    if KnownRegion(q) then Some(RegionalGroups[Lookup(q, "region").value])
    else CountriesPredicate(q)
  }

  /** A pattern parameter becomes a predicate when it is non-empty. */
  function PatternPredicate(q: Query, name: string): Option<string>
  {
    if Given(Lookup(q, name)) then Some(Lookup(q, name).value) else None
  }

  /** A range from two optional bound parameters: present when either is
      non-empty, holding exactly the non-empty ones, parsed. */
  function Bounds<T>(lo: Option<string>, hi: Option<string>, parse: string -> Parsed<T>): Option<Range<T>>
  {
    if Given(lo) || Given(hi) then
      Some(Range(if Given(lo) then Some(parse(lo.value)) else None,
                 if Given(hi) then Some(parse(hi.value)) else None))
    else None
  }

  /** The handler's `filter.x = {}` followed by the two conditional bound
      assignments, for a range that is created. */
  method BuildRange<T>(lo: Option<string>, hi: Option<string>, parse: string -> Parsed<T>) returns (range: Range<T>)
    requires Given(lo) || Given(hi)
    ensures Bounds(lo, hi, parse) == Some(range)
  {
    range := Range(None, None);
    if Given(lo) {
      range := range.(gte := Some(parse(lo.value)));
    }
    if Given(hi) {
      range := range.(lte := Some(parse(hi.value)));
    }
  }

  /** The ranking predicate: `topTier` alone when given, else the bounds. */
  function RankingPredicate(q: Query): Option<Range<int>>
  {
    if Given(Lookup(q, "topTier")) then Some(Range(None, Some(ParseInt(Lookup(q, "topTier").value))))
    else Bounds(Lookup(q, "minRanking"), Lookup(q, "maxRanking"), ParseInt)
  }

  /** The filter a query compiles to, field by field. */
  function FilterOf(q: Query): Filter
  {
    Filter(
      CountryPredicate(q),
      PatternPredicate(q, "location"),
      PatternPredicate(q, "search"),
      Bounds(Lookup(q, "minTuition"), Lookup(q, "maxTuition"), ParseFloat),
      RankingPredicate(q),
      Bounds(Lookup(q, "minYear"), Lookup(q, "maxYear"), ParseInt))
  }

  /** The countries named by the `countries` parameter, trimmed. */
  function CountriesPredicate(q: Query): Option<seq<string>>
  {
    if Given(Lookup(q, "countries")) then Some(TrimAll(Split(Lookup(q, "countries").value, ','))) else None
  }

  /** The handler's basic filters: country list, location and name
      patterns, each set only when its parameter is non-empty. */
  method BasicFilters(q: Query, f0: Filter) returns (filter: Filter)
    ensures filter == f0.(country := if Given(Lookup(q, "countries")) then CountriesPredicate(q) else f0.country,
                          location := if Given(Lookup(q, "location")) then PatternPredicate(q, "location") else f0.location,
                          universityName := if Given(Lookup(q, "search")) then PatternPredicate(q, "search") else f0.universityName)
  {
    filter := f0;
    var countries := Lookup(q, "countries");
    if Given(countries) {
      var countryList := TrimAll(Split(countries.value, ','));
      filter := filter.(country := Some(countryList));
    }
    var location := Lookup(q, "location");
    if Given(location) {
      filter := filter.(location := Some(location.value));
    }
    var search := Lookup(q, "search");
    if Given(search) {
      filter := filter.(universityName := Some(search.value));
    }
  }

  /** The handler's range filters on fee, ranking and founding year, with
      `topTier` overwriting the ranking range. */
  method RangeFilters(q: Query, f0: Filter) returns (filter: Filter)
    ensures filter == f0.(tuitionFee := if FilterOf(q).tuitionFee.Some? then FilterOf(q).tuitionFee else f0.tuitionFee,
                          ranking := if FilterOf(q).ranking.Some? then FilterOf(q).ranking else f0.ranking,
                          establishedYear := if FilterOf(q).establishedYear.Some? then FilterOf(q).establishedYear else f0.establishedYear)
  {
    filter := f0;
    var minTuition, maxTuition := Lookup(q, "minTuition"), Lookup(q, "maxTuition");
    if Given(minTuition) || Given(maxTuition) {
      var range := BuildRange(minTuition, maxTuition, ParseFloat);
      filter := filter.(tuitionFee := Some(range));
    }
    var minRanking, maxRanking := Lookup(q, "minRanking"), Lookup(q, "maxRanking");
    if Given(minRanking) || Given(maxRanking) {
      var range := BuildRange(minRanking, maxRanking, ParseInt);
      filter := filter.(ranking := Some(range));
    }
    var topTier := Lookup(q, "topTier");
    if Given(topTier) {
      filter := filter.(ranking := Some(Range(None, Some(ParseInt(topTier.value)))));
    }
    var minYear, maxYear := Lookup(q, "minYear"), Lookup(q, "maxYear");
    if Given(minYear) || Given(maxYear) {
      var range := BuildRange(minYear, maxYear, ParseInt);
      filter := filter.(establishedYear := Some(range));
    }
  }

  /** The handler's filter building: the basic filters, the ranges, then the
      region, each assignment overwriting what was there (`topTier` over the
      ranking bounds, a known region over `countries`). */
  method CompileFilter(q: Query) returns (filter: Filter)
    ensures filter == FilterOf(q)
    ensures KnownRegion(q) ==> filter.country == Some(RegionalGroups[Lookup(q, "region").value])
    ensures Given(Lookup(q, "topTier")) ==> filter.ranking == Some(Range(None, Some(ParseInt(Lookup(q, "topTier").value))))
  {
    filter := EmptyFilter;
    filter := BasicFilters(q, filter);
    filter := RangeFilters(q, filter);
    var region := Lookup(q, "region");
    if Given(region) && region.value in RegionalGroups {
      filter := filter.(country := Some(RegionalGroups[region.value]));
    }
  }

  /** A known region decides the country predicate whatever `countries`
      says; an unknown one leaves the trimmed `countries` list in place. */
  lemma RegionPrecedence(q1: Query, q2: Query)
    requires Lookup(q1, "region") == Lookup(q2, "region")
    ensures KnownRegion(q1) ==> FilterOf(q1).country == FilterOf(q2).country
    ensures !KnownRegion(q1) && Given(Lookup(q1, "countries"))
            ==> FilterOf(q1).country == CountriesPredicate(q1)
  {
  }

  /** `topTier` discards both ranking bounds; without it each bound is set
      exactly when its parameter is non-empty. */
  lemma RankingPrecedence(q: Query)
    ensures Given(Lookup(q, "topTier"))
            ==> FilterOf(q).ranking == Some(Range(None, Some(ParseInt(Lookup(q, "topTier").value))))
    ensures !Given(Lookup(q, "topTier")) ==>
      match FilterOf(q).ranking
      case None => !Given(Lookup(q, "minRanking")) && !Given(Lookup(q, "maxRanking"))
      case Some(r) =>
        && (r.gte.Some? <==> Given(Lookup(q, "minRanking")))
        && (r.lte.Some? <==> Given(Lookup(q, "maxRanking")))
        && (r.gte.Some? ==> r.gte.value == ParseInt(Lookup(q, "minRanking").value))
        && (r.lte.Some? ==> r.lte.value == ParseInt(Lookup(q, "maxRanking").value))
  {
  }

  /** The filter has no key exactly when no filter parameter is non-empty
      and the region is not a known one. */
  lemma EmptyFilterIff(q: Query)
    ensures KeyCount(FilterOf(q)) == 0 <==>
      && !KnownRegion(q) && !Given(Lookup(q, "countries"))
      && !Given(Lookup(q, "location")) && !Given(Lookup(q, "search"))
      && !Given(Lookup(q, "minTuition")) && !Given(Lookup(q, "maxTuition"))
      && !Given(Lookup(q, "minRanking")) && !Given(Lookup(q, "maxRanking"))
      && !Given(Lookup(q, "topTier"))
      && !Given(Lookup(q, "minYear")) && !Given(Lookup(q, "maxYear"))
  {
  }

  // ---------------------------------------------------------------------
  // Post-query filters

  /** A result row: the record, and the value score once the value step
      has attached one. */
  datatype Row = Row(uni: University, valueScore: Option<real>)

  /** Rows with no value score attached. */
  function Plain(s: seq<University>): (r: seq<Row>)
    ensures |r| == |s|
    ensures forall i :: 0 <= i < |r| ==> r[i] == Row(s[i], None)
  {
    seq(|s|, i requires 0 <= i < |s| => Row(s[i], None))
  }

  /** Every ranked record has a positive fee, so its value score is a
      number. */
  predicate Scorable(s: seq<University>)
  {
    forall u :: u in s && u.ranking > 0 ==> u.tuitionFee > 0.0
  }

  /** `results.map(uni => ({...uni, valueScore}))`. */
  function Scored(s: seq<University>): (r: seq<Row>)
    requires Scorable(s)
    ensures |r| == |s|
    ensures forall i :: 0 <= i < |r| ==> r[i].uni == s[i] && r[i].valueScore.Some?
    ensures forall i :: 0 <= i < |r| ==> r[i].valueScore.value == ValueScore(s[i].ranking, s[i].tuitionFee)
  {
    seq(|s|, i requires 0 <= i < |s| => Row(s[i], Some(ValueScore(s[i].ranking, s[i].tuitionFee))))
  }

  /** `uni => matches(filter, uni)`: the database's test for one record. */
  function MatchTest(matches: (Filter, University) -> bool, filter: Filter): University -> bool
  {
    (u: University) => matches(filter, u)
  }

  /** `uni => tiers.includes(getAffordabilityTier(uni.tuitionFee))`. */
  function TierTest(tiers: seq<string>): University -> bool
  {
    (u: University) => AffordabilityTier(u.tuitionFee) in tiers
  }

  /** `uni => ages.includes(getInstitutionAge(uni.establishedYear))`. */
  function AgeTest(ages: seq<string>, currentYear: int): University -> bool
  {
    (u: University) => InstitutionAge(u.establishedYear, currentYear) in ages
  }

  /** The fetched records: the database list restricted to the filter. */
  function Fetched(q: Query, db: seq<University>, matches: (Filter, University) -> bool): seq<University>
  {
    Keep(db, MatchTest(matches, FilterOf(q)))
  }

  /** The affordability step: the comma-split list, entries untrimmed. */
  function ByAffordability(q: Query, s: seq<University>): seq<University>
  {
    var affordability := Lookup(q, "affordability");
    if Given(affordability) then Keep(s, TierTest(Split(affordability.value, ','))) else s
  }

  /** The institution-age step, likewise. */
  function ByAge(q: Query, currentYear: int, s: seq<University>): seq<University>
  {
    var institutionAge := Lookup(q, "institutionAge");
    if Given(institutionAge) then Keep(s, AgeTest(Split(institutionAge.value, ','), currentYear)) else s
  }

  /** The records that survive the database filter and both post-query
      filters, in database order. */
  function Filtered(q: Query, db: seq<University>, matches: (Filter, University) -> bool, currentYear: int): (s: seq<University>)
    ensures forall u :: u in s ==> u in db
  {
    ByAge(q, currentYear, ByAffordability(q, Fetched(q, db, matches)))
  }

  /** What a record must satisfy to be in the result. */
  predicate Admitted(q: Query, matches: (Filter, University) -> bool, currentYear: int, u: University)
  {
    && matches(FilterOf(q), u)
    && (Given(Lookup(q, "affordability"))
        ==> AffordabilityTier(u.tuitionFee) in Split(Lookup(q, "affordability").value, ','))
    && (Given(Lookup(q, "institutionAge"))
        ==> InstitutionAge(u.establishedYear, currentYear) in Split(Lookup(q, "institutionAge").value, ','))
  }

  function AdmittedTest(q: Query, matches: (Filter, University) -> bool, currentYear: int): University -> bool
  {
    u => Admitted(q, matches, currentYear, u)
  }

  /** The three filters in a row keep what one filter by `Admitted`
      keeps. */
  lemma FilteredIsKeep(q: Query, db: seq<University>, matches: (Filter, University) -> bool, currentYear: int)
    ensures Filtered(q, db, matches, currentYear) == Keep(db, AdmittedTest(q, matches, currentYear))
  {
    var affordability := Lookup(q, "affordability");
    var institutionAge := Lookup(q, "institutionAge");
    var t: University -> bool := if Given(affordability) then TierTest(Split(affordability.value, ',')) else u => true;
    var a: University -> bool := if Given(institutionAge) then AgeTest(Split(institutionAge.value, ','), currentYear) else u => true;
    var fetched := Fetched(q, db, matches);
    if !Given(affordability) {
      KeepAll(fetched, t);
    }
    var tiered := Keep(fetched, t);
    assert ByAffordability(q, fetched) == tiered;
    if !Given(institutionAge) {
      KeepAll(tiered, a);
    }
    assert Filtered(q, db, matches, currentYear) == Keep(tiered, a);
    KeepThree(db, MatchTest(matches, FilterOf(q)), t, a, AdmittedTest(q, matches, currentYear));
  }

  /** The filtered records are exactly the admitted ones: a subsequence of
      the database list, keeping each admitted record as often as it occurs
      there and nothing else. */
  lemma FilteredIsAdmitted(q: Query, db: seq<University>, matches: (Filter, University) -> bool, currentYear: int)
    ensures IsSubsequence(Filtered(q, db, matches, currentYear), db)
    ensures forall u :: multiset(Filtered(q, db, matches, currentYear))[u]
                        == if Admitted(q, matches, currentYear, u) then multiset(db)[u] else 0
    ensures forall u :: u in Filtered(q, db, matches, currentYear) <==> u in db && Admitted(q, matches, currentYear, u)
  {
    FilteredIsKeep(q, db, matches, currentYear);
    var p := AdmittedTest(q, matches, currentYear);
    KeepIsSubsequence(db, p);
    KeepCount(db, p);
    KeepMembers(db, p);
  }

  // ---------------------------------------------------------------------
  // Sorting

  /** What a row's score sorts by: the score, or 0 for a row without one. */
  function ScoreOf(r: Row): real
  {
    if r.valueScore.Some? then r.valueScore.value else 0.0
  }

  /** The value-score comparator `b.valueScore - a.valueScore`: a number when
      both rows carry a score, NaN otherwise. */
  function ValueCompare(a: Row, b: Row): Parsed<real>
  {
    if a.valueScore.Some? && b.valueScore.Some? then Num(b.valueScore.value - a.valueScore.value) else NaN
  }

  /** `a` goes before `b` in the value sort: the comparator is negative. */
  predicate ValueBefore(a: Row, b: Row)
  {
    ValueCompare(a, b).Num? && ValueCompare(a, b).value < 0.0
  }

  /** The sortable properties of a result row; `Other` stands for any name
      that is not one of them. */
  datatype Field = Id | UniversityName | Country | Location | TuitionFee | Ranking | EstablishedYear | ValueScoreField | Other

  /** The property a `sortBy` name reads. */
  function FieldNamed(name: string): Field
  {
    if name == "_id" then Id
    else if name == "universityName" then UniversityName
    else if name == "country" then Country
    else if name == "location" then Location
    else if name == "tuitionFee" then TuitionFee
    else if name == "ranking" then Ranking
    else if name == "establishedYear" then EstablishedYear
    else if name == "valueScore" then ValueScoreField
    else Other
  }

  /** A property value as the comparison sees it. */
  datatype Key = Text(text: string) | Number(number: real) | Undefined

  function KeyOf(f: Field, r: Row): Key
  {
    match f
    case Id => Text(r.uni.id)
    case UniversityName => Text(r.uni.universityName)
    case Country => Text(r.uni.country)
    case Location => Text(r.uni.location)
    case TuitionFee => Number(r.uni.tuitionFee)
    case Ranking => Number(r.uni.ranking as real)
    case EstablishedYear => Number(r.uni.establishedYear as real)
    case ValueScoreField => if r.valueScore.Some? then Number(r.valueScore.value) else Undefined
    case Other => Undefined
  }

  /** JavaScript's `<` on two property values: string order on strings,
      numeric order on numbers, false once `undefined` is involved. */
  predicate KeyLess(a: Key, b: Key)
  {
    match (a, b)
    case (Text(x), Text(y)) => StrLess(x, y)
    case (Number(x), Number(y)) => x < y
    case _ => false
  }

  /** The field comparator: -1, 1 or 0, each multiplied by the direction
      (1 ascending, -1 descending). */
  function FieldCompare(f: Field, sortOrder: int, a: Row, b: Row): int
  {
    var aVal, bVal := KeyOf(f, a), KeyOf(f, b);
    if KeyLess(aVal, bVal) then -1 * sortOrder
    else if KeyLess(bVal, aVal) then 1 * sortOrder
    else 0
  }

  /** `a` goes before `b` in the field sort. */
  function FieldOrder(f: Field, sortOrder: int): (Row, Row) -> bool
  {
    (a: Row, b: Row) => FieldCompare(f, sortOrder, a, b) < 0
  }

  /** `sortOrder === 'desc' ? -1 : 1`. */
  function SortOrder(q: Query): (order: int)
    ensures order == -1 <==> Lookup(q, "sortOrder") == Some("desc")
    ensures order == 1 || order == -1
  {
    if Lookup(q, "sortOrder") == Some("desc") then -1 else 1
  }

  /** The properties every record has. */
  predicate IsDataField(f: Field)
  {
    f != ValueScoreField && f != Other
  }

  predicate SameKind(a: Key, b: Key)
  {
    (a.Text? && b.Text?) || (a.Number? && b.Number?)
  }

  lemma KeyLessIsStrict(a: Key, b: Key, c: Key)
    ensures !KeyLess(a, a)
    ensures KeyLess(a, b) && KeyLess(b, c) ==> KeyLess(a, c)
    ensures SameKind(a, b) && SameKind(b, c) && KeyLess(a, c) ==> KeyLess(a, b) || KeyLess(b, c)
  {
    if a.Text? {
      StrLessIrreflexive(a.text);
    }
    if a.Text? && b.Text? && c.Text? {
      if KeyLess(a, b) && KeyLess(b, c) {
        StrLessTransitive(a.text, b.text, c.text);
      }
      if KeyLess(a, c) {
        StrLessNegTransitive(a.text, b.text, c.text);
      }
    }
  }

  /** The field comparator is a strict order on keys, turned round for
      descending order. */
  lemma FieldOrderMeaning(f: Field, sortOrder: int, a: Row, b: Row)
    requires sortOrder == 1 || sortOrder == -1
    ensures FieldOrder(f, sortOrder)(a, b)
            <==> if sortOrder == 1 then KeyLess(KeyOf(f, a), KeyOf(f, b)) else KeyLess(KeyOf(f, b), KeyOf(f, a))
  {
    KeyLessIsStrict(KeyOf(f, a), KeyOf(f, b), KeyOf(f, a));
  }

  /** On the properties every record has, the field comparator is
      consistent in either direction. */
  lemma FieldOrderIsStrictWeak(f: Field, sortOrder: int)
    requires IsDataField(f) && (sortOrder == 1 || sortOrder == -1)
    ensures StrictWeakOrder(FieldOrder(f, sortOrder))
  {
    var lt := FieldOrder(f, sortOrder);
    forall a: Row, b: Row, c: Row
      ensures !lt(a, a)
      ensures lt(a, b) && lt(b, c) ==> lt(a, c)
      ensures lt(a, c) ==> lt(a, b) || lt(b, c)
    {
      FieldOrderMeaning(f, sortOrder, a, a);
      FieldOrderMeaning(f, sortOrder, a, b);
      FieldOrderMeaning(f, sortOrder, b, c);
      FieldOrderMeaning(f, sortOrder, a, c);
      var ka, kb, kc := KeyOf(f, a), KeyOf(f, b), KeyOf(f, c);
      KeyLessIsStrict(ka, kb, kc);
      KeyLessIsStrict(kc, kb, ka);
    }
  }

  /** Every row carries a value score. */
  predicate AllScored(rows: seq<Row>)
  {
    forall r :: r in rows ==> r.valueScore.Some?
  }

  /** Score order in a direction, on every row (a row without a score
      counting as 0). */
  function ScoreOrder(sortOrder: int): (Row, Row) -> bool
  {
    (a: Row, b: Row) => if sortOrder == 1 then ScoreOf(a) < ScoreOf(b) else ScoreOf(b) < ScoreOf(a)
  }

  lemma ScoreOrderIsStrictWeak(sortOrder: int)
    ensures StrictWeakOrder(ScoreOrder(sortOrder))
  {
  }

  /** Among scored rows, the value comparator is the descending score order
      and the `valueScore` field comparator is the score order. */
  lemma ScoredComparators(rows: seq<Row>, sortOrder: int)
    requires AllScored(rows) && (sortOrder == 1 || sortOrder == -1)
    ensures forall a, b :: a in rows && b in rows ==> ValueBefore(a, b) == ScoreOrder(-1)(a, b)
    ensures forall a, b :: a in rows && b in rows ==>
              FieldOrder(ValueScoreField, sortOrder)(a, b) == ScoreOrder(sortOrder)(a, b)
  {
    forall a, b | a in rows && b in rows
      ensures FieldOrder(ValueScoreField, sortOrder)(a, b) == ScoreOrder(sortOrder)(a, b)
    {
      FieldOrderMeaning(ValueScoreField, sortOrder, a, b);
    }
  }

  // ---------------------------------------------------------------------
  // Sorting steps

  /** The value step wants `valueForMoney` to be exactly "true". */
  predicate WantsValue(q: Query)
  {
    Lookup(q, "valueForMoney") == Some("true")
  }

  /** The rows after the value step: scored and sorted by descending score
      with `valueForMoney=true`, untouched otherwise. */
  function ValueRows(q: Query, s: seq<University>): seq<Row>
    requires WantsValue(q) ==> Scorable(s)
  {
    if WantsValue(q) then StableSort(Scored(s), ValueBefore) else Plain(s)
  }

  /** The rows after the `sortBy` step. */
  function BySortBy(q: Query, rows: seq<Row>): seq<Row>
  {
    var sortBy := Lookup(q, "sortBy");
    if Given(sortBy) then StableSort(rows, FieldOrder(FieldNamed(sortBy.value), SortOrder(q))) else rows
  }

  /** The value step can compute every score it needs: those of the records
      that survive the query and the two post-query filters. */
  predicate ScoresDefined(q: Query, db: seq<University>, matches: (Filter, University) -> bool, currentYear: int)
  {
    WantsValue(q) ==> Scorable(Filtered(q, db, matches, currentYear))
  }

  /** The full result list, before paging. */
  function Results(q: Query, db: seq<University>, matches: (Filter, University) -> bool, currentYear: int): seq<Row>
    requires ScoresDefined(q, db, matches, currentYear)
  {
    BySortBy(q, ValueRows(q, Filtered(q, db, matches, currentYear)))
  }

  /** The rows the sorting steps start from. */
  function Tagged(q: Query, s: seq<University>): seq<Row>
    requires WantsValue(q) ==> Scorable(s)
  {
    if WantsValue(q) then Scored(s) else Plain(s)
  }

  /** The result is a permutation of the filtered records, carrying their
      value scores exactly when `valueForMoney=true`; without any sort it is
      the filtered records in database order. */
  lemma ResultsPermutation(q: Query, db: seq<University>, matches: (Filter, University) -> bool, currentYear: int)
    requires ScoresDefined(q, db, matches, currentYear)
    ensures multiset(Results(q, db, matches, currentYear)) == multiset(Tagged(q, Filtered(q, db, matches, currentYear)))
    ensures !WantsValue(q) && !Given(Lookup(q, "sortBy"))
            ==> Results(q, db, matches, currentYear) == Plain(Filtered(q, db, matches, currentYear))
  {
  }

  /** The value sort: the scored rows, rearranged, with scores never
      increasing down the list. */
  lemma ValueSortOrder(s: seq<University>)
    requires Scorable(s)
    ensures var v := StableSort(Scored(s), ValueBefore);
            && multiset(v) == multiset(Scored(s))
            && (forall i, j :: 0 <= i < j < |v| ==> ScoreOf(v[i]) >= ScoreOf(v[j]))
            && Sorted(v, ScoreOrder(-1))
  {
    var scored := Scored(s);
    ScoredRowsCarryScores(s);
    ScoredComparators(scored, 1);
    SortAgrees(scored, ValueBefore, ScoreOrder(-1));
    ScoreOrderIsStrictWeak(-1);
    SortSorted(scored, ScoreOrder(-1));
  }

  /** With `valueForMoney=true` every row carries its record's value score;
      without `sortBy` the scores never increase down the list. */
  lemma ValueOrder(q: Query, db: seq<University>, matches: (Filter, University) -> bool, currentYear: int)
    requires ScoresDefined(q, db, matches, currentYear) && WantsValue(q)
    ensures var r := Results(q, db, matches, currentYear);
            forall i :: 0 <= i < |r| ==>
              r[i].uni in Filtered(q, db, matches, currentYear) && r[i].uni in db
              && r[i].valueScore == Some(ValueScore(r[i].uni.ranking, r[i].uni.tuitionFee))
    ensures var r := Results(q, db, matches, currentYear);
            !Given(Lookup(q, "sortBy")) ==> forall i, j :: 0 <= i < j < |r| ==> ScoreOf(r[i]) >= ScoreOf(r[j])
  {
    var s := Filtered(q, db, matches, currentYear);
    var v := StableSort(Scored(s), ValueBefore);
    ValueSortOrder(s);
    var r := Results(q, db, matches, currentYear);
    assert r == BySortBy(q, v);
    assert multiset(r) == multiset(Scored(s));
    ScoredRowsFrom(r, s);
    forall i | 0 <= i < |r| ensures r[i].uni in db {
      assert r[i].uni in s;
    }
  }

  /** Any rearrangement of the scored rows holds records of the input, each
      with its own score. */
  lemma ScoredRowsFrom(r: seq<Row>, s: seq<University>)
    requires Scorable(s) && multiset(r) == multiset(Scored(s))
    ensures forall i :: 0 <= i < |r| ==> r[i].uni in s && r[i].valueScore == Some(ValueScore(r[i].uni.ranking, r[i].uni.tuitionFee))
  {
    ScoredRowsCarryScores(s);
    RowsFrom(r, Scored(s));
    forall i | 0 <= i < |r| ensures r[i].uni in s {
      assert r[i] in Scored(s);
      var k :| 0 <= k < |Scored(s)| && Scored(s)[k] == r[i];
      assert r[i].uni == s[k];
    }
  }

  /** Every scored row carries its own record's score. */
  lemma ScoredRowsCarryScores(s: seq<University>)
    requires Scorable(s)
    ensures AllScored(Scored(s))
    ensures forall r :: r in Scored(s) ==> r.valueScore == Some(ValueScore(r.uni.ranking, r.uni.tuitionFee))
  {
  }

  /** A permutation holds only rows of the original. */
  lemma RowsFrom(r: seq<Row>, s: seq<Row>)
    requires multiset(r) == multiset(s)
    ensures forall x :: x in r ==> x in s
  {
    forall x | x in r ensures x in s {
      assert x in multiset(r);
    }
  }

  /** The `sortBy` field of a query. */
  function SortField(q: Query): Field
    requires Given(Lookup(q, "sortBy"))
  {
    FieldNamed(Lookup(q, "sortBy").value)
  }

  /** Sorting by a property every record has puts the keys in order:
      non-decreasing ascending, non-increasing descending. */
  lemma FieldSortOrder(q: Query, db: seq<University>, matches: (Filter, University) -> bool, currentYear: int)
    requires ScoresDefined(q, db, matches, currentYear) && Given(Lookup(q, "sortBy")) && IsDataField(SortField(q))
    ensures var r, f := Results(q, db, matches, currentYear), SortField(q);
            forall i, j :: 0 <= i < j < |r| ==>
              if SortOrder(q) == 1 then !KeyLess(KeyOf(f, r[j]), KeyOf(f, r[i]))
              else !KeyLess(KeyOf(f, r[i]), KeyOf(f, r[j]))
  {
    var f, o := SortField(q), SortOrder(q);
    var r := Results(q, db, matches, currentYear);
    FieldOrderIsStrictWeak(f, o);
    SortSorted(ValueRows(q, Filtered(q, db, matches, currentYear)), FieldOrder(f, o));
    forall i, j | 0 <= i < j < |r|
      ensures if o == 1 then !KeyLess(KeyOf(f, r[j]), KeyOf(f, r[i])) else !KeyLess(KeyOf(f, r[i]), KeyOf(f, r[j]))
    {
      FieldOrderMeaning(f, o, r[j], r[i]);
    }
  }

  /** The field sort is stable: the rows that tie with any row `k` on the
      sort key come out in the order the value step left them. */
  lemma FieldSortStable(q: Query, db: seq<University>, matches: (Filter, University) -> bool, currentYear: int, k: Row)
    requires ScoresDefined(q, db, matches, currentYear) && Given(Lookup(q, "sortBy")) && IsDataField(SortField(q))
    ensures var lt := FieldOrder(SortField(q), SortOrder(q));
            TiedWith(Results(q, db, matches, currentYear), lt, k)
            == TiedWith(ValueRows(q, Filtered(q, db, matches, currentYear)), lt, k)
  {
    FieldOrderIsStrictWeak(SortField(q), SortOrder(q));
    SortStable(ValueRows(q, Filtered(q, db, matches, currentYear)), FieldOrder(SortField(q), SortOrder(q)), k);
  }

  /** With `valueForMoney=true` and a field sort, rows with equal keys stay
      in descending score order: the value order is the tie-breaker. */
  lemma ValueOrderBreaksTies(q: Query, db: seq<University>, matches: (Filter, University) -> bool, currentYear: int)
    requires ScoresDefined(q, db, matches, currentYear) && WantsValue(q) && Given(Lookup(q, "sortBy")) && IsDataField(SortField(q))
    ensures var r, f := Results(q, db, matches, currentYear), SortField(q);
            forall i, j :: 0 <= i < j < |r| && KeyOf(f, r[i]) == KeyOf(f, r[j]) ==> ScoreOf(r[i]) >= ScoreOf(r[j])
  {
    var f, o := SortField(q), SortOrder(q);
    var s := Filtered(q, db, matches, currentYear);
    var v := StableSort(Scored(s), ValueBefore);
    ValueSortOrder(s);
    FieldOrderIsStrictWeak(f, o);
    SortKeepsTieOrder(v, FieldOrder(f, o), ScoreOrder(-1));
    assert Results(q, db, matches, currentYear) == StableSort(v, FieldOrder(f, o));
    EqualKeysTied(StableSort(v, FieldOrder(f, o)), f, o);
  }

  /** In rows whose ties under a field order are in score order, rows with
      equal keys are in descending score order. */
  lemma EqualKeysTied(r: seq<Row>, f: Field, o: int)
    requires o == 1 || o == -1
    requires TiesOrdered(r, FieldOrder(f, o), ScoreOrder(-1))
    ensures forall i, j :: 0 <= i < j < |r| && KeyOf(f, r[i]) == KeyOf(f, r[j]) ==> ScoreOf(r[i]) >= ScoreOf(r[j])
  {
    forall i, j | 0 <= i < j < |r| && KeyOf(f, r[i]) == KeyOf(f, r[j])
      ensures ScoreOf(r[i]) >= ScoreOf(r[j])
    {
      FieldOrderMeaning(f, o, r[i], r[j]);
      FieldOrderMeaning(f, o, r[j], r[i]);
      KeyLessIsStrict(KeyOf(f, r[i]), KeyOf(f, r[i]), KeyOf(f, r[i]));
      assert Equivalent(FieldOrder(f, o), r[i], r[j]);
    }
  }

  /** Sorting by `valueScore` after the value step orders the scores in the
      requested direction. */
  lemma ScoreFieldOrder(q: Query, db: seq<University>, matches: (Filter, University) -> bool, currentYear: int)
    requires ScoresDefined(q, db, matches, currentYear) && WantsValue(q) && Given(Lookup(q, "sortBy")) && SortField(q) == ValueScoreField
    ensures var r := Results(q, db, matches, currentYear);
            forall i, j :: 0 <= i < j < |r| ==>
              if SortOrder(q) == 1 then ScoreOf(r[i]) <= ScoreOf(r[j]) else ScoreOf(r[i]) >= ScoreOf(r[j])
  {
    var o := SortOrder(q);
    var s := Filtered(q, db, matches, currentYear);
    var v := StableSort(Scored(s), ValueBefore);
    ValueSortOrder(s);
    ScoredRowsCarryScores(s);
    RowsFrom(v, Scored(s));
    assert AllScored(v);
    ScoredComparators(v, o);
    SortAgrees(v, FieldOrder(ValueScoreField, o), ScoreOrder(o));
    ScoreOrderIsStrictWeak(o);
    SortSorted(v, ScoreOrder(o));
  }

  /** A `sortBy` name the rows do not have, or `valueScore` without the
      value step, compares every pair as equal and leaves the order as it
      was. */
  lemma UnorderedFieldKeepsOrder(q: Query, db: seq<University>, matches: (Filter, University) -> bool, currentYear: int)
    requires ScoresDefined(q, db, matches, currentYear) && Given(Lookup(q, "sortBy"))
    requires SortField(q) == Other || (SortField(q) == ValueScoreField && !WantsValue(q))
    ensures Results(q, db, matches, currentYear) == ValueRows(q, Filtered(q, db, matches, currentYear))
  {
    var f, o := SortField(q), SortOrder(q);
    var s := Filtered(q, db, matches, currentYear);
    var rows := ValueRows(q, s);
    if f == ValueScoreField {
      assert rows == Plain(s);
      PlainUnscored(s);
    }
    NoOrderAmong(f, o, rows);
    SortWithoutOrder(rows, FieldOrder(f, o));
  }

  /** Unscored rows carry no score. */
  lemma PlainUnscored(s: seq<University>)
    ensures forall r :: r in Plain(s) ==> r.valueScore.None?
  {
  }

  /** A property the rows do not have orders no two of them. */
  lemma NoOrderAmong(f: Field, sortOrder: int, rows: seq<Row>)
    requires f == Other || (f == ValueScoreField && forall r :: r in rows ==> r.valueScore.None?)
    ensures forall a, b :: a in rows && b in rows ==> !FieldOrder(f, sortOrder)(a, b)
  {
    forall a, b | a in rows && b in rows ensures KeyOf(f, a) == Undefined && KeyOf(f, b) == Undefined {
    }
  }

  // ---------------------------------------------------------------------
  // Paging

  function Min(a: int, b: int): int { if a <= b then a else b }

  /** `s.slice(start, end)` for indices that are not negative: clamped to the
      length, empty when the start is past the end. */
  function Slice<T>(s: seq<T>, start: nat, end: nat): (r: seq<T>)
    requires start <= end
    ensures |r| <= end - start
    ensures forall i :: 0 <= i < |r| ==> start + i < |s| && r[i] == s[start + i]
    ensures |r| == end - start || start + |r| == |s| || r == []
  {
    s[Min(start, |s|)..Min(end, |s|)]
  }

  /** Page `page` of `limit` rows. */
  function Window<T>(s: seq<T>, page: int, limit: int): (w: seq<T>)
    requires page >= 1 && limit >= 1
    ensures |w| <= limit
    ensures forall i :: 0 <= i < |w| ==> (page - 1) * limit + i < |s| && w[i] == s[(page - 1) * limit + i]
    ensures |w| == limit || (page - 1) * limit + |w| == |s| || w == []
  {
    MulNonNegative(page - 1, limit);
    var start: nat := (page - 1) * limit;
    Slice(s, start, start + limit)
  }

  lemma MulNonNegative(a: int, b: int)
    requires a >= 0 && b >= 0
    ensures a * b >= 0
  {
  }

  /** `Math.ceil(total / limit)`. */
  function TotalPages(total: nat, limit: int): (n: nat)
    requires limit >= 1
    ensures n * limit >= total
    ensures total == 0 ==> n == 0
    ensures total > 0 ==> (n - 1) * limit < total
  {
    var n := (total + limit - 1) / limit;
    var r := (total + limit - 1) % limit;
    assert total + limit - 1 == n * limit + r;
    assert n * limit - limit == (n - 1) * limit;
    n
  }

  lemma MulMonotone(a: int, b: int, c: int)
    requires a <= b && c >= 0
    ensures a * c <= b * c
  {
    assert b * c - a * c == (b - a) * c;
    MulNonNegative(b - a, c);
  }

  /** A page has rows exactly when its number is at most the page count. */
  lemma PageNonEmptyIff<T>(s: seq<T>, page: int, limit: int)
    requires page >= 1 && limit >= 1
    ensures Window(s, page, limit) != [] <==> page <= TotalPages(|s|, limit)
  {
    var n := TotalPages(|s|, limit);
    var start := (page - 1) * limit;
    if page <= n {
      MulMonotone(page - 1, n - 1, limit);
      assert start < |s|;
      assert Window(s, page, limit)[0] == s[start];
    } else {
      MulMonotone(n, page - 1, limit);
      assert start >= |s|;
    }
  }

  /** Pages 1 to n, one after the other. */
  function Pages<T>(s: seq<T>, limit: int, n: nat): seq<T>
    requires limit >= 1
  {
    if n == 0 then [] else Pages(s, limit, n - 1) + Window(s, n, limit)
  }

  /** The number of rows pages 1 to n hold when all are full. */
  function RowsUpTo(n: nat, limit: int): (rows: nat)
    requires limit >= 1
    ensures rows == n * limit
  {
    MulNonNegative(n, limit);
    n * limit
  }

  lemma {:induction false} PagesPrefix<T>(s: seq<T>, limit: int, n: nat)
    requires limit >= 1
    ensures Pages(s, limit, n) == s[..Min(RowsUpTo(n, limit), |s|)]
  {
    if n > 0 {
      PagesPrefix(s, limit, n - 1);
      MulNonNegative(n - 1, limit);
      assert (n - 1) * limit + limit == n * limit;
      var a, b := Min((n - 1) * limit, |s|), Min(n * limit, |s|);
      assert Window(s, n, limit) == s[a..b];
      assert s[..a] + s[a..b] == s[..b];
    }
  }

  /** The pages from 1 to `totalPages` hold every result once, in order. */
  lemma PagesCover<T>(s: seq<T>, limit: int)
    requires limit >= 1
    ensures Pages(s, limit, TotalPages(|s|, limit)) == s
  {
    var n := TotalPages(|s|, limit);
    PagesPrefix(s, limit, n);
    assert s[..|s|] == s;
  }

  /** 105 results at 20 a page: 6 pages, the sixth holding 5, the seventh
      none. */
  lemma PagingExample<T>(s: seq<T>)
    requires |s| == 105
    ensures TotalPages(105, 20) == 6
    ensures Window(s, 6, 20) == s[100..105]
    ensures Window(s, 7, 20) == []
  {
  }

  // ---------------------------------------------------------------------
  // The response

  /** `x || fallback` on a parameter. */
  function OrDefault(v: Option<string>, fallback: string): string
  {
    if Given(v) then v.value else fallback
  }

  /** `parseInt(get('page') || '1')` and `parseInt(get('limit') || '50')`. */
  function PageParam(q: Query): Parsed<int> { ParseInt(OrDefault(Lookup(q, "page"), "1")) }
  function LimitParam(q: Query): Parsed<int> { ParseInt(OrDefault(Lookup(q, "limit"), "50")) }

  /** Page and limit parse to whole numbers of at least 1. */
  predicate ValidPaging(q: Query)
  {
    PageParam(q).Num? && PageParam(q).value >= 1 && LimitParam(q).Num? && LimitParam(q).value >= 1
  }

  /** Without page and limit parameters the first page of 50 is served. */
  lemma PagingDefaults(q: Query)
    requires Lookup(q, "page").None? && Lookup(q, "limit").None?
    ensures ValidPaging(q) && PageParam(q) == Num(1) && LimitParam(q) == Num(50)
  {
    assert OrDefault(Lookup(q, "page"), "1") == "1";
    assert OrDefault(Lookup(q, "limit"), "50") == "50";
    ParseIntOne();
    ParseIntFifty();
  }

  /** A JSON value of the `applied` entry. */
  datatype Json = JsonTrue | JsonString(text: string) | JsonNull

  /** `keys > 0 || affordability || institutionAge || valueForMoney`: the
      first truthy operand, else the last one (null when absent). */
  function AppliedValue(keys: nat, affordability: Option<string>, institutionAge: Option<string>,
                        valueForMoney: Option<string>): Json
  {
    if keys > 0 then JsonTrue
    else if Given(affordability) then JsonString(affordability.value)
    else if Given(institutionAge) then JsonString(institutionAge.value)
    else if valueForMoney.Some? then JsonString(valueForMoney.value)
    else JsonNull
  }

  predicate Truthy(j: Json)
  {
    j.JsonTrue? || (j.JsonString? && j.text != "")
  }

  /** `applied` is truthy exactly when the filter has a key or one of the
      three post-query parameters is non-empty; `valueForMoney=false`
      counts. */
  lemma AppliedTruthy(keys: nat, affordability: Option<string>, institutionAge: Option<string>,
                      valueForMoney: Option<string>)
    ensures Truthy(AppliedValue(keys, affordability, institutionAge, valueForMoney))
            <==> keys > 0 || Given(affordability) || Given(institutionAge) || Given(valueForMoney)
    ensures keys == 0 && !Given(affordability) && !Given(institutionAge) && valueForMoney == Some("false")
            ==> AppliedValue(keys, affordability, institutionAge, valueForMoney) == JsonString("false")
  {
  }

  datatype Pagination = Pagination(total: nat, page: int, limit: int, totalPages: nat)

  /** The JSON body: the page, its pagination data and the filter summary. */
  datatype Response = Response(data: seq<Row>, pagination: Pagination, applied: Json, count: nat)

  /** The response the handler builds. */
  function Respond(q: Query, db: seq<University>, matches: (Filter, University) -> bool, currentYear: int): (resp: Response)
    requires ValidPaging(q) && ScoresDefined(q, db, matches, currentYear)
    ensures resp.data == Window(Results(q, db, matches, currentYear), PageParam(q).value, LimitParam(q).value)
    ensures resp.pagination == Pagination(|Results(q, db, matches, currentYear)|, PageParam(q).value, LimitParam(q).value,
                                          TotalPages(|Results(q, db, matches, currentYear)|, LimitParam(q).value))
    ensures resp.applied == AppliedValue(KeyCount(FilterOf(q)), Lookup(q, "affordability"),
                                         Lookup(q, "institutionAge"), Lookup(q, "valueForMoney"))
    ensures resp.pagination.total == resp.count == |Results(q, db, matches, currentYear)|
    ensures |resp.data| <= resp.pagination.limit
    ensures resp.data != [] <==> resp.pagination.page <= resp.pagination.totalPages
  {
    var results := Results(q, db, matches, currentYear);
    var page, limit := PageParam(q).value, LimitParam(q).value;
    PageNonEmptyIff(results, page, limit);
    Response(
      Window(results, page, limit),
      Pagination(|results|, page, limit, TotalPages(|results|, limit)),
      AppliedValue(KeyCount(FilterOf(q)), Lookup(q, "affordability"), Lookup(q, "institutionAge"), Lookup(q, "valueForMoney")),
      |results|)
  }

  /** The post-query filters: affordability, then institution age. */
  method PostQueryFilters(q: Query, fetched: seq<University>, currentYear: int) returns (results: seq<University>)
    ensures results == ByAge(q, currentYear, ByAffordability(q, fetched))
  {
    results := fetched;
    var affordability := Lookup(q, "affordability");
    if Given(affordability) {
      var tiers := Split(affordability.value, ',');
      results := Keep(results, TierTest(tiers));
    }
    var institutionAge := Lookup(q, "institutionAge");
    if Given(institutionAge) {
      var ages := Split(institutionAge.value, ',');
      results := Keep(results, AgeTest(ages, currentYear));
    }
  }

  /** The value step and the field sort. */
  method SortSteps(q: Query, results: seq<University>) returns (rows: seq<Row>)
    requires WantsValue(q) ==> Scorable(results)
    ensures rows == BySortBy(q, ValueRows(q, results))
  {
    rows := Plain(results);
    var valueForMoney := Lookup(q, "valueForMoney");
    if valueForMoney == Some("true") {
      rows := StableSort(Scored(results), ValueBefore);
    }
    var sortBy := Lookup(q, "sortBy");
    var sortOrder := if Lookup(q, "sortOrder") == Some("desc") then -1 else 1;
    if Given(sortBy) {
      rows := StableSort(rows, FieldOrder(FieldNamed(sortBy.value), sortOrder));
    }
  }

  /** `results.slice(startIndex, endIndex)` for the page. */
  method Paginate(rows: seq<Row>, page: int, limit: int) returns (paginatedResults: seq<Row>)
    requires page >= 1 && limit >= 1
    ensures paginatedResults == Window(rows, page, limit)
  {
    MulNonNegative(page - 1, limit);
    var startIndex := (page - 1) * limit;
    var endIndex := startIndex + limit;
    paginatedResults := Slice(rows, startIndex, endIndex);
  }

  /** The `GET` handler, step by step: the filter, the fetch, the two
      post-query filters, the value step, the field sort, the page. */
  method Get(q: Query, db: seq<University>, matches: (Filter, University) -> bool, currentYear: int)
    returns (response: Response)
    requires ValidPaging(q) && ScoresDefined(q, db, matches, currentYear)
    ensures response == Respond(q, db, matches, currentYear)
  {
    var filter := CompileFilter(q);
    var fetched := Keep(db, MatchTest(matches, filter));
    var results := PostQueryFilters(q, fetched, currentYear);
    assert results == Filtered(q, db, matches, currentYear);
    var rows := SortSteps(q, results);

    var page := PageParam(q).value;
    var limit := LimitParam(q).value;
    var paginatedResults := Paginate(rows, page, limit);

    response := Response(
      paginatedResults,
      Pagination(|rows|, page, limit, TotalPages(|rows|, limit)),
      AppliedValue(KeyCount(filter), Lookup(q, "affordability"), Lookup(q, "institutionAge"), Lookup(q, "valueForMoney")),
      |rows|);
  }
}
