/** The side-by-side comparison of two universities: a three-way verdict per
    metric, the advantage lists of the summary, and the cost-difference
    statement. Everything here is a total function of the two records and
    the current year. */
module Compare {
  import opened Records
  import opened JsText
  import Api
  import Seqs

  /** Which of the two universities a metric favours. */
  datatype Verdict = First | Second | Equal

  /** The verdict with the two sides exchanged. */
  function Swap(v: Verdict): Verdict
  {
    match v
    case First => Second
    case Second => First
    case Equal => Equal
  }

  /** The first letter made upper-case (ASCII letters only). Not a step of
      the page: it states how the modal's fixed labels relate to the
      endpoint's tier and age names. */
  function Capitalize(s: string): (r: string)
    ensures |r| == |s| && (s != [] ==> r[1..] == s[1..])
    ensures s != [] ==> r[0] == if 'a' <= s[0] <= 'z' then (s[0] as int - 32) as char else s[0]
    ensures s != [] ==> !('a' <= r[0] <= 'z')
  {
    if s != [] && 'a' <= s[0] <= 'z' then [(s[0] as int - 32) as char] + s[1..] else s
  }

  /** The tier label shown under a fee: the API's tier, capitalised. */
  function TierLabel(fee: real): (name: string)
    ensures name in {"Budget", "Moderate", "Premium", "Luxury"}
    ensures name == Capitalize(Api.AffordabilityTier(fee))
  {
    CapitalizedTiers();
    if fee < 10000.0 then "Budget"
    else if fee < 25000.0 then "Moderate"
    else if fee < 50000.0 then "Premium"
    else "Luxury"
  }

  /** The capitalised tier names. */
  lemma CapitalizedTiers()
    ensures Capitalize("budget") == "Budget" && Capitalize("moderate") == "Moderate"
    ensures Capitalize("premium") == "Premium" && Capitalize("luxury") == "Luxury"
  {
    Capitalized("budget", "Budget");
    Capitalized("moderate", "Moderate");
    Capitalized("premium", "Premium");
    Capitalized("luxury", "Luxury");
  }

  /** The capitalised age names. */
  lemma CapitalizedAges()
    ensures Capitalize("modern") == "Modern" && Capitalize("established") == "Established"
    ensures Capitalize("historic") == "Historic" && Capitalize("ancient") == "Ancient"
  {
    Capitalized("modern", "Modern");
    Capitalized("established", "Established");
    Capitalized("historic", "Historic");
    Capitalized("ancient", "Ancient");
  }

  /** A word starting with a lower-case letter capitalises to `upper` when
      `upper` differs from it only in that letter, made upper-case. */
  lemma Capitalized(lower: string, upper: string)
    requires |lower| >= 1 && |upper| == |lower| && 'a' <= lower[0] <= 'z'
    requires upper[0] == (lower[0] as int - 32) as char && upper[1..] == lower[1..]
    ensures Capitalize(lower) == upper
  {
    assert upper == [upper[0]] + upper[1..];
  }

  /** The age label shown under a founding year: the API's category,
      capitalised. */
  function AgeLabel(establishedYear: int, currentYear: int): (name: string)
    ensures name in {"Modern", "Established", "Historic", "Ancient"}
    ensures name == Capitalize(Api.InstitutionAge(establishedYear, currentYear))
  {
    CapitalizedAges();
    var age := currentYear - establishedYear;
    if age < 50 then "Modern"
    else if age < 100 then "Established"
    else if age < 200 then "Historic"
    else "Ancient"
  }

  /** Three-way comparison of two numbers; `lowerIsBetter` says which
      direction wins. */
  function BetterValue(v1: real, v2: real, lowerIsBetter: bool): (v: Verdict)
    ensures v == Equal <==> v1 == v2
    ensures v == First <==> (if lowerIsBetter then v1 < v2 else v1 > v2)
    ensures v == Second <==> (if lowerIsBetter then v1 > v2 else v1 < v2)
  {
    if v1 == v2 then Equal
    else if lowerIsBetter then (if v1 < v2 then First else Second)
    else if v1 > v2 then First else Second
  }

  /** Exchanging the two values exchanges the verdict. */
  lemma BetterValueSwap(v1: real, v2: real, lowerIsBetter: bool)
    ensures BetterValue(v2, v1, lowerIsBetter) == Swap(BetterValue(v1, v2, lowerIsBetter))
  {
    var v := BetterValue(v1, v2, lowerIsBetter);
    if v == First {
      assert BetterValue(v2, v1, lowerIsBetter) == Second;
    } else if v == Second {
      assert BetterValue(v2, v1, lowerIsBetter) == First;
    }
  }

  /** Lower-is-better is higher-is-better with the arguments exchanged. */
  lemma LowerIsSwappedHigher(v1: real, v2: real)
    ensures BetterValue(v1, v2, true) == BetterValue(v2, v1, false)
  {
  }

  /** The value score of one record, as the comparison computes it. */
  function Score(u: University): real
    requires u.ranking > 0 ==> u.tuitionFee > 0.0
  {
    ValueScore(u.ranking, u.tuitionFee)
  }

  /** The verdicts on the four metrics, and the two value scores. */
  datatype Comparison = Comparison(
    ranking: Verdict,
    tuition: Verdict,
    age: Verdict,
    value: Verdict,
    score1: real,
    score2: real)

  /** A ranked record has a positive fee. */
  predicate Scorable(u: University) { u.ranking > 0 ==> u.tuitionFee > 0.0 }

  /** The four verdicts on `u1` (first) and `u2` (second): smaller ranking and
      smaller fee win, the older institution wins, the larger value score
      wins. */
  function Verdicts(u1: University, u2: University, currentYear: int): (c: Comparison)
    requires Scorable(u1) && Scorable(u2)
    ensures c.ranking == First <==> u1.ranking < u2.ranking
    ensures c.ranking == Equal <==> u1.ranking == u2.ranking
    ensures c.tuition == First <==> u1.tuitionFee < u2.tuitionFee
    ensures c.tuition == Equal <==> u1.tuitionFee == u2.tuitionFee
    ensures c.age == First <==> u1.establishedYear < u2.establishedYear
    ensures c.age == Equal <==> u1.establishedYear == u2.establishedYear
    ensures c.score1 == Score(u1) && c.score2 == Score(u2)
    ensures c.value == First <==> c.score1 > c.score2
    ensures c.value == Equal <==> c.score1 == c.score2
  {
    var s1, s2 := Score(u1), Score(u2);
    Comparison(
      BetterValue(u1.ranking as real, u2.ranking as real, true),
      BetterValue(u1.tuitionFee, u2.tuitionFee, true),
      BetterValue((currentYear - u1.establishedYear) as real, (currentYear - u2.establishedYear) as real, false),
      BetterValue(s1, s2, false),
      s1, s2)
  }

  /** The comparison exists only for exactly two universities. */
  function CompareAll(unis: seq<University>, currentYear: int): (c: Option<Comparison>)
    requires |unis| == 2 ==> Scorable(unis[0]) && Scorable(unis[1])
    ensures c.None? <==> |unis| != 2
    ensures c.Some? ==> c.value == Verdicts(unis[0], unis[1], currentYear)
  {
    if |unis| != 2 then None else Some(Verdicts(unis[0], unis[1], currentYear))
  }

  /** Which university a side of the summary stands for. */
  predicate IsSide(side: Verdict) { side != Equal }

  /** The four compared metrics. */
  datatype Metric = Rank | Fee | Value | Age

  /** The metrics in the order the summary lists them. */
  const Metrics: seq<Metric> := [Rank] + [Fee] + [Value] + [Age]

  /** The verdict on one metric. */
  function VerdictOn(c: Comparison, m: Metric): Verdict
  {
    match m
    case Rank => c.ranking
    case Fee => c.tuition
    case Value => c.value
    case Age => c.age
  }

  /** The summary line of an advantage on a metric. */
  function Caption(m: Metric): string
  {
    match m
    case Rank => "Better world ranking"
    case Fee => "More affordable"
    case Value => "Better value for money"
    case Age => "Longer history"
  }

  /** The metrics whose verdict is `side`, each once, in the order ranking,
      tuition, value, age. */
  function Advantages(c: Comparison, side: Verdict): (ms: seq<Metric>)
    requires IsSide(side)
    ensures |ms| <= 4
    ensures forall m :: m in ms <==> VerdictOn(c, m) == side
  {
    (if c.ranking == side then [Rank] else [])
    + (if c.tuition == side then [Fee] else [])
    + (if c.value == side then [Value] else [])
    + (if c.age == side then [Age] else [])
  }

  /** Whether a metric favours `side`. */
  function Favours(c: Comparison, side: Verdict): Metric -> bool
  {
    (m: Metric) => VerdictOn(c, m) == side
  }

  /** The advantages of a side are the metrics, in display order, that favour
      it. */
  lemma AdvantagesInOrder(c: Comparison, side: Verdict)
    requires IsSide(side)
    ensures Advantages(c, side) == Seqs.Keep(Metrics, Favours(c, side))
  {
    var f := Favours(c, side);
    Seqs.KeepFour(Rank, Fee, Value, Age, f);
    assert f(Rank) == (c.ranking == side) && f(Fee) == (c.tuition == side);
    assert f(Value) == (c.value == side) && f(Age) == (c.age == side);
  }

  /** No metric is an advantage of both universities. */
  lemma AdvantagesExclusive(c: Comparison, m: Metric)
    ensures !(m in Advantages(c, First) && m in Advantages(c, Second))
  {
  }

  /** Captions of a list of metrics. */
  function Captions(ms: seq<Metric>): (lines: seq<string>)
    ensures |lines| == |ms|
    ensures forall i :: 0 <= i < |ms| ==> lines[i] == Caption(ms[i])
  {
    if ms == [] then [] else [Caption(ms[0])] + Captions(ms[1..])
  }

  /** The summary list of one side: the captions of its advantages, or the
      single line "No advantages" exactly when no verdict is that side. */
  function Summary(c: Comparison, side: Verdict): (lines: seq<string>)
    requires IsSide(side)
    ensures 1 <= |lines| <= 4
    ensures lines == ["No advantages"]
            <==> c.ranking != side && c.tuition != side && c.value != side && c.age != side
    ensures Advantages(c, side) != [] ==> lines == Captions(Advantages(c, side))
  {
    var ms := Advantages(c, side);
    if ms == [] then ["No advantages"]
    else
      assert Caption(ms[0]) != "No advantages";
      Captions(ms)
  }

  /** Presenting the universities the other way round exchanges every
      verdict and the two scores. */
  lemma VerdictsSwap(u1: University, u2: University, currentYear: int)
    requires Scorable(u1) && Scorable(u2)
    ensures var c, d := Verdicts(u1, u2, currentYear), Verdicts(u2, u1, currentYear);
            d.ranking == Swap(c.ranking) && d.tuition == Swap(c.tuition)
            && d.age == Swap(c.age) && d.value == Swap(c.value)
            && d.score1 == c.score2 && d.score2 == c.score1
  {
    var c := Verdicts(u1, u2, currentYear);
    BetterValueSwap(u1.ranking as real, u2.ranking as real, true);
    BetterValueSwap(u1.tuitionFee, u2.tuitionFee, true);
    BetterValueSwap((currentYear - u1.establishedYear) as real, (currentYear - u2.establishedYear) as real, false);
    BetterValueSwap(c.score1, c.score2, false);
  }

  /** Exchanging the universities exchanges their summary lists. */
  lemma SummarySwap(u1: University, u2: University, currentYear: int)
    requires Scorable(u1) && Scorable(u2)
    ensures Summary(Verdicts(u2, u1, currentYear), First) == Summary(Verdicts(u1, u2, currentYear), Second)
    ensures Summary(Verdicts(u2, u1, currentYear), Second) == Summary(Verdicts(u1, u2, currentYear), First)
  {
    VerdictsSwap(u1, u2, currentYear);
  }

  /** The age verdict depends only on the founding years, not on the year
      the comparison is made. */
  lemma AgeVerdictTimeless(u1: University, u2: University, y1: int, y2: int)
    requires Scorable(u1) && Scorable(u2)
    ensures Verdicts(u1, u2, y1).age == Verdicts(u1, u2, y2).age
  {
  }

  /** A university that ranks better (within the first thousand) at no
      higher fee never loses the value-for-money verdict. */
  lemma DominanceKeepsValue(u1: University, u2: University, currentYear: int)
    requires 0 < u1.ranking <= u2.ranking < 1000
    requires 0.0 < u1.tuitionFee <= u2.tuitionFee
    ensures Verdicts(u1, u2, currentYear).value != Second
  {
    ValueScoreMonotone(u1.ranking, u2.ranking, u1.tuitionFee, u2.tuitionFee);
  }

  /** Which university the cost line names as cheaper. */
  datatype CostStatement = FirstCheaper | SecondCheaper | SameCost

  /** The absolute fee difference shown in the cost line. */
  function CostDifference(u1: University, u2: University): (d: real)
    ensures d >= 0.0
    ensures d == u1.tuitionFee - u2.tuitionFee || d == u2.tuitionFee - u1.tuitionFee
  {
    if u1.tuitionFee >= u2.tuitionFee then u1.tuitionFee - u2.tuitionFee else u2.tuitionFee - u1.tuitionFee
  }

  /** Exactly one statement holds: the first is cheaper, the second is
      cheaper, or the fees are equal. */
  function Cost(u1: University, u2: University): (st: CostStatement)
    ensures st == FirstCheaper <==> u1.tuitionFee < u2.tuitionFee
    ensures st == SecondCheaper <==> u1.tuitionFee > u2.tuitionFee
    ensures st == SameCost <==> u1.tuitionFee == u2.tuitionFee
  {
    if u1.tuitionFee < u2.tuitionFee then FirstCheaper
    else if u1.tuitionFee > u2.tuitionFee then SecondCheaper
    else SameCost
  }

  /** The text of the cost statement, naming the cheaper university. */
  function CostText(u1: University, u2: University): (text: string)
    ensures Cost(u1, u2) == FirstCheaper ==> text == u1.universityName + " is cheaper"
    ensures Cost(u1, u2) == SecondCheaper ==> text == u2.universityName + " is cheaper"
    ensures Cost(u1, u2) == SameCost ==> text == "Same cost"
  {
    match Cost(u1, u2)
    case FirstCheaper => u1.universityName + " is cheaper"
    case SecondCheaper => u2.universityName + " is cheaper"
    case SameCost => "Same cost"
  }

  /** The cost line and the tuition verdict agree; the difference is zero
      exactly when the costs are the same. */
  lemma CostAgreesWithTuition(u1: University, u2: University, currentYear: int)
    requires Scorable(u1) && Scorable(u2)
    ensures var t := Verdicts(u1, u2, currentYear).tuition;
            (Cost(u1, u2) == FirstCheaper <==> t == First)
            && (Cost(u1, u2) == SecondCheaper <==> t == Second)
            && (Cost(u1, u2) == SameCost <==> CostDifference(u1, u2) == 0.0)
  {
  }

  /** A worked pair: an old, top-ranked, expensive university against a
      young, cheaper one ranked 50th, compared in 2024. */
  lemma ScenarioExample()
    ensures var a := University("a", "A", "X", "Y", 50000.0, 10, 1900);
            var b := University("b", "B", "X", "Y", 20000.0, 50, 2000);
            var c := Verdicts(a, b, 2024);
            && c == Comparison(First, Second, First, Second, 19.8, 47.5)
            && Summary(c, First) == ["Better world ranking", "Longer history"]
            && Summary(c, Second) == ["More affordable", "Better value for money"]
            && CostDifference(a, b) == 30000.0
            && CostText(a, b) == "B is cheaper"
  {
    var a := University("a", "A", "X", "Y", 50000.0, 10, 1900);
    var b := University("b", "B", "X", "Y", 20000.0, 50, 2000);
    assert Score(a) == 19.8;
    assert Score(b) == 47.5;
  }
}
