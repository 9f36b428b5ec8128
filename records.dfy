/** The university record shared by the API route and the two client
    components, and the small value types the rest of the model uses. */
module Records {

  datatype Option<+T> = None | Some(value: T)

  /** The result of JavaScript's `parseInt` / `parseFloat`: a number or NaN. */
  datatype Parsed<+T> = NaN | Num(value: T)

  /** One document of the university collection. Fees are JavaScript numbers
      (modelled as reals); ranking and founding year are whole numbers. */
  datatype University = University(
    id: string,
    universityName: string,
    country: string,
    location: string,
    tuitionFee: real,
    ranking: int,
    establishedYear: int)

  /** The value score "ranking per thousand of tuition": zero for an unranked
      record (ranking <= 0), otherwise (1000 - ranking) / (tuition / 1000).
      A ranked record needs a positive fee (a zero fee makes the source divide
      by zero). */
  function ValueScore(ranking: int, tuition: real): (score: real)
    requires ranking > 0 ==> tuition > 0.0
    ensures ranking <= 0 ==> score == 0.0
    ensures ranking > 0 ==> score * tuition == (1000 - ranking) as real * 1000.0
    ensures ranking > 0 ==> (score > 0.0 <==> ranking < 1000)
  {
    if ranking > 0 then (1000 - ranking) as real / (tuition / 1000.0) else 0.0
  }

  /** The two worked values of the value score: an unranked record scores 0,
      and ranking 500 at a fee of 10000 scores 50. */
  lemma ValueScoreExamples(tuition: real)
    ensures ValueScore(0, tuition) == 0.0
    ensures ValueScore(500, 10000.0) == 50.0
  {
  }

  /** A better (smaller, positive) ranking at the same or lower fee never
      scores lower. */
  lemma ValueScoreMonotone(r1: int, r2: int, t1: real, t2: real)
    requires 0 < r1 <= r2 < 1000
    requires 0.0 < t1 <= t2
    ensures ValueScore(r1, t1) >= ValueScore(r2, t2)
  {
    var s1, s2 := ValueScore(r1, t1), ValueScore(r2, t2);
    assert s1 * t1 == (1000 - r1) as real * 1000.0;
    assert s2 * t2 == (1000 - r2) as real * 1000.0;
    assert s2 * t1 <= s2 * t2 by {
      assert s2 > 0.0;
    }
    assert s2 * t1 <= s1 * t1 by {
      calc {
        s2 * t1;
      <= s2 * t2;
      == (1000 - r2) as real * 1000.0;
      <= (1000 - r1) as real * 1000.0;
      == s1 * t1;
      }
    }
  }
}
