/** Model of the rule-based weather classifier behind the weather-prediction
    endpoint: four readings are scored against four groups of threshold rules,
    the best-scoring category wins (first in declaration order on a tie) and
    the confidence is the winning score capped at 1.

    Rule weights are kept as integer tenths (0.3 is 3, 0.2 is 2), so every
    score is an exact `nat` and a confidence of 1.0 is a score of 10. */
module WeatherPrediction {

  // ---------------------------------------------------------------------
  // Data model
  // ---------------------------------------------------------------------

  /** The four readings the scorer receives (the `WeatherRules` record). */
  datatype Observation = Observation(temperature: real, humidity: real, pressure: real, windSpeed: real)

  /** The keys of the score record. */
  datatype Category = Sunny | Rainy | Cloudy | PartlyCloudy

  /** The order in which the score record's entries are enumerated: the
      order in which its keys were written. */
  const Order: seq<Category> := [Sunny, Rainy, Cloudy, PartlyCloudy]

  /** The key under which a category is stored, and the string reported as
      the prediction: always one of the four category names. */
  function Label(c: Category): (s: string)
    ensures s in {"Sunny", "Rainy", "Cloudy", "Partly Cloudy"}
  {
    match c
    case Sunny => "Sunny"
    case Rainy => "Rainy"
    case Cloudy => "Cloudy"
    case PartlyCloudy => "Partly Cloudy"
  }

  /** Distinct categories are reported under distinct names, so the reported
      string determines the category. */
  lemma LabelsDistinct(c: Category, d: Category)
    ensures Label(c) == Label(d) <==> c == d
  {
    if Label(c) == Label(d) {
      assert Label(c)[0] == Label(d)[0] && |Label(c)| == |Label(d)|;
    }
  }

  /** Position of a category in the enumeration order. */
  function Rank(c: Category): (k: nat)
    ensures k < |Order| && Order[k] == c
  {
    match c
    case Sunny => 0
    case Rainy => 1
    case Cloudy => 2
    case PartlyCloudy => 3
  }

  /** What the scorer returns: the winning category and the confidence. */
  datatype PredictionResponse = PredictionResponse(prediction: Category, confidence: real)

  // ---------------------------------------------------------------------
  // The rule table
  // ---------------------------------------------------------------------

  datatype Reading = Temperature | Humidity | Pressure | WindSpeed

  function ValueOf(o: Observation, r: Reading): real
  {
    match r
    case Temperature => o.temperature
    case Humidity => o.humidity
    case Pressure => o.pressure
    case WindSpeed => o.windSpeed
  }

  /** A threshold test: strictly above, strictly below, or strictly between. */
  datatype Test =
    | Above(reading: Reading, bound: real)
    | Below(reading: Reading, bound: real)
    | Between(reading: Reading, low: real, high: real)

  predicate Holds(t: Test, o: Observation)
  {
    var x := ValueOf(o, t.reading);
    match t
    case Above(_, b) => x > b
    case Below(_, b) => x < b
    case Between(_, lo, hi) => lo < x && x < hi
  }

  /** A rule adds `weight` tenths to its category when its test holds. */
  datatype Rule = Rule(test: Test, weight: nat)

  /** The rule group of each category, in the order `calculateWeatherScore` lists them. */
  function Rules(c: Category): seq<Rule>
  {
    match c
    case Sunny => [
      Rule(Above(Temperature, 25.0), 3),
      Rule(Below(Humidity, 60.0), 2),
      Rule(Above(Pressure, 1015.0), 2),
      Rule(Below(WindSpeed, 15.0), 3)]
    case Rainy => [
      Rule(Above(Humidity, 70.0), 3),
      Rule(Below(Pressure, 1010.0), 3),
      Rule(Below(Temperature, 20.0), 2),
      Rule(Above(WindSpeed, 20.0), 2)]
    case Cloudy => [
      Rule(Between(Humidity, 60.0, 80.0), 3),
      Rule(Between(Pressure, 1005.0, 1015.0), 3),
      Rule(Between(Temperature, 15.0, 25.0), 2),
      Rule(Between(WindSpeed, 10.0, 25.0), 2)]
    case PartlyCloudy => [
      Rule(Between(Humidity, 50.0, 70.0), 3),
      Rule(Between(Pressure, 1010.0, 1020.0), 3),
      Rule(Between(Temperature, 20.0, 30.0), 2),
      Rule(Between(WindSpeed, 5.0, 20.0), 2)]
  }

  function Gain(r: Rule, o: Observation): nat
  {
    if Holds(r.test, o) then r.weight else 0
  }

  /** Sum of the weights of the rules that fire. */
  function Total(rules: seq<Rule>, o: Observation): nat
  {
    if rules == [] then 0 else Gain(rules[0], o) + Total(rules[1..], o)
  }

  /** Sum of all the weights, fired or not. */
  function WeightSum(rules: seq<Rule>): nat
  {
    if rules == [] then 0 else rules[0].weight + WeightSum(rules[1..])
  }

  /** The score, in tenths, that an observation earns for a category. */
  function Score(o: Observation, c: Category): nat
  {
    Total(Rules(c), o)
  }

  /** A group of four rules scores the sum of its four gains. */
  lemma TotalOfFour(rules: seq<Rule>, o: Observation)
    requires |rules| == 4
    ensures Total(rules, o) == Gain(rules[0], o) + Gain(rules[1], o) + Gain(rules[2], o) + Gain(rules[3], o)
    ensures WeightSum(rules) == rules[0].weight + rules[1].weight + rules[2].weight + rules[3].weight
  {
    var r1 := rules[1..];
    var r2 := r1[1..];
    var r3 := r2[1..];
    assert r3[1..] == [];
    assert r1[0] == rules[1] && r2[0] == rules[2] && r3[0] == rules[3];
    assert Total(r3, o) == Gain(rules[3], o) && WeightSum(r3) == rules[3].weight;
    assert Total(r2, o) == Gain(rules[2], o) + Total(r3, o) && WeightSum(r2) == rules[2].weight + WeightSum(r3);
    assert Total(r1, o) == Gain(rules[1], o) + Total(r2, o) && WeightSum(r1) == rules[1].weight + WeightSum(r2);
  }

  /** The rule groups written out: each score is the sum of the weights of
      the threshold tests the readings pass. */
  lemma SunnyRules(o: Observation)
    ensures Score(o, Sunny) ==
      (if o.temperature > 25.0 then 3 else 0) + (if o.humidity < 60.0 then 2 else 0) +
      (if o.pressure > 1015.0 then 2 else 0) + (if o.windSpeed < 15.0 then 3 else 0)
  {
    TotalOfFour(Rules(Sunny), o);
  }

  lemma RainyRules(o: Observation)
    ensures Score(o, Rainy) ==
      (if o.humidity > 70.0 then 3 else 0) + (if o.pressure < 1010.0 then 3 else 0) +
      (if o.temperature < 20.0 then 2 else 0) + (if o.windSpeed > 20.0 then 2 else 0)
  {
    TotalOfFour(Rules(Rainy), o);
  }

  lemma CloudyRules(o: Observation)
    ensures Score(o, Cloudy) ==
      (if 60.0 < o.humidity < 80.0 then 3 else 0) + (if 1005.0 < o.pressure < 1015.0 then 3 else 0) +
      (if 15.0 < o.temperature < 25.0 then 2 else 0) + (if 10.0 < o.windSpeed < 25.0 then 2 else 0)
  {
    TotalOfFour(Rules(Cloudy), o);
  }

  lemma PartlyCloudyRules(o: Observation)
    ensures Score(o, PartlyCloudy) ==
      (if 50.0 < o.humidity < 70.0 then 3 else 0) + (if 1010.0 < o.pressure < 1020.0 then 3 else 0) +
      (if 20.0 < o.temperature < 30.0 then 2 else 0) + (if 5.0 < o.windSpeed < 20.0 then 2 else 0)
  {
    TotalOfFour(Rules(PartlyCloudy), o);
  }

  /** Every rule group has four rules of positive weight, summing to one
      whole (ten tenths). */
  lemma RuleGroupShape(c: Category)
    ensures |Rules(c)| == 4 && WeightSum(Rules(c)) == 10
    ensures forall i :: 0 <= i < |Rules(c)| ==> Rules(c)[i].weight > 0
  {
    TotalOfFour(Rules(c), Observation(0.0, 0.0, 0.0, 0.0));
  }

  lemma {:induction false} TotalAtMostWeightSum(rules: seq<Rule>, o: Observation)
    ensures Total(rules, o) <= WeightSum(rules)
  {
    if rules != [] {
      TotalAtMostWeightSum(rules[1..], o);
    }
  }

  /** With positive weights, nothing is scored exactly when no rule fires. */
  lemma {:induction false} TotalZeroIff(rules: seq<Rule>, o: Observation)
    requires forall i :: 0 <= i < |rules| ==> rules[i].weight > 0
    ensures Total(rules, o) == 0 <==> forall i :: 0 <= i < |rules| ==> !Holds(rules[i].test, o)
  {
    if rules != [] {
      var rest := rules[1..];
      assert forall i :: 0 <= i < |rest| ==> rest[i] == rules[i + 1];
      TotalZeroIff(rest, o);
    }
  }

  /** With positive weights, the full weight is scored exactly when every
      rule fires. */
  lemma {:induction false} TotalFullIff(rules: seq<Rule>, o: Observation)
    requires forall i :: 0 <= i < |rules| ==> rules[i].weight > 0
    ensures Total(rules, o) == WeightSum(rules) <==> forall i :: 0 <= i < |rules| ==> Holds(rules[i].test, o)
  {
    if rules != [] {
      var rest := rules[1..];
      assert forall i :: 0 <= i < |rest| ==> rest[i] == rules[i + 1];
      TotalFullIff(rest, o);
      TotalAtMostWeightSum(rest, o);
    }
  }

  /** Each score is a sum of some of its group's weights, so it lies between
      0 and 10 tenths (0 and 1.0). */
  lemma ScoreBounds(o: Observation, c: Category)
    ensures 0 <= Score(o, c) <= 10
  {
    RuleGroupShape(c);
    TotalAtMostWeightSum(Rules(c), o);
  }

  /** A category scores 0 exactly when none of its rules fires. */
  lemma ScoreZeroIffNoRuleFires(o: Observation, c: Category)
    ensures Score(o, c) == 0 <==> forall i :: 0 <= i < |Rules(c)| ==> !Holds(Rules(c)[i].test, o)
  {
    RuleGroupShape(c);
    TotalZeroIff(Rules(c), o);
  }

  /** A category scores 1.0 exactly when all four of its rules fire. */
  lemma ScoreFullIffAllRulesFire(o: Observation, c: Category)
    ensures Score(o, c) == 10 <==> forall i :: 0 <= i < |Rules(c)| ==> Holds(Rules(c)[i].test, o)
  {
    RuleGroupShape(c);
    TotalFullIff(Rules(c), o);
  }

  // ---------------------------------------------------------------------
  // Winner selection and confidence, as a specification
  // ---------------------------------------------------------------------

  /** The score board, in enumeration order. */
  function Scores(o: Observation): seq<nat>
  {
    [Score(o, Sunny), Score(o, Rainy), Score(o, Cloudy), Score(o, PartlyCloudy)]
  }

  /** The largest element, 0 for the empty sequence. */
  function MaxOf(s: seq<nat>): (m: nat)
    ensures forall i :: 0 <= i < |s| ==> s[i] <= m
    ensures s != [] ==> m in s
    ensures s == [] ==> m == 0
  {
    if s == [] then 0
    else
      var rest := MaxOf(s[..|s| - 1]);
      if s[|s| - 1] > rest then s[|s| - 1] else rest
  }

  /** The first position holding `v`. */
  function FirstIndexOf(s: seq<nat>, v: nat): (k: nat)
    requires v in s
    ensures k < |s| && s[k] == v
    ensures forall j :: 0 <= j < k ==> s[j] != v
  {
    if s[0] == v then 0 else 1 + FirstIndexOf(s[1..], v)
  }

  /** The highest score over all categories. */
  function MaxScore(o: Observation): nat
  {
    MaxOf(Scores(o))
  }

  function Min(a: real, b: real): real
  {
    if a <= b then a else b
  }

  /** The confidence reported for a maximum score of `maxScore` tenths. */
  function Confidence(maxScore: nat): real
  {
    Min(maxScore as real / 10.0, 1.0)
  }

  /** The intended result: the first category in enumeration order among
      those with the highest score, with that score, capped at 1, as the
      confidence. */
  function Classify(o: Observation): PredictionResponse
  {
    var s := Scores(o);
    var m := MaxOf(s);
    PredictionResponse(Order[FirstIndexOf(s, m)], Confidence(m))
  }

  /** `c` beats every category and strictly beats each one listed before it. */
  predicate IsFirstMaximum(o: Observation, c: Category)
  {
    (forall d :: Score(o, d) <= Score(o, c)) &&
    (forall d :: Rank(d) < Rank(c) ==> Score(o, d) < Score(o, c))
  }

  /** The prediction is a category of highest score and ties go to the
      category listed first; and it is the only category with both
      properties. */
  lemma ClassifyIsFirstMaximum(o: Observation, c: Category)
    ensures Classify(o).prediction == c <==> IsFirstMaximum(o, c)
  {
    var s := Scores(o);
    var m := MaxOf(s);
    var k := FirstIndexOf(s, m);
    var w := Order[k];
    assert Rank(w) == k;
    assert forall d :: s[Rank(d)] == Score(o, d);
    assert IsFirstMaximum(o, w) by {
      forall d ensures Score(o, d) <= Score(o, w) {
        assert s[Rank(d)] <= m;
      }
      forall d | Rank(d) < Rank(w) ensures Score(o, d) < Score(o, w) {
        assert s[Rank(d)] != m && s[Rank(d)] <= m;
      }
    }
    if IsFirstMaximum(o, c) {
      assert Score(o, c) == Score(o, w);
    }
  }

  /** The reported maximum is the winner's score. */
  lemma MaxScoreIsWinnerScore(o: Observation)
    ensures MaxScore(o) == Score(o, Classify(o).prediction)
    ensures forall c :: Score(o, c) <= MaxScore(o)
  {
    var s := Scores(o);
    assert forall c :: s[Rank(c)] == Score(o, c);
    var k := FirstIndexOf(s, MaxOf(s));
    assert Rank(Order[k]) == k;
  }

  /** The confidence lies in [0, 1]; since no score exceeds 1.0 the cap
      never bites and the confidence is the maximum score itself. */
  lemma ConfidenceIsMaxScore(o: Observation)
    ensures Classify(o).confidence == MaxScore(o) as real / 10.0
    ensures 0.0 <= Classify(o).confidence <= 1.0
  {
    var s := Scores(o);
    var k := FirstIndexOf(s, MaxOf(s));
    ScoreBounds(o, Order[k]);
    MaxScoreIsWinnerScore(o);
  }

  /** No rule of any group fires. */
  predicate NoRuleFires(o: Observation)
  {
    forall c: Category, i :: 0 <= i < |Rules(c)| ==> !Holds(Rules(c)[i].test, o)
  }

  /** When no rule fires the result is the pre-seeded default, Sunny with
      confidence 0, and that result comes only from an observation on which
      no rule fires. */
  lemma DefaultWhenNoRuleFires(o: Observation)
    ensures NoRuleFires(o) <==> Classify(o) == PredictionResponse(Sunny, 0.0)
  {
    var s := Scores(o);
    assert forall c :: s[Rank(c)] == Score(o, c);
    forall c { ScoreZeroIffNoRuleFires(o, c); }
    ConfidenceIsMaxScore(o);
    if NoRuleFires(o) {
      assert forall c :: Score(o, c) == 0;
      assert s[0] == 0;
      assert FirstIndexOf(s, MaxOf(s)) == 0;
    }
    if Classify(o) == PredictionResponse(Sunny, 0.0) {
      assert MaxScore(o) == 0;
      forall c ensures Score(o, c) == 0 {
        assert s[Rank(c)] <= MaxOf(s);
      }
    }
  }

  // ---------------------------------------------------------------------
  // The scorer, as `calculateWeatherScore` runs it
  // ---------------------------------------------------------------------

  /** The score record the scorer fills in, one field per category, in tenths. */
  datatype ScoreBoard = ScoreBoard(sunny: nat, rainy: nat, cloudy: nat, partlyCloudy: nat)

  /** The record's (key, value) pairs in key order. */
  function Entries(b: ScoreBoard): seq<(Category, nat)>
  {
    [(Sunny, b.sunny), (Rainy, b.rainy), (Cloudy, b.cloudy), (PartlyCloudy, b.partlyCloudy)]
  }

  /** The first phase of the scorer: sixteen guarded additions to a record
      of four counters that start at zero. Each counter ends up as its
      category's score under the rule table. */
  method AccumulateScores(data: Observation) returns (scores: ScoreBoard)
    ensures scores == ScoreBoard(Score(data, Sunny), Score(data, Rainy), Score(data, Cloudy), Score(data, PartlyCloudy))
  {
    var sunny, rainy, cloudy, partlyCloudy: nat := 0, 0, 0, 0;

    if data.temperature > 25.0 { sunny := sunny + 3; }
    if data.humidity < 60.0 { sunny := sunny + 2; }
    if data.pressure > 1015.0 { sunny := sunny + 2; }
    if data.windSpeed < 15.0 { sunny := sunny + 3; }
    assert sunny == Score(data, Sunny) by { SunnyRules(data); }

    if data.humidity > 70.0 { rainy := rainy + 3; }
    if data.pressure < 1010.0 { rainy := rainy + 3; }
    if data.temperature < 20.0 { rainy := rainy + 2; }
    if data.windSpeed > 20.0 { rainy := rainy + 2; }
    assert rainy == Score(data, Rainy) by { RainyRules(data); }

    if data.humidity > 60.0 && data.humidity < 80.0 { cloudy := cloudy + 3; }
    if data.pressure < 1015.0 && data.pressure > 1005.0 { cloudy := cloudy + 3; }
    if data.temperature > 15.0 && data.temperature < 25.0 { cloudy := cloudy + 2; }
    if data.windSpeed > 10.0 && data.windSpeed < 25.0 { cloudy := cloudy + 2; }
    assert cloudy == Score(data, Cloudy) by { CloudyRules(data); }

    if data.humidity > 50.0 && data.humidity < 70.0 { partlyCloudy := partlyCloudy + 3; }
    if data.pressure > 1010.0 && data.pressure < 1020.0 { partlyCloudy := partlyCloudy + 3; }
    if data.temperature > 20.0 && data.temperature < 30.0 { partlyCloudy := partlyCloudy + 2; }
    if data.windSpeed > 5.0 && data.windSpeed < 20.0 { partlyCloudy := partlyCloudy + 2; }
    assert partlyCloudy == Score(data, PartlyCloudy) by { PartlyCloudyRules(data); }
    scores := ScoreBoard(sunny, rainy, cloudy, partlyCloudy);
  }

  /** The scorer: fill in the score record, then one pass over its entries
      in order, keeping the first score strictly larger than the best so far
      (which starts at 0, with Sunny as the default prediction). */
  method CalculateWeatherScore(data: Observation) returns (result: PredictionResponse)
    ensures result == Classify(data)
  {
    var scores := AccumulateScores(data);
    var entries := Entries(scores);
    ghost var s := Scores(data);
    assert forall j :: 0 <= j < |entries| ==> entries[j].0 == Order[j] && entries[j].1 == s[j];

    var maxScore: nat := 0;
    var prediction := Sunny;
    ghost var k := 0;
    for i := 0 to |entries|
      invariant k < |Order| && prediction == Order[k]
      invariant forall j :: 0 <= j < i ==> s[j] <= maxScore
      invariant forall j :: 0 <= j < k ==> s[j] < maxScore
      invariant (k < i && s[k] == maxScore) || (k == 0 && maxScore == 0)
    {
      var (weather, score) := entries[i];
      if score > maxScore {
        maxScore := score;
        prediction := weather;
        k := i;
      }
    }

    assert maxScore == MaxOf(s) by {
      assert s[k] == maxScore;
    }
    assert k == FirstIndexOf(s, maxScore);
    var confidence := Min(maxScore as real / 10.0, 1.0);
    result := PredictionResponse(prediction, confidence);
  }

  // ---------------------------------------------------------------------
  // The request guard
  // ---------------------------------------------------------------------

  /** What a field of the parsed request body may hold. */
  datatype Field = Missing | NotANumber | Number(value: real)

  /** The parsed request body (the `WeatherData` type). */
  datatype WeatherData = WeatherData(temperature: Field, humidity: Field, windSpeed: Field, pressure: Field)

  /** A field passes a truthiness test unless it is missing, NaN or 0. */
  predicate Truthy(f: Field)
  {
    f.Number? && f.value != 0.0
  }

  datatype Option<T> = None | Some(value: T)

  /** The guard: the observation handed to the scorer, or nothing when any
      field is falsy. */
  function RequiredReadings(d: WeatherData): (r: Option<Observation>)
    ensures r.Some? <==> Truthy(d.temperature) && Truthy(d.humidity) && Truthy(d.pressure) && Truthy(d.windSpeed)
    ensures r.Some? ==> (r.value.temperature == d.temperature.value && r.value.humidity == d.humidity.value &&
                         r.value.pressure == d.pressure.value && r.value.windSpeed == d.windSpeed.value)
  {
    if !Truthy(d.temperature) || !Truthy(d.humidity) || !Truthy(d.pressure) || !Truthy(d.windSpeed) then None
    else Some(Observation(d.temperature.value, d.humidity.value, d.pressure.value, d.windSpeed.value))
  }

  const MissingParametersMessage: string := "Missing required weather parameters"

  /** The outcome of a request: the reported prediction name and confidence,
      or a rejection with a message. */
  datatype Response = Predicted(prediction: string, confidence: real) | BadRequest(error: string)

  /** The request handler, from the parsed body on: reject when any reading
      is falsy, otherwise run the scorer on the four readings unchanged. */
  method Post(d: WeatherData) returns (r: Response)
    ensures r.BadRequest? <==> RequiredReadings(d).None?
    ensures r.BadRequest? ==> r.error == MissingParametersMessage
    ensures r.Predicted? ==> var result := Classify(RequiredReadings(d).value);
      r.prediction == Label(result.prediction) && r.confidence == result.confidence
  {
    if !Truthy(d.temperature) || !Truthy(d.humidity) || !Truthy(d.pressure) || !Truthy(d.windSpeed) {
      return BadRequest(MissingParametersMessage);
    }
    var result := CalculateWeatherScore(Observation(d.temperature.value, d.humidity.value, d.pressure.value, d.windSpeed.value));
    r := Predicted(Label(result.prediction), result.confidence);
  }

  /** A reading of exactly 0 is treated like a missing one. */
  lemma ZeroReadingIsRejected(d: WeatherData)
    requires Number(0.0) in {d.temperature, d.humidity, d.pressure, d.windSpeed}
    ensures RequiredReadings(d) == None
  {
  }

  // ---------------------------------------------------------------------
  // Worked examples
  // ---------------------------------------------------------------------

  /** A clear, dry, high-pressure, calm day: every Sunny rule fires and no
      other rule does. */
  lemma SunnyExample()
    ensures var o := Observation(30.0, 40.0, 1020.0, 5.0);
      Score(o, Sunny) == 10 && Score(o, Rainy) == 0 && Score(o, Cloudy) == 0 && Score(o, PartlyCloudy) == 0 &&
      Classify(o) == PredictionResponse(Sunny, 1.0)
  {
    var o := Observation(30.0, 40.0, 1020.0, 5.0);
    SunnyRules(o); RainyRules(o); CloudyRules(o); PartlyCloudyRules(o);
    var s: seq<nat> := [10, 0, 0, 0];
    assert Scores(o) == s;
    assert MaxOf(s) == 10 by { assert s[0] == 10; }
    assert FirstIndexOf(s, 10) == 0;
  }

  /** A cool, humid, low-pressure, windy day: every Rainy rule fires. */
  lemma RainyExample()
    ensures Classify(Observation(15.0, 85.0, 1000.0, 30.0)) == PredictionResponse(Rainy, 1.0)
  {
    var o := Observation(15.0, 85.0, 1000.0, 30.0);
    SunnyRules(o); RainyRules(o); CloudyRules(o); PartlyCloudyRules(o);
    var s: seq<nat> := [0, 10, 0, 0];
    assert Scores(o) == s;
    assert MaxOf(s) == 10 by { assert s[1] == 10; }
    assert FirstIndexOf(s, 10) == 1;
  }

  /** Sunny and Rainy both score 0.5: Sunny, listed first, wins. */
  lemma SunnyRainyTieExample()
    ensures var o := Observation(30.0, 50.0, 1000.0, 25.0);
      Score(o, Sunny) == 5 && Score(o, Rainy) == 5 && Classify(o) == PredictionResponse(Sunny, 0.5)
  {
    var o := Observation(30.0, 50.0, 1000.0, 25.0);
    SunnyRules(o); RainyRules(o); CloudyRules(o); PartlyCloudyRules(o);
    var s: seq<nat> := [5, 5, 0, 0];
    assert Scores(o) == s;
    assert MaxOf(s) == 5 by { assert s[0] == 5; }
    assert FirstIndexOf(s, 5) == 0;
  }

  /** Overlapping ranges: Cloudy and Partly Cloudy both score 1.0, and Cloudy,
      listed first, wins. */
  lemma OverlapExample()
    ensures var o := Observation(22.0, 65.0, 1012.0, 15.0);
      Score(o, Cloudy) == 10 && Score(o, PartlyCloudy) == 10 && Classify(o) == PredictionResponse(Cloudy, 1.0)
  {
    var o := Observation(22.0, 65.0, 1012.0, 15.0);
    SunnyRules(o); RainyRules(o); CloudyRules(o); PartlyCloudyRules(o);
    var s: seq<nat> := [0, 0, 10, 10];
    assert Scores(o) == s;
    assert MaxOf(s) == 10 by { assert s[2] == 10; }
    assert FirstIndexOf(s, 10) == 2;
  }

  /** Readings of 0, 0, 0 and wind 1000 still fire the low-humidity Sunny rule
      and three Rainy rules, so the scorer answers Rainy with 0.7; the
      request guard rejects these readings before the scorer is reached. */
  lemma ZeroReadingsExample()
    ensures var o := Observation(0.0, 0.0, 0.0, 1000.0);
      Score(o, Sunny) == 2 && Score(o, Rainy) == 7 && Classify(o) == PredictionResponse(Rainy, 0.7)
    ensures RequiredReadings(WeatherData(Number(0.0), Number(0.0), Number(1000.0), Number(0.0))) == None
  {
    var o := Observation(0.0, 0.0, 0.0, 1000.0);
    SunnyRules(o); RainyRules(o); CloudyRules(o); PartlyCloudyRules(o);
    var s: seq<nat> := [2, 7, 0, 0];
    assert Scores(o) == s;
    assert MaxOf(s) == 7 by { assert s[1] == 7; }
    assert FirstIndexOf(s, 7) == 1;
  }
}
