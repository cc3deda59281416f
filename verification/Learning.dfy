/** The learning engine: condition matching, learned patterns and the nearest-neighbour prediction. */
module Learning {
  import opened Common

  datatype Config = Config(fetch: int, push: int, batch: int, backPressure: bool, throttleDelay: int, maxQueue: int)

  datatype Telemetry = Telemetry(
    nodeID: string, cpu: real, memory: real, latency: real, queueDepth: int, connections: int)

  datatype Range = Range(min: real, max: real)

  /** Time of day and day of the week, read off the clock. */
  datatype Slot = Slot(timeOfDay: string, dayOfWeek: string)

  datatype Conditions = Conditions(
    cpu: Range, memory: Range, latency: Range, connections: Range, slot: Slot, volume: string)

  datatype Outcome = Success | Failure | Partial

  datatype LearningEvent = LearningEvent(conditions: Conditions, configuration: Config, score: real, outcome: Outcome)

  datatype Pattern = Pattern(
    conditions: Conditions, configuration: Config, effectiveness: real, usageCount: nat, confidence: real)

  datatype Features = Features(cpu: real, memory: real, latency: real, connections: real)

  datatype Example = Example(features: Features, config: Config, score: real)

  const MATCH_THRESHOLD := 0.8

  const MAX_PATTERNS := 20

  const NEIGHBOURS := 5

  /** The limits every configuration is meant to stay within. */
  predicate InBounds(c: Config) {
    1 <= c.fetch <= 16 && 1 <= c.push <= 8 && 10 <= c.batch <= 1000 && 0 <= c.maxQueue <= 1000
  }

  /** A list that keeps its newest `cap` entries, with one more entry. */
  function Capped<T>(s: seq<T>, x: T, cap: nat): (r: seq<T>)
    ensures |s| <= cap ==> |r| <= cap
    ensures cap > 0 ==> r != [] && r[|r| - 1] == x
  {
    if |s| + 1 > cap then (s + [x])[1..] else s + [x]
  }

  // ---------- matching conditions ----------

  function ExtractConditions(t: Telemetry, slot: Slot): Conditions {
    Conditions(
      Range(t.cpu - 5.0, t.cpu + 5.0), Range(t.memory - 5.0, t.memory + 5.0), Range(t.latency - 100.0, t.latency + 100.0),
      Range((t.connections - 2) as real, (t.connections + 2) as real), slot,
      if t.connections < 5 then "low" else if t.connections > 20 then "high" else "medium")
  }

  /** The overlap as a fraction of the smaller range. */
  function RangeOverlap(r1: Range, r2: Range): (r: real)
    ensures 0.0 <= r <= 1.0
  {
    var start := if r1.min > r2.min then r1.min else r2.min;
    var end := if r1.max < r2.max then r1.max else r2.max;
    if start >= end then 0.0
    else
      var size1, size2 := r1.max - r1.min, r2.max - r2.min;
      Fraction(end - start, if size1 < size2 then size1 else size2)
  }

  function Fraction(part: real, whole: real): (r: real)
    requires 0.0 < part <= whole
    ensures 0.0 < r <= 1.0 && (part == whole ==> r == 1.0)
  {
    part / whole
  }

  function MatchScore(c1: Conditions, c2: Conditions): (r: real)
    ensures 0.0 <= r <= 1.0
  {
    RangeOverlap(c1.cpu, c2.cpu) * 0.3 + RangeOverlap(c1.memory, c2.memory) * 0.25
    + RangeOverlap(c1.latency, c2.latency) * 0.2
    + (if c1.slot.timeOfDay == c2.slot.timeOfDay || c1.slot.timeOfDay == "any" || c2.slot.timeOfDay == "any" then 0.1 else 0.0)
    + (if c1.slot.dayOfWeek == c2.slot.dayOfWeek || c1.slot.dayOfWeek == "any" || c2.slot.dayOfWeek == "any" then 0.05 else 0.0)
    + (if c1.volume == c2.volume then 0.1 else 0.0)
  }

  /** Conditions read off a telemetry record match themselves fully. */
  lemma SelfMatch(t: Telemetry, slot: Slot)
    ensures var c := ExtractConditions(t, slot); MatchScore(c, c) == 1.0
  {
  }

  // ---------- learned patterns ----------

  /** The first pattern whose conditions match, if any. */
  function FirstMatch(patterns: seq<Pattern>, c: Conditions): (i: Option<nat>)
    ensures i.Some? ==> i.value < |patterns| && MatchScore(patterns[i.value].conditions, c) >= MATCH_THRESHOLD
    ensures i.None? ==> forall k :: 0 <= k < |patterns| ==> MatchScore(patterns[k].conditions, c) < MATCH_THRESHOLD
  {
    if patterns == [] then None
    else
      var n := |patterns| - 1;
      match FirstMatch(patterns[..n], c)
      case Some(i) => Some(i)
      case None => if MatchScore(patterns[n].conditions, c) >= MATCH_THRESHOLD then Some(n) else None
  }

  /** An event reinforces the first matching pattern, whose configuration stays, or adds a pattern. */
  function Reinforced(patterns: seq<Pattern>, event: LearningEvent): seq<Pattern> {
    match FirstMatch(patterns, event.conditions)
    case Some(i) =>
      var p := patterns[i];
      patterns[i := p.(
        usageCount := p.usageCount + 1,
        effectiveness := p.effectiveness * 0.7 + event.score * 0.3,
        confidence := if p.confidence + 0.1 < 1.0 then p.confidence + 0.1 else 1.0)]
    case None =>
      patterns + [Pattern(event.conditions, event.configuration, event.score, 1, 0.5)]
  }

  /** Sorting by this puts the most effective patterns first. */
  function Ineffectiveness(p: Pattern): real {
    -p.effectiveness
  }

  predicate Worthwhile(event: LearningEvent) {
    event.outcome.Success? && event.score > 0.7
  }

  /** The patterns after an event; `ranked` is how sorting orders them when there are too many. */
  function PatternsAfter(patterns: seq<Pattern>, event: LearningEvent, ranked: seq<Pattern>): seq<Pattern> {
    if !Worthwhile(event) then patterns
    else if FirstMatch(patterns, event.conditions).None? && |patterns| >= MAX_PATTERNS && |ranked| >= MAX_PATTERNS then
      ranked[..MAX_PATTERNS]
    else Reinforced(patterns, event)
  }

  /** The best of the patterns that match with more than 0.7, and its score. */
  function BestMatch(patterns: seq<Pattern>, c: Conditions): (Option<Config>, real) {
    if patterns == [] then (None, 0.0)
    else
      var n := |patterns| - 1;
      var (config, best) := BestMatch(patterns[..n], c);
      var score := MatchScore(patterns[n].conditions, c);
      if score > 0.7 && score > best then (Some(patterns[n].configuration), score) else (config, best)
  }

  /** No pattern scores more than the one at `i`, and no earlier one as much. */
  predicate FirstBest(patterns: seq<Pattern>, c: Conditions, i: nat) {
    && i < |patterns|
    && (forall j :: 0 <= j < |patterns| ==> MatchScore(patterns[j].conditions, c) <= MatchScore(patterns[i].conditions, c))
    && forall j :: 0 <= j < i ==> MatchScore(patterns[j].conditions, c) < MatchScore(patterns[i].conditions, c)
  }

  /** The result is the first pattern of maximal score, and there is none exactly if no score exceeds 0.7. */
  lemma {:induction false} BestMatchMeaning(patterns: seq<Pattern>, c: Conditions)
    ensures var (config, best) := BestMatch(patterns, c);
            && (config.None? <==> forall i :: 0 <= i < |patterns| ==> MatchScore(patterns[i].conditions, c) <= 0.7)
            && (config.None? ==> best == 0.0)
            && (config.Some? ==>
                  best > 0.7 && exists i: nat :: i < |patterns| && FirstBest(patterns, c, i)
                                                 && patterns[i].configuration == config.value
                                                 && MatchScore(patterns[i].conditions, c) == best)
  {
    hide MatchScore, FirstBest;
    if patterns != [] {
      var n := |patterns| - 1;
      BestMatchMeaning(patterns[..n], c);
      var (config, best) := BestMatch(patterns[..n], c);
      var score := MatchScore(patterns[n].conditions, c);
      if config.Some? {
        var i: nat :| i < n && FirstBest(patterns[..n], c, i) && patterns[..n][i].configuration == config.value
                      && MatchScore(patterns[..n][i].conditions, c) == best;
        OneMoreScore(patterns, c, i);
      } else if score > 0.7 {
        NewBest(patterns, c, 0.7);
      }
    }
  }

  lemma OneMoreScore(patterns: seq<Pattern>, c: Conditions, i: nat)
    requires patterns != [] && FirstBest(patterns[..|patterns| - 1], c, i)
    ensures var n := |patterns| - 1;
            && i < n && patterns[..n][i] == patterns[i]
            && FirstBest(patterns, c,
                 if MatchScore(patterns[n].conditions, c) > MatchScore(patterns[i].conditions, c) then n else i)
  {
    hide MatchScore;
    var n := |patterns| - 1;
    assert forall j :: 0 <= j < n ==> patterns[..n][j] == patterns[j];
  }

  lemma NewBest(patterns: seq<Pattern>, c: Conditions, bound: real)
    requires patterns != [] && MatchScore(patterns[|patterns| - 1].conditions, c) > bound
    requires var earlier := patterns[..|patterns| - 1];
             forall i :: 0 <= i < |earlier| ==> MatchScore(earlier[i].conditions, c) <= bound
    ensures FirstBest(patterns, c, |patterns| - 1)
  {
    hide MatchScore;
    var n := |patterns| - 1;
    assert forall j :: 0 <= j < n ==> patterns[..n][j] == patterns[j];
  }

  /** What a worthwhile event teaches is found again under its conditions, unless the list is full. */
  lemma LearnedIsRecalled(patterns: seq<Pattern>, event: LearningEvent, ranked: seq<Pattern>)
    requires Worthwhile(event) && MatchScore(event.conditions, event.conditions) == 1.0
    requires |patterns| < MAX_PATTERNS || FirstMatch(patterns, event.conditions).Some?
    ensures var (config, best) := BestMatch(PatternsAfter(patterns, event, ranked), event.conditions);
            config.Some? && best >= MATCH_THRESHOLD
  {
    hide MatchScore;
    var after := PatternsAfter(patterns, event, ranked);
    assert after == Reinforced(patterns, event);
    BestMatchMeaning(after, event.conditions);
    var i := match FirstMatch(patterns, event.conditions) case Some(k) => k case None => |patterns|;
    assert MatchScore(after[i].conditions, event.conditions) >= MATCH_THRESHOLD;
  }

  // ---------- nearest neighbours ----------

  function Squared(x: real): real {
    x * x
  }

  /** The square of the weighted distance, which orders the examples as the distance does. */
  function Distance(f1: Features, f2: Features): real {
    Squared((f1.cpu - f2.cpu) * 0.3) + Squared((f1.memory - f2.memory) * 0.25)
    + Squared((f1.latency - f2.latency) * 0.2) + Squared((f1.connections - f2.connections) * 0.1)
  }

  function Middle(r: Range): real {
    (r.min + r.max) / 2.0
  }

  function FeaturesOf(c: Conditions): Features {
    Features(Middle(c.cpu), Middle(c.memory), Middle(c.latency), Middle(c.connections))
  }

  /** Sorting by this puts the nearest examples first. */
  function DistanceFrom(f: Features): Example -> real {
    (e: Example) => Distance(f, e.features)
  }

  function Fetch(c: Config): int { c.fetch }

  function Push(c: Config): int { c.push }

  function Batch(c: Config): int { c.batch }

  function TotalScore(examples: seq<Example>): real {
    if examples == [] then 0.0 else TotalScore(examples[..|examples| - 1]) + examples[|examples| - 1].score
  }

  function Product(x: int, score: real): real {
    x as real * score
  }

  function WeightedSum(examples: seq<Example>, field: Config -> int): real {
    if examples == [] then 0.0
    else
      var last := examples[|examples| - 1];
      WeightedSum(examples[..|examples| - 1], field) + Product(field(last.config), last.score)
  }

  /** Conversion to an integer, which cuts towards zero. */
  function Truncated(x: real): int {
    if x >= 0.0 then x.Floor else -((-x).Floor)
  }

  function Average(examples: seq<Example>): Config
    requires TotalScore(examples) != 0.0
  {
    var total := TotalScore(examples);
    Config(Truncated(WeightedSum(examples, Fetch) / total), Truncated(WeightedSum(examples, Push) / total),
           Truncated(WeightedSum(examples, Batch) / total), false, 0, 1000)
  }

  /** The prediction from the ranked examples, and `None` below ten of them or with no weight at all. */
  function Prediction(ranked: seq<Example>): Option<Config> {
    if |ranked| < 10 then None
    else
      var nearest := ranked[..NEIGHBOURS];
      if TotalScore(nearest) == 0.0 then None else Some(Average(nearest))
  }

  // ---------- the accuracy estimate ----------

  /** Go's integer division by three, which cuts towards zero. */
  function Third(x: int): (r: int)
    ensures if x >= 0 then 3 * r <= x < 3 * r + 3 else 3 * r - 3 < x <= 3 * r
  {
    if x >= 0 then x / 3 else -((-x) / 3)
  }

  /** The mean fetch parallelism of the three nearest examples is within one of the tested one's. */
  predicate Foretells(ranked: seq<Example>, test: Example)
    requires |ranked| >= 3
  {
    -1 <= Third(ranked[0].config.fetch + ranked[1].config.fetch + ranked[2].config.fetch) - test.config.fetch <= 1
  }

  function Correct(tests: seq<Example>, rankings: seq<seq<Example>>): (n: nat)
    requires |rankings| == |tests| && forall ranked :: ranked in rankings ==> |ranked| >= 3
    ensures n <= |tests|
  {
    if tests == [] then 0
    else
      var k := |tests| - 1;
      Correct(tests[..k], rankings[..k]) + if Foretells(rankings[k], tests[k]) then 1 else 0
  }

  /** The examples the estimate is made on: the last fifth. */
  function TestSize(examples: seq<Example>): nat {
    |examples| / 5
  }

  /** For each tested example, all earlier ones by distance from it. */
  ghost predicate RanksTests(examples: seq<Example>, rankings: seq<seq<Example>>) {
    var t := TestSize(examples);
    var train, tests := examples[..|examples| - t], examples[|examples| - t..];
    |rankings| == t && forall i :: 0 <= i < t ==> Ranked(train, DistanceFrom(tests[i].features), rankings[i])
  }

  /** The share of tested examples that their three nearest foretell; below twenty examples it stays. */
  function Accuracy(examples: seq<Example>, accuracy: real, rankings: seq<seq<Example>>): (r: real)
    ensures 0.0 <= accuracy <= 1.0 ==> 0.0 <= r <= 1.0
  {
    var t := TestSize(examples);
    if |examples| < 20 || |rankings| != t || (exists ranked :: ranked in rankings && |ranked| < 3) then accuracy
    else Share(Correct(examples[|examples| - t..], rankings), t)
  }

  function Share(part: nat, whole: nat): (r: real)
    requires part <= whole && whole > 0
    ensures 0.0 <= r <= 1.0
  {
    part as real / whole as real
  }

  // ---------- predictions within bounds ----------

  predicate SameSign(examples: seq<Example>) {
    || (forall e :: e in examples ==> e.score >= 0.0)
    || (forall e :: e in examples ==> e.score <= 0.0)
  }

  lemma ProductBetween(x: int, low: int, high: int, score: real)
    requires low <= x <= high
    ensures score >= 0.0 ==> Product(low, score) <= Product(x, score) <= Product(high, score)
    ensures score <= 0.0 ==> Product(high, score) <= Product(x, score) <= Product(low, score)
  {
    assert Product(high, score) - Product(x, score) == (high - x) as real * score;
    assert Product(x, score) - Product(low, score) == (x - low) as real * score;
  }

  lemma ProductAdds(x: int, a: real, b: real)
    ensures Product(x, a + b) == Product(x, a) + Product(x, b)
  {
  }

  /** A weighted sum lies between the extremes times the total weight. */
  lemma {:induction false} WeightedBetween(examples: seq<Example>, field: Config -> int, low: int, high: int)
    requires forall e :: e in examples ==> low <= field(e.config) <= high
    ensures (forall e :: e in examples ==> e.score >= 0.0) ==>
              Product(low, TotalScore(examples)) <= WeightedSum(examples, field) <= Product(high, TotalScore(examples))
              && TotalScore(examples) >= 0.0
    ensures (forall e :: e in examples ==> e.score <= 0.0) ==>
              Product(high, TotalScore(examples)) <= WeightedSum(examples, field) <= Product(low, TotalScore(examples))
              && TotalScore(examples) <= 0.0
  {
    if examples != [] {
      hide Product;
      var n := |examples| - 1;
      var last, total := examples[n], TotalScore(examples[..n]);
      assert examples == examples[..n] + [last];
      WeightedBetween(examples[..n], field, low, high);
      ProductBetween(field(last.config), low, high, last.score);
      ProductAdds(low, total, last.score);
      ProductAdds(high, total, last.score);
    }
  }

  lemma CancelTotal(a: real, b: real, total: real)
    requires total != 0.0
    requires total > 0.0 ==> a * total <= b * total
    requires total < 0.0 ==> b * total <= a * total
    ensures a <= b
  {
    assert (b - a) * total == b * total - a * total;
  }

  lemma TruncatedBetween(q: real, low: int, high: int)
    requires 0 <= low && low as real <= q <= high as real
    ensures low <= Truncated(q) <= high
  {
  }

  lemma QuotientBetween(x: real, total: real, low: int, high: int)
    requires total != 0.0 && 0 <= low <= high
    requires total > 0.0 ==> Product(low, total) <= x <= Product(high, total)
    requires total < 0.0 ==> Product(high, total) <= x <= Product(low, total)
    ensures low <= Truncated(x / total) <= high
  {
    hide Truncated, Product;
    var q := x / total;
    FactorBetween(q, total, low, high);
    TruncatedBetween(q, low, high);
  }

  lemma FactorBetween(q: real, total: real, low: int, high: int)
    requires total > 0.0 ==> Product(low, total) <= q * total <= Product(high, total)
    requires total < 0.0 ==> Product(high, total) <= q * total <= Product(low, total)
    requires total != 0.0
    ensures low as real <= q <= high as real
  {
    CancelTotal(low as real, q, total);
    CancelTotal(q, high as real, total);
  }

  /** The average of configurations within bounds, with weights of one sign, is within bounds. */
  lemma AverageInBounds(examples: seq<Example>)
    requires TotalScore(examples) != 0.0 && SameSign(examples)
    requires forall e :: e in examples ==> InBounds(e.config)
    ensures InBounds(Average(examples))
  {
    hide Product, Truncated, WeightedSum;
    var total := TotalScore(examples);
    WeightedBetween(examples, Fetch, 1, 16);
    WeightedBetween(examples, Push, 1, 8);
    WeightedBetween(examples, Batch, 10, 1000);
    QuotientBetween(WeightedSum(examples, Fetch), total, 1, 16);
    QuotientBetween(WeightedSum(examples, Push), total, 1, 8);
    QuotientBetween(WeightedSum(examples, Batch), total, 10, 1000);
  }

  /** The same examples, with batch 1000 where the score has the given sign and 10 elsewhere. */
  function Skewed(examples: seq<Example>, positive: bool): (r: seq<Example>)
    ensures |r| == |examples| && forall i :: 0 <= i < |r| ==> r[i].score == examples[i].score && InBounds(r[i].config)
  {
    if examples == [] then []
    else
      var last := examples[|examples| - 1];
      var batch := if (if positive then last.score > 0.0 else last.score < 0.0) then 1000 else 10;
      Skewed(examples[..|examples| - 1], positive) + [last.(config := Config(1, 1, batch, false, 0, 0))]
  }

  /** Total of the scores with the given sign. */
  function SignedScore(examples: seq<Example>, positive: bool): (r: real)
    ensures if positive then r >= 0.0 else r <= 0.0
  {
    if examples == [] then 0.0
    else
      var score := examples[|examples| - 1].score;
      SignedScore(examples[..|examples| - 1], positive)
      + if (if positive then score > 0.0 else score < 0.0) then score else 0.0
  }

  lemma {:induction false} SkewedSums(examples: seq<Example>, positive: bool)
    ensures TotalScore(Skewed(examples, positive)) == TotalScore(examples)
    ensures WeightedSum(Skewed(examples, positive), Batch) ==
            10.0 * TotalScore(examples) + 990.0 * SignedScore(examples, positive)
  {
    if examples != [] {
      var n := |examples| - 1;
      SkewedSums(examples[..n], positive);
      assert Skewed(examples, positive)[..n] == Skewed(examples[..n], positive);
    }
  }

  lemma {:induction false} OppositeScores(examples: seq<Example>, positive: bool)
    requires exists e :: e in examples && if positive then e.score > 0.0 else e.score < 0.0
    ensures if positive then SignedScore(examples, true) > 0.0 else SignedScore(examples, false) < 0.0
  {
    var n := |examples| - 1;
    assert examples == examples[..n] + [examples[n]];
    if !(if positive then examples[n].score > 0.0 else examples[n].score < 0.0) {
      OppositeScores(examples[..n], positive);
    }
  }

  /** The same scores with any configurations within bounds. */
  ghost predicate Reconfigured(examples: seq<Example>, other: seq<Example>) {
    && |other| == |examples|
    && forall i :: 0 <= i < |other| ==> other[i].score == examples[i].score && InBounds(other[i].config)
  }

  /**
   * Exactly when a prediction is safe: the averages stay within bounds for all configurations within
   * bounds if and only if no two scores have opposite signs.
   */
  lemma PredictionSafeIffSameSign(examples: seq<Example>)
    requires TotalScore(examples) != 0.0
    ensures (forall other :: Reconfigured(examples, other) && TotalScore(other) != 0.0 ==> InBounds(Average(other)))
            <==> SameSign(examples)
  {
    hide Average, Truncated, SignedScore, Skewed;
    if SameSign(examples) {
      forall other | Reconfigured(examples, other) && TotalScore(other) != 0.0 ensures InBounds(Average(other)) {
        SameScores(examples, other);
        AverageInBounds(other);
      }
    } else {
      var positive := TotalScore(examples) < 0.0;
      OppositeScores(examples, positive);
      SkewedSums(examples, positive);
      SkewedAverage(examples, positive);
      assert Reconfigured(examples, Skewed(examples, positive));
    }
  }

  lemma SkewedAverage(examples: seq<Example>, positive: bool)
    requires if positive then TotalScore(examples) < 0.0 && SignedScore(examples, true) > 0.0
             else TotalScore(examples) > 0.0 && SignedScore(examples, false) < 0.0
    requires TotalScore(Skewed(examples, positive)) == TotalScore(examples)
    ensures !InBounds(Average(Skewed(examples, positive)))
  {
    hide Truncated;
    SkewedSums(examples, positive);
    BelowTen(TotalScore(examples), SignedScore(examples, positive));
  }

  lemma SameScores(examples: seq<Example>, other: seq<Example>)
    requires Reconfigured(examples, other) && SameSign(examples)
    ensures SameSign(other) && forall e :: e in other ==> InBounds(e.config)
  {
    forall e | e in other
      ensures InBounds(e.config) && exists i :: 0 <= i < |examples| && examples[i].score == e.score
    {
      var i :| 0 <= i < |other| && other[i] == e;
      assert examples[i].score == e.score;
    }
  }

  lemma BelowTen(total: real, opposite: real)
    requires (total > 0.0 && opposite < 0.0) || (total < 0.0 && opposite > 0.0)
    ensures Truncated((10.0 * total + 990.0 * opposite) / total) < 10
  {
    var q := (10.0 * total + 990.0 * opposite) / total;
    assert q * total == 10.0 * total + 990.0 * opposite;
    CancelTotal(q, 10.0, total);
    assert q != 10.0;
  }
}
